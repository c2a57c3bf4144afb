/** The clean-up loop after a selection, which removes recorded positions one after the other. */
module PoolCleanup {
  import opened CourtTypes
  import opened JurorPool
  import opened Selection

  predicate NonDecreasing(s: seq<nat>) {
    forall i, j :: 0 <= i <= j < |s| ==> s[i] <= s[j]
  }

  /** The loop stays in range iff each position is below the length left when its turn comes. */
  lemma {:induction false} RemoveAllInRange<T>(s: seq<T>, indices: seq<nat>)
    ensures RemoveAll(s, indices).Some? <==> forall k :: 0 <= k < |indices| ==> indices[k] < |s| - k
    ensures RemoveAll(s, indices).Some? ==> |RemoveAll(s, indices).value| == |s| - |indices|
    decreases |indices|
  {
    if |indices| > 0 && indices[0] < |s| {
      var s', rest := RemoveAt(s, indices[0]), indices[1..];
      RemoveAllInRange(s', rest);
      assert forall k :: 0 <= k < |indices| ==> indices[k] == if k == 0 then indices[0] else rest[k - 1];
      assert forall k :: 0 <= k < |rest| ==> rest[k] == indices[k + 1];
    }
  }

  /** Ascending positions shift: the k-th one removes the item that was k places further on. */
  predicate Hit(indices: seq<nat>, p: nat) {
    exists k :: 0 <= k < |indices| && indices[k] + k == p
  }

  lemma HitAfterFirst(indices: seq<nat>, p: nat)
    requires |indices| > 0 && NonDecreasing(indices)
    ensures p < indices[0] ==> !Hit(indices, p) && !Hit(indices[1..], p)
    ensures p > indices[0] ==> (Hit(indices, p) <==> Hit(indices[1..], p - 1))
    ensures Hit(indices, indices[0])
  {
    assert indices[0] + 0 == indices[0];
    var rest := indices[1..];
    if p > indices[0] && Hit(indices, p) {
      var k :| 0 <= k < |indices| && indices[k] + k == p;
      assert rest[k - 1] + (k - 1) == p - 1;
    }
    if p > indices[0] && Hit(rest, p - 1) {
      var k :| 0 <= k < |rest| && rest[k] + k == p - 1;
      assert indices[k + 1] + (k + 1) == p;
    }
  }

  lemma {:induction false} RemoveAllSurvivors<T>(s: seq<T>, indices: seq<nat>)
    requires NonDecreasing(indices) && Distinct(s)
    requires RemoveAll(s, indices).Some?
    ensures forall p :: 0 <= p < |s| ==> (s[p] in RemoveAll(s, indices).value <==> !Hit(indices, p))
    ensures forall x :: x in RemoveAll(s, indices).value ==> x in s
    decreases |indices|
  {
    if |indices| > 0 {
      var i := indices[0];
      var s', r := RemoveAt(s, i), RemoveAll(s, indices).value;
      RemoveAllSurvivors(s', indices[1..]);
      assert forall x :: x in s' ==> x in s;
      forall p | 0 <= p < |s| ensures s[p] in r <==> !Hit(indices, p) {
        HitAfterFirst(indices, p);
        if p == i {
          assert s[i] !in s';
        } else {
          assert s'[if p < i then p else p - 1] == s[p];
        }
      }
    }
  }

  /** The loop removes exactly the recorded items iff it recorded at most one. */
  lemma CleanupIsExactIffAtMostOne<T>(s: seq<T>, indices: seq<nat>)
    requires NonDecreasing(indices) && Distinct(s)
    requires RemoveAll(s, indices).Some?
    ensures (forall p :: 0 <= p < |s| ==> (s[p] in RemoveAll(s, indices).value <==> p !in indices)) <==> |indices| <= 1
  {
    RemoveAllSurvivors(s, indices);
    RemoveAllInRange(s, indices);
    if |indices| > 1 {
      var last := |indices| - 1;
      var p := indices[last] + last;
      assert Hit(indices, p);
      assert p !in indices;
    } else if |indices| == 1 {
      forall p | 0 <= p < |s| ensures Hit(indices, p) <==> p in indices {
        if p in indices { assert indices[0] + 0 == p; }
      }
    }
  }

  /** Whatever the loop removes, what remains is a sorted pool that agrees with the participants. */
  lemma {:induction false} RemoveAllKeepsPool(cfg: Config, pool: seq<PoolItem>,
                                              participants: map<AccountId, Participant>, indices: seq<nat>)
    requires PoolOk(cfg, pool) && PoolAgrees(cfg, pool, participants)
    requires RemoveAll(pool, indices).Some?
    ensures PoolOk(cfg, RemoveAll(pool, indices).value) && PoolAgrees(cfg, RemoveAll(pool, indices).value, participants)
    ensures forall x :: x in RemoveAll(pool, indices).value ==> x in pool
    decreases |indices|
  {
    if |indices| > 0 {
      RemoveAtKeepsPool(cfg, pool, participants, indices[0]);
      RemoveAllKeepsPool(cfg, RemoveAt(pool, indices[0]), participants, indices[1..]);
    }
  }
}
