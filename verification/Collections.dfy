/** Options, clamped subtraction, powers of two, and sums over sequences, maps and sorted sets. */
module Collections {

  datatype Option<+T> = None | Some(value: T)

  /** Subtraction that saturates at zero. */
  function Minus(a: nat, b: nat): (r: nat)
    ensures a >= b ==> r == a - b
    ensures a < b ==> r == 0
  {
    if a >= b then a - b else 0
  }

  function Min(a: nat, b: nat): nat {
    if a <= b then a else b
  }

  function Max(a: nat, b: nat): nat {
    if a >= b then a else b
  }

  function Pow2(n: nat): (r: nat)
    ensures r >= 1
  {
    if n == 0 then 1 else 2 * Pow2(n - 1)
  }

  function GetOr<K>(m: map<K, nat>, k: K): nat {
    if k in m then m[k] else 0
  }

  // ---------- loops as folds ----------

  /** The state after `n` rounds of a loop. */
  function Fold<S>(step: (S, nat) -> S, start: S, n: nat): S {
    if n == 0 then start else step(Fold(step, start, n - 1), n - 1)
  }

  /** What holds at the start and is kept by every round holds after the loop. */
  lemma {:induction false} FoldInvariant<S(!new)>(step: (S, nat) -> S, start: S, n: nat, inv: (S, nat) -> bool)
    requires inv(start, 0)
    requires forall s, k :: 0 <= k < n && inv(s, k) ==> inv(step(s, k), k + 1)
    ensures inv(Fold(step, start, n), n)
  {
    if n > 0 {
      FoldInvariant(step, start, n - 1, inv);
    }
  }

  // ---------- sums over maps ----------

  ghost function MapSum<K>(m: map<K, nat>): nat
    decreases m.Keys
  {
    if m.Keys == {} then 0 else
      var k :| k in m.Keys;
      m[k] + MapSum(m - {k})
  }

  lemma {:induction false} MapSumSplit<K>(m: map<K, nat>, k: K)
    requires k in m
    ensures MapSum(m) == m[k] + MapSum(m - {k})
    decreases m.Keys
  {
    var p :| p in m.Keys && MapSum(m) == m[p] + MapSum(m - {p});
    if p != k {
      MapSumSplit(m - {p}, k);
      MapSumSplit(m - {k}, p);
      assert m - {p} - {k} == m - {k} - {p};
    }
  }

  lemma MapSumUpdate<K>(m: map<K, nat>, k: K, v: nat)
    ensures MapSum(m[k := v]) == MapSum(m) - GetOr(m, k) + v
  {
    MapSumSplit(m[k := v], k);
    if k in m {
      MapSumSplit(m, k);
      assert m[k := v] - {k} == m - {k};
    } else {
      assert m[k := v] - {k} == m;
    }
  }

  lemma MapSumRemove<K>(m: map<K, nat>, k: K)
    ensures MapSum(m - {k}) == MapSum(m) - GetOr(m, k)
  {
    if k in m {
      MapSumSplit(m, k);
    } else {
      assert m - {k} == m;
    }
  }

  lemma {:induction false} MapSumZero<K>(m: map<K, nat>)
    requires forall k :: k in m ==> m[k] == 0
    ensures MapSum(m) == 0
    decreases m.Keys
  {
    if m.Keys != {} {
      var k :| k in m.Keys && MapSum(m) == m[k] + MapSum(m - {k});
      MapSumZero(m - {k});
    }
  }

  function SumAt<K>(m: map<K, nat>, order: seq<K>): nat {
    if |order| == 0 then 0 else GetOr(m, order[0]) + SumAt(m, order[1..])
  }

  lemma {:induction false} SumAtIgnoresRemoved<K>(m: map<K, nat>, k: K, order: seq<K>)
    requires k !in order
    ensures SumAt(m - {k}, order) == SumAt(m, order)
  {
    if |order| > 0 {
      SumAtIgnoresRemoved(m, k, order[1..]);
    }
  }

  /** Summing a map along any enumeration of its keys. */
  lemma {:induction false} MapSumInAnyOrder<K>(m: map<K, nat>, order: seq<K>)
    requires forall k :: k in order <==> k in m
    requires forall i, j :: 0 <= i < j < |order| ==> order[i] != order[j]
    ensures SumAt(m, order) == MapSum(m)
    decreases |order|
  {
    if |order| == 0 {
      assert m.Keys == {};
    } else {
      var k, rest := order[0], order[1..];
      assert order == [k] + rest;
      assert k !in rest;
      MapSumSplit(m, k);
      MapSumInAnyOrder(m - {k}, rest);
      SumAtIgnoresRemoved(m, k, rest);
    }
  }

  // ---------- multisets ----------

  lemma MultisetCancel<T>(a: multiset<T>, b: multiset<T>, x: T)
    requires a + multiset{x} == b + multiset{x}
    ensures a == b
  {
    assert a == a + multiset{x} - multiset{x};
    assert b == b + multiset{x} - multiset{x};
  }

  // ---------- sorted sets ----------

  predicate Increasing(s: seq<nat>) {
    forall i, j :: 0 <= i < j < |s| ==> s[i] < s[j]
  }

  predicate IsLeast(x: nat, s: set<nat>) {
    x in s && forall y :: y in s ==> x <= y
  }

  lemma {:induction false} LeastExists(s: set<nat>)
    requires s != {}
    ensures exists x :: IsLeast(x, s)
    decreases |s|
  {
    var x :| x in s;
    var rest := s - {x};
    assert forall y :: y in s ==> y == x || y in rest;
    if rest == {} {
      assert IsLeast(x, s);
    } else {
      LeastExists(rest);
      var y :| IsLeast(y, rest);
      assert IsLeast(Min(x, y), s);
    }
  }

  function Least(s: set<nat>): (x: nat)
    requires s != {}
    ensures IsLeast(x, s)
  {
    LeastExists(s);
    var x :| IsLeast(x, s);
    x
  }

  /** The order in which a B-tree set or map visits its keys. */
  function SortedSeq(s: set<nat>): (r: seq<nat>)
    ensures Increasing(r)
    ensures forall x :: x in r <==> x in s
    ensures |r| == |s|
    decreases |s|
  {
    if s == {} then [] else
      var x := Least(s);
      var rest := SortedSeq(s - {x});
      assert forall i :: 0 <= i < |rest| ==> rest[i] in rest;
      [x] + rest
  }
}
