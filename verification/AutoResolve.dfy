/** The schedule of markets to resolve, block by block. */
module AutoResolve {
  import opened Collections

  /** The markets to resolve at each block. */
  type Schedule = map<nat, seq<nat>>

  function IdsAt(schedule: Schedule, b: nat): seq<nat> {
    if b in schedule then schedule[b] else []
  }

  /** Append the market to a block's bounded list. */
  function AddEntry(cacheSize: nat, schedule: Schedule, m: nat, at: nat): Option<Schedule> {
    var ids := IdsAt(schedule, at);
    if |ids| >= cacheSize then None else Some(schedule[at := ids + [m]])
  }

  /** Position of the first occurrence, or the length. */
  function FirstIndex(ids: seq<nat>, m: nat): (i: nat)
    ensures i <= |ids|
    ensures i < |ids| ==> ids[i] == m
    ensures forall k :: 0 <= k < i ==> ids[k] != m
  {
    if |ids| == 0 then 0 else if ids[0] == m then 0 else 1 + FirstIndex(ids[1..], m)
  }

  /** Take out position `i` by moving the last element there. */
  function SwapRemove(ids: seq<nat>, i: nat): seq<nat>
    requires i < |ids|
  {
    ids[i := ids[|ids| - 1]][..|ids| - 1]
  }

  function RemoveEntry(schedule: Schedule, m: nat, at: nat): Schedule {
    var ids := IdsAt(schedule, at);
    var i := FirstIndex(ids, m);
    if i < |ids| then schedule[at := SwapRemove(ids, i)] else schedule
  }

  // ---------- how often a market is scheduled ----------

  function TimesAt(schedule: Schedule, m: nat, b: nat): nat {
    multiset(IdsAt(schedule, b))[m]
  }

  /** The market is scheduled exactly once, at this block. */
  ghost predicate OnceAt(schedule: Schedule, m: nat, b: nat) {
    forall x :: TimesAt(schedule, m, x) == if x == b then 1 else 0
  }

  ghost predicate NotScheduled(schedule: Schedule, m: nat) {
    forall x :: TimesAt(schedule, m, x) == 0
  }

  /** All other markets are scheduled as before. */
  ghost predicate OthersStay(schedule: Schedule, schedule': Schedule, m: nat) {
    forall k, x :: k != m ==> TimesAt(schedule', k, x) == TimesAt(schedule, k, x)
  }

  lemma AddCounts(cacheSize: nat, schedule: Schedule, m: nat, at: nat, k: nat, x: nat)
    requires AddEntry(cacheSize, schedule, m, at).Some?
    ensures TimesAt(AddEntry(cacheSize, schedule, m, at).value, k, x) ==
            TimesAt(schedule, k, x) + if k == m && x == at then 1 else 0
  {}

  lemma SwapRemoveTakesOne(ids: seq<nat>, i: nat)
    requires i < |ids|
    ensures multiset(SwapRemove(ids, i)) == multiset(ids) - multiset{ids[i]}
  {
    var last := |ids| - 1;
    var swapped := ids[i := ids[last]];
    assert swapped == swapped[..last] + [swapped[last]];
    assert multiset(swapped) == multiset(ids) - multiset{ids[i]} + multiset{ids[last]};
    assert multiset(swapped) == multiset(swapped[..last]) + multiset{ids[last]};
    MultisetCancel(multiset(swapped[..last]), multiset(ids) - multiset{ids[i]}, ids[last]);
  }

  lemma RemoveCounts(schedule: Schedule, m: nat, at: nat, k: nat, x: nat)
    ensures TimesAt(RemoveEntry(schedule, m, at), k, x) ==
            Minus(TimesAt(schedule, k, x), if k == m && x == at then 1 else 0)
  {
    var ids := IdsAt(schedule, at);
    var i := FirstIndex(ids, m);
    if i < |ids| {
      SwapRemoveTakesOne(ids, i);
    } else {
      assert m !in ids;
    }
  }

  lemma AddSchedulesOnce(cacheSize: nat, schedule: Schedule, m: nat, at: nat)
    requires AddEntry(cacheSize, schedule, m, at).Some? && NotScheduled(schedule, m)
    ensures var schedule' := AddEntry(cacheSize, schedule, m, at).value;
            OnceAt(schedule', m, at) && OthersStay(schedule, schedule', m)
  {
    var schedule' := AddEntry(cacheSize, schedule, m, at).value;
    forall k, x ensures TimesAt(schedule', k, x) == TimesAt(schedule, k, x) + if k == m && x == at then 1 else 0 {
      AddCounts(cacheSize, schedule, m, at, k, x);
    }
  }

  lemma RemoveUnschedules(schedule: Schedule, m: nat, at: nat)
    requires OnceAt(schedule, m, at)
    ensures var schedule' := RemoveEntry(schedule, m, at);
            NotScheduled(schedule', m) && OthersStay(schedule, schedule', m)
  {
    var schedule' := RemoveEntry(schedule, m, at);
    forall k, x ensures TimesAt(schedule', k, x) == Minus(TimesAt(schedule, k, x), if k == m && x == at then 1 else 0) {
      RemoveCounts(schedule, m, at, k, x);
    }
  }

  /** Adding a later entry and then removing the first one moves the market. */
  lemma MoveEntry(cacheSize: nat, schedule: Schedule, m: nat, last: nat, next: nat)
    requires OnceAt(schedule, m, last) && next != last && AddEntry(cacheSize, schedule, m, next).Some?
    ensures var schedule' := RemoveEntry(AddEntry(cacheSize, schedule, m, next).value, m, last);
            OnceAt(schedule', m, next) && OthersStay(schedule, schedule', m)
  {
    var added := AddEntry(cacheSize, schedule, m, next).value;
    var schedule' := RemoveEntry(added, m, last);
    forall k, x
      ensures TimesAt(schedule', k, x) ==
              Minus(TimesAt(schedule, k, x) + (if k == m && x == next then 1 else 0),
                    if k == m && x == last then 1 else 0)
    {
      AddCounts(cacheSize, schedule, m, next, k, x);
      RemoveCounts(added, m, last, k, x);
    }
  }
}
