/** A voter's currency lock is the largest amount in the voter's lock list. */
module GdLocks {
  import opened Collections
  import opened SortedSearch
  import opened GlobalDisputes
  import opened GdLeader
  import C = CourtTypes

  predicate SortedLocks(list: LockList) {
    forall i, j :: 0 <= i < j < |list| ==> list[i].0 < list[j].0
  }

  ghost predicate VoterOk(s: Store, v: Account) {
    && SortedLocks(LocksOf(s.locks, v))
    && GetOr(s.frozen, v) == MaxLock(LocksOf(s.locks, v))
  }

  ghost predicate LocksOk(s: Store) {
    && (forall v :: v in s.locks ==> v.User?)
    && (forall v :: VoterOk(s, v))
  }

  /** What a list locks for one market. */
  function LockedFor(list: LockList, m: MarketId): Balance {
    if |list| == 0 then 0
    else LockedFor(list[..|list| - 1], m) + if list[|list| - 1].0 == m then list[|list| - 1].1 else 0
  }

  lemma {:induction false} MaxLockConcat(a: LockList, b: LockList)
    ensures MaxLock(a + b) == Max(MaxLock(a), MaxLock(b))
    decreases |b|
  {
    if |b| == 0 {
      assert a + b == a;
    } else {
      MaxLockConcat(a, b[..|b| - 1]);
      assert (a + b)[..|a + b| - 1] == a + b[..|b| - 1];
    }
  }

  lemma {:induction false} LockedForConcat(a: LockList, b: LockList, m: MarketId)
    ensures LockedFor(a + b, m) == LockedFor(a, m) + LockedFor(b, m)
    decreases |b|
  {
    if |b| == 0 {
      assert a + b == a;
    } else {
      LockedForConcat(a, b[..|b| - 1], m);
      assert (a + b)[..|a + b| - 1] == a + b[..|b| - 1];
    }
  }

  /** An entry between two parts of a list. */
  lemma Around(all: LockList, left: LockList, entry: (MarketId, Balance), right: LockList, m: MarketId)
    requires all == left + [entry] + right
    ensures MaxLock(all) == Max(Max(MaxLock(left), entry.1), MaxLock(right))
    ensures LockedFor(all, m) == LockedFor(left, m) + (if entry.0 == m then entry.1 else 0) + LockedFor(right, m)
  {
    MaxLockConcat(left + [entry], right);
    LockedForConcat(left + [entry], right, m);
    assert (left + [entry])[..|left|] == left;
  }

  /** Raising an entry. */
  lemma RaisedLock(list: LockList, i: nat, amount: Balance, m: MarketId)
    requires i < |list|
    ensures var list' := list[i := (list[i].0, amount + list[i].1)];
            && MaxLock(list') == Max(MaxLock(list), amount + list[i].1)
            && LockedFor(list', m) == LockedFor(list, m) + if list[i].0 == m then amount else 0
  {
    var entry: (MarketId, Balance) := (list[i].0, amount + list[i].1);
    var left, right := list[..i], list[i + 1..];
    Around(list[i := entry], left, entry, right, m);
    Around(list, left, list[i], right, m);
  }

  lemma InsertedLock(list: LockList, i: nat, entry: (MarketId, Balance), m: MarketId)
    requires i <= |list|
    ensures var list' := list[..i] + [entry] + list[i..];
            && MaxLock(list') == Max(MaxLock(list), entry.1)
            && LockedFor(list', m) == LockedFor(list, m) + if entry.0 == m then entry.1 else 0
  {
    var left, right := list[..i], list[i..];
    Around(left + [entry] + right, left, entry, right, m);
    assert left + right == list;
    MaxLockConcat(left, right);
    LockedForConcat(left, right, m);
  }

  lemma InsertedOrder(list: LockList, i: nat, m: MarketId, amount: Balance)
    requires SortedLocks(list) && i <= |list|
    requires forall k :: 0 <= k < i ==> list[k].0 < m
    requires forall k :: i <= k < |list| ==> m < list[k].0
    ensures SortedLocks(list[..i] + [(m, amount)] + list[i..])
  {
    var list' := list[..i] + [(m, amount)] + list[i..];
    forall j, k | 0 <= j < k < |list'| ensures list'[j].0 < list'[k].0 {
      assert list'[k] == if k < i then list[k] else if k == i then (m, amount) else list[k - 1];
      assert list'[j] == if j < i then list[j] else if j == i then (m, amount) else list[j - 1];
    }
  }

  lemma KeysAscend(list: LockList)
    requires SortedLocks(list)
    ensures Ascending(LockKeys(list))
  {}

  lemma InsertedLocks(list: LockList, i: nat, m: MarketId, amount: Balance)
    requires SortedLocks(list) && Search(LockKeys(list), (m, 0)) == Missing(i)
    ensures i <= |list| && SortedLocks(list[..i] + [(m, amount)] + list[i..])
  {
    var keys := LockKeys(list);
    KeysAscend(list);
    forall k | 0 <= k < |list| ensures k < i ==> list[k].0 < m
                               ensures k >= i ==> m < list[k].0 {
      assert keys[k] == (list[k].0, 0);
    }
    InsertedOrder(list, i, m, amount);
  }

  lemma RaisedOrder(list: LockList, i: nat, total: Balance)
    requires SortedLocks(list) && i < |list|
    ensures SortedLocks(list[i := (list[i].0, total)])
  {}

  /** One more vote: the list stays sorted, its maximum covers the new total, and exactly the amount is added. */
  lemma AddLockAdds(cfg: Config, list: LockList, m: MarketId, amount: Balance, free: Balance, k: MarketId)
    requires SortedLocks(list) && AddLock(cfg, list, m, amount, free).Ok?
    ensures var r := AddLock(cfg, list, m, amount, free).value;
            && SortedLocks(r.0)
            && MaxLock(r.0) == Max(MaxLock(list), r.1)
            && LockedFor(r.0, k) == LockedFor(list, k) + if k == m then amount else 0
  {
    match Search(LockKeys(list), (m, 0))
    case Found(i) =>
      assert LockKeys(list)[i] == (list[i].0, 0);
      RaisedOrder(list, i, amount + list[i].1);
      RaisedLock(list, i, amount, k);
    case Missing(i) =>
      InsertedLocks(list, i, m, amount);
      InsertedLock(list, i, (m, amount), k);
  }

  /** Unlocking keeps order and only locks of unresolved disputes. */
  lemma {:induction false} RetainedOrder(s: Store, list: LockList)
    requires SortedLocks(list)
    ensures SortedLocks(Retained(s, list))
    ensures forall e :: e in Retained(s, list) ==> e in list && IsActive(s, e.0)
  {
    if |list| > 0 {
      var rest, last := list[..|list| - 1], list[|list| - 1];
      RetainedOrder(s, rest);
      var r := Retained(s, rest);
      forall i | 0 <= i < |r| ensures r[i].0 < last.0 {
        assert r[i] in rest;
      }
    }
  }

  /** Exactly the locks of unresolved disputes survive. */
  lemma {:induction false} RetainedAmounts(s: Store, list: LockList, m: MarketId)
    ensures LockedFor(Retained(s, list), m) == if IsActive(s, m) then LockedFor(list, m) else 0
  {
    if |list| > 0 {
      var last := list[|list| - 1];
      RetainedAmounts(s, list[..|list| - 1], m);
      var r := Retained(s, list[..|list| - 1]);
      assert (r + [last])[..|r|] == r;
    }
  }

  // ---------- steps ----------

  lemma OneVoterSuffices(s: Store, s': Store, v: Account)
    requires LocksOk(s) && v.User? && VoterOk(s', v)
    requires s'.locks.Keys == s.locks.Keys + {v}
    requires forall w :: w != v ==>
               LocksOf(s'.locks, w) == LocksOf(s.locks, w) && GetOr(s'.frozen, w) == GetOr(s.frozen, w)
    ensures LocksOk(s')
  {
    forall w ensures VoterOk(s', w) {
      assert VoterOk(s, w);
    }
  }

  lemma VoteKeepsLocks(s: Store, voter: Account, m: MarketId, o: Report, amount: Balance)
    requires LocksOk(s) && voter.User? && VoteOnOutcome(s, voter, m, o, amount).Ok?
    ensures LocksOk(VoteOnOutcome(s, voter, m, o, amount).value)
  {
    assert VoterOk(s, voter);
    AddLockAdds(s.cfg, LocksOf(s.locks, voter), m, amount, GetOr(s.free, voter), m);
    OneVoterSuffices(s, VoteOnOutcome(s, voter, m, o, amount).value, voter);
  }

  lemma UnlockKeepsLocks(s: Store, voter: Account)
    requires LocksOk(s) && voter.User?
    ensures LocksOk(UnlockVoteBalance(s, voter))
  {
    assert VoterOk(s, voter);
    RetainedOrder(s, LocksOf(s.locks, voter));
    OneVoterSuffices(s, UnlockVoteBalance(s, voter), voter);
  }

  /** Only disputes and their outcomes change. */
  ghost predicate OnlyRecords(s: Store, s': Store) {
    s' == s.(infos := s'.infos, outcomes := s'.outcomes)
  }

  lemma ItemWritesRecords(s: Store, m: MarketId, market: C.Market, item: InitialItem)
    requires AddItem(s, m, market, item).Ok?
    ensures OnlyRecords(s, AddItem(s, m, market, item).value)
  {}

  lemma {:induction false} ItemsWriteRecords(s: Store, m: MarketId, market: C.Market, items: seq<InitialItem>, n: nat)
    requires n <= |items| && AddItems(s, m, market, items, n).Ok?
    ensures OnlyRecords(s, AddItems(s, m, market, items, n).value)
  {
    if n > 0 {
      ItemsWriteRecords(s, m, market, items, n - 1);
      ItemWritesRecords(AddItems(s, m, market, items, n - 1).value, m, market, items[n - 1]);
    }
  }

  lemma OtherStepsLeaveLocks(s: Store, step: Step)
    requires !step.Vote? && !step.Unlock?
    ensures Apply(s, step).locks == s.locks && Apply(s, step).frozen == s.frozen
  {
    if Outside(step) {
      OutsideFrame(s, step);
    } else if step.Start? {
      if Try(s, step).Ok? { ItemsWriteRecords(s, step.market, s.markets[step.market], step.items, |step.items|); }
    } else {
      EndStepsLeaveLocks(s, step);
    }
  }

  lemma EndStepsLeaveLocks(s: Store, step: Step)
    requires step.AddOutcome? || step.Determine? || step.Destroy? || step.Purge? || step.RefundFees?
    ensures Apply(s, step).locks == s.locks && Apply(s, step).frozen == s.frozen
  {}

  lemma StepKeepsLocks(s: Store, step: Step)
    requires LocksOk(s) && Proper(s, step)
    ensures LocksOk(Apply(s, step))
  {
    if step.Vote? {
      if Try(s, step).Ok? { VoteKeepsLocks(s, step.who, step.market, step.outcome, step.amount); }
    } else if step.Unlock? {
      UnlockKeepsLocks(s, step.who);
    } else {
      OtherStepsLeaveLocks(s, step);
      forall v ensures VoterOk(Apply(s, step), v) { assert VoterOk(s, v); }
    }
  }

  /** After any proper run every voter's lock list is sorted by market without repetition and the currency lock is
      the largest amount in it. */
  lemma {:induction false} CurrencyLockIsLargestVote(s: Store, steps: seq<Step>, n: nat)
    requires LocksOk(s) && n <= |steps| && ProperRun(s, steps, n)
    ensures LocksOk(Run(s, steps, n))
  {
    if n > 0 {
      CurrencyLockIsLargestVote(s, steps, n - 1);
      StepKeepsLocks(Run(s, steps, n - 1), steps[n - 1]);
    }
  }

  lemma GenesisHasNoLocks(cfg: Config, free: Free, markets: map<MarketId, C.Market>)
    ensures LocksOk(Genesis(cfg, free, markets))
  {}
}
