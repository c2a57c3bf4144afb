/** The global-disputes pallet with its storage items as fields; every call is proved against the state machine. */
module GlobalDisputesPallet {
  import opened Collections
  import opened SortedSearch
  import opened AutoResolve
  import opened G = GlobalDisputes
  import opened GdLeader
  import opened GdLocks
  import opened GdFunds
  import opened GdRewards
  import C = CourtTypes

  /** The call did what the specification says: the new state on success, no trace on an error. */
  ghost predicate Did(spec: Result<Store>, before: Store, e: Option<Error>, after: Store) {
    match spec
    case Ok(s) => e.None? && after == s
    case Err(x) => e == Some(x) && after == before
  }

  /** The owners have the shares of the whole account, which keeps only the remainder. */
  ghost predicate Rewarded(before: Free, after: Free, possession: Possession, m: MarketId) {
    var reward := GetOr(before, RewardPot(m));
    && (forall a: Account :: a.User? ==> GetOr(after, a) == GetOr(before, a) + ShareOf(possession, reward, a))
    && GetOr(after, RewardPot(m)) == Remainder(possession, reward)
  }

  /** Everybody has the fees of the outcomes that are gone, and the account holds those of the others. */
  ghost predicate RefundedFees(before: Free, outs: Outcomes, after: Free, outs': Outcomes, m: MarketId) {
    && (forall a: Account :: a.User? ==> GetOr(after, a) + OwedTo(outs', a) == GetOr(before, a) + OwedTo(outs, a))
    && GetOr(after, RewardPot(m)) == FeeSum(outs')
  }

  /** The dispute is active and its cached winner is a stored outcome with the largest sum. */
  predicate TrulyLed(infos: map<MarketId, Info>, outs: Outcomes, m: MarketId) {
    && m in infos && infos[m].status.Active? && infos[m].winner in outs
    && forall o :: o in outs ==> outs[o].sum <= outs[infos[m].winner].sum
  }

  lemma ActiveIsTrulyLed(s: Store, m: MarketId)
    requires Safe(s) && IsActive(s, m)
    ensures TrulyLed(s.infos, OutcomesOf(s.outcomes, m), m)
  {
    assert MarketOk(s.infos, OutcomesOf(s.outcomes, m), m);
  }

  /** The voter's lock for one market has grown by the amount, the others are as before, and the currency lock is the
      largest of them. */
  ghost predicate VoteIsLocked(was: LockList, list: LockList, frozen: Balance, m: MarketId, amount: Balance) {
    && (forall k :: LockedFor(list, k) == LockedFor(was, k) + if k == m then amount else 0)
    && frozen == MaxLock(list)
  }

  lemma VoteLocks(s: Store, voter: Account, m: MarketId, o: Report, amount: Balance)
    requires Safe(s) && VoteOnOutcome(s, voter, m, o, amount).Ok? && Safe(VoteOnOutcome(s, voter, m, o, amount).value)
    ensures var s' := VoteOnOutcome(s, voter, m, o, amount).value;
            VoteIsLocked(LocksOf(s.locks, voter), LocksOf(s'.locks, voter), GetOr(s'.frozen, voter), m, amount)
  {
    var s' := VoteOnOutcome(s, voter, m, o, amount).value;
    assert VoterOk(s, voter) && VoterOk(s', voter);
    forall k ensures LockedFor(LocksOf(s'.locks, voter), k) ==
                     LockedFor(LocksOf(s.locks, voter), k) + if k == m then amount else 0
    {
      AddLockAdds(s.cfg, LocksOf(s.locks, voter), m, amount, GetOr(s.free, voter), k);
    }
  }

  /** Exactly the locks of active disputes are left, and the currency lock is the largest of them. */
  ghost predicate OnlyActiveLocked(s: Store, was: LockList, list: LockList, frozen: Balance) {
    && (forall k :: LockedFor(list, k) == if IsActive(s, k) then LockedFor(was, k) else 0)
    && frozen == MaxLock(list)
  }

  lemma UnlockLeavesActive(s: Store, voter: Account)
    ensures var s' := G.UnlockVoteBalance(s, voter);
            OnlyActiveLocked(s, LocksOf(s.locks, voter), LocksOf(s'.locks, voter), GetOr(s'.frozen, voter))
  {
    forall k ensures LockedFor(Retained(s, LocksOf(s.locks, voter)), k) ==
                     if IsActive(s, k) then LockedFor(LocksOf(s.locks, voter), k) else 0
    {
      RetainedAmounts(s, LocksOf(s.locks, voter), k);
    }
  }

  lemma DidIsSafe(before: Store, step: Step, e: Option<Error>, after: Store)
    requires Safe(before) && Proper(before, step) && Did(Try(before, step), before, e, after)
    ensures Safe(after)
  {
    StepIsSafe(before, step);
  }

  /** An item that fails makes the whole list fail. */
  lemma {:induction false} ItemErrorStays(s: Store, m: MarketId, market: C.Market, items: seq<InitialItem>, i: nat,
                                          n: nat)
    requires i <= n <= |items| && AddItems(s, m, market, items, i).Err?
    ensures AddItems(s, m, market, items, n) == AddItems(s, m, market, items, i)
  {
    if i < n {
      ItemErrorStays(s, m, market, items, i, n - 1);
    }
  }

  lemma NextItem(s: Store, m: MarketId, market: C.Market, items: seq<InitialItem>, i: nat, at: Store, e: Option<Error>,
                 after: Store)
    requires i < |items| && AddItems(s, m, market, items, i) == Ok(at)
             && Did(AddItem(at, m, market, items[i]), at, e, after)
    ensures e.None? ==> AddItems(s, m, market, items, i + 1) == Ok(after)
    ensures e.Some? ==> AddItems(s, m, market, items, |items|) == Err(e.value)
  {
    if e.Some? {
      ItemErrorStays(s, m, market, items, i + 1, |items|);
    }
  }

  lemma LastSplit(list: LockList, i: nat)
    requires i < |list|
    ensures list[..i + 1][..i] == list[..i] && list[..i + 1][i] == list[i]
  {}

  /** Keep the locks of active disputes and the largest of them. */
  method RetainLocks(s: Store, list: LockList) returns (kept: LockList, needed: Balance)
    ensures kept == Retained(s, list) && needed == MaxLock(kept)
  {
    kept, needed := [], 0;
    for i := 0 to |list|
      invariant kept == Retained(s, list[..i]) && needed == MaxLock(kept)
    {
      LastSplit(list, i);
      if list[i].0 in s.infos && s.infos[list[i].0].status.Active? {
        needed := Max(needed, list[i].1);
        assert (kept + [list[i]])[..|kept|] == kept;
        kept := kept + [list[i]];
      }
    }
    assert list[..|list|] == list;
  }

  class Pallet {
    const cfg: G.Config
    var now: Block
    var infos: map<MarketId, Info>
    var outcomes: map<MarketId, Outcomes>
    var locks: map<Account, LockList>
    var frozen: Free
    var free: Free
    var markets: map<MarketId, C.Market>
    var schedule: Schedule

    function View(): Store
      reads this
    {
      Store(cfg, now, infos, outcomes, locks, frozen, free, markets, schedule)
    }

    ghost predicate Valid()
      reads this
    {
      Safe(View())
    }

    constructor (cfg: G.Config, free: Free, markets: map<MarketId, C.Market>)
      requires forall a :: a in free ==> a.User?
      ensures Valid() && View() == Genesis(cfg, free, markets)
    {
      this.cfg, now := cfg, 0;
      infos, outcomes, locks, frozen := map[], map[], map[], map[];
      this.free, this.markets, schedule := free, markets, map[];
      new;
      GenesisIsSafe(cfg, free, markets);
    }

    // ---------- pieces ----------

    method LetCompete(m: MarketId, o: Report, info: OutcomeInfo)
      modifies this`infos
      ensures infos == UpdateWinner(old(infos), m, o, info)
    {
      if m in infos {
        var known := infos[m];
        if info.sum >= known.cached.sum {
          known := known.(winner := o);
          known := known.(cached := known.cached.(sum := info.sum));
          infos := infos[m := known];
        }
      } else {
        infos := infos[m := Info(o, info, Active(0, 0))];
      }
    }

    method Put(m: MarketId, o: Report, info: OutcomeInfo)
      modifies this`infos, this`outcomes
      ensures View() == PutOutcome(old(View()), m, o, info)
    {
      outcomes := outcomes[m := OutcomesOf(outcomes, m)[o := info]];
      LetCompete(m, o, info);
    }

    method InsertItem(m: MarketId, market: C.Market, item: InitialItem) returns (e: Option<Error>)
      modifies this`infos, this`outcomes
      ensures Did(AddItem(old(View()), m, market, item), old(View()), e, View())
    {
      if !market.Matches(item.outcome) {
        return Some(OutcomeMismatch);
      }
      var outs := OutcomesOf(outcomes, m);
      if item.outcome in outs {
        var info := outs[item.outcome];
        if !info.possession.Shared? {
          return Some(SharedPossessionRequired);
        }
        if |info.possession.owners| >= cfg.maxOwners {
          return Some(MaxOwnersReached);
        }
        Put(m, item.outcome, OutcomeInfo(info.sum + item.amount, Shared(info.possession.owners + [item.owner])));
      } else if cfg.maxOwners > 0 {
        Put(m, item.outcome, OutcomeInfo(item.amount, Shared([item.owner])));
      }
      e := None;
    }

    /** All items go in, or the first error is returned and the state is what the items before it left. */
    method InsertItems(m: MarketId, market: C.Market, items: seq<InitialItem>) returns (e: Option<Error>)
      modifies this`infos, this`outcomes
      ensures match AddItems(old(View()), m, market, items, |items|)
              case Ok(s) => e.None? && View() == s
              case Err(x) => e == Some(x)
    {
      for i := 0 to |items|
        invariant AddItems(old(View()), m, market, items, i) == Ok(View())
      {
        ghost var at := View();
        e := InsertItem(m, market, items[i]);
        NextItem(old(View()), m, market, items, i, at, e, View());
        if e.Some? {
          return;
        }
      }
      e := None;
    }

    // ---------- starting ----------

    method StartGlobalDispute(m: MarketId, items: seq<InitialItem>) returns (e: Option<Error>)
      requires Valid() && forall i :: 0 <= i < |items| ==> items[i].owner.User?
      modifies this
      ensures Valid() && Did(G.StartGlobalDispute(old(View()), m, items), old(View()), e, View())
      ensures e.None? ==> TrulyLed(infos, OutcomesOf(outcomes, m), m)
    {
      e := TryStart(m, items);
      DidIsSafe(old(View()), Start(m, items), e, View());
      if e.None? {
        ActiveIsTrulyLed(View(), m);
      }
    }

    method TryLaunch(m: MarketId) returns (e: Option<Error>)
      modifies this`infos, this`schedule
      ensures Did(Launch(old(View()), m), old(View()), e, View())
    {
      var addEnd := now + cfg.addOutcomePeriod;
      var voteEnd := addEnd + cfg.votingPeriod;
      var added := AddEntry(cfg.cacheSize, schedule, m, voteEnd);
      if added.None? {
        return Some(StorageOverflow);
      }
      if m !in infos {
        return Some(GlobalDisputeNotFound);
      }
      schedule := added.value;
      infos := infos[m := infos[m].(status := Active(addEnd, voteEnd))];
      e := None;
    }

    method TryStart(m: MarketId, items: seq<InitialItem>) returns (e: Option<Error>)
      modifies this
      ensures Did(G.StartGlobalDispute(old(View()), m, items), old(View()), e, View())
    {
      if m !in markets {
        return Some(MarketNotFound);
      }
      if m in infos {
        return Some(GlobalDisputeAlreadyExists);
      }
      var oldInfos, oldOutcomes := infos, outcomes;
      e := InsertItems(m, markets[m], items);
      if e.None? {
        e := TryLaunch(m);
      }
      if e.Some? {
        infos, outcomes := oldInfos, oldOutcomes;
      }
    }

    // ---------- adding outcomes and voting ----------

    method AddVoteOutcome(who: Account, m: MarketId, o: Report) returns (e: Option<Error>)
      requires Valid() && who.User?
      modifies this
      ensures Valid() && Did(G.AddVoteOutcome(old(View()), who, m, o), old(View()), e, View())
      ensures e.None? ==> TrulyLed(infos, OutcomesOf(outcomes, m), m)
      ensures e.None? ==>
                && GetOr(free, RewardPot(m)) == old(GetOr(free, RewardPot(m))) + cfg.outcomeFee
                && GetOr(free, who) == old(GetOr(free, who)) - cfg.outcomeFee
    {
      e := TryAddOutcome(who, m, o);
      DidIsSafe(old(View()), AddOutcome(who, m, o), e, View());
      if e.None? {
        ActiveIsTrulyLed(View(), m);
      }
    }

    method TryAddOutcome(who: Account, m: MarketId, o: Report) returns (e: Option<Error>)
      modifies this
      ensures Did(G.AddVoteOutcome(old(View()), who, m, o), old(View()), e, View())
    {
      if m !in markets {
        return Some(MarketNotFound);
      }
      if !markets[m].Matches(o) {
        return Some(OutcomeMismatch);
      }
      if m !in infos {
        return Some(GlobalDisputeNotFound);
      }
      if !infos[m].status.Active? {
        return Some(InvalidGlobalDisputeStatus);
      }
      if now > infos[m].status.addEnd {
        return Some(AddOutcomePeriodIsOver);
      }
      if o in OutcomesOf(outcomes, m) {
        return Some(OutcomeAlreadyExists);
      }
      var fee := cfg.outcomeFee;
      var moved := Transfer(free, frozen, who, RewardPot(m), fee);
      if moved.None? {
        return Some(InsufficientBalance);
      }
      free := moved.value;
      Put(m, o, OutcomeInfo(fee, Paid(who, fee)));
      e := None;
    }

    method LockMore(list: LockList, m: MarketId, amount: Balance, balance: Balance)
      returns (r: Result<(LockList, Balance)>)
      ensures r == AddLock(cfg, list, m, amount, balance)
    {
      var hit := Search(LockKeys(list), (m, 0));
      if hit.Found? {
        var total := amount + list[hit.at].1;
        if total > balance {
          return Err(InsufficientAmount);
        }
        r := Ok((list[hit.at := (list[hit.at].0, total)], total));
      } else {
        if |list| >= cfg.maxVotes {
          return Err(MaxVotesReached);
        }
        r := Ok((list[..hit.at] + [(m, amount)] + list[hit.at..], amount));
      }
    }

    method RecordVote(voter: Account, m: MarketId, o: Report, info: OutcomeInfo, list: LockList, total: Balance)
      modifies this
      ensures View() == WriteVote(old(View()), voter, m, o, info, list, total)
    {
      Put(m, o, info);
      locks, frozen := locks[voter := list], frozen[voter := Max(GetOr(frozen, voter), total)];
    }

    method VoteOnOutcome(voter: Account, m: MarketId, o: Report, amount: Balance) returns (e: Option<Error>)
      requires Valid() && voter.User?
      modifies this
      ensures Valid() && Did(G.VoteOnOutcome(old(View()), voter, m, o, amount), old(View()), e, View())
      ensures e.None? ==> TrulyLed(infos, OutcomesOf(outcomes, m), m)
      ensures e.None? ==>
                VoteIsLocked(old(LocksOf(locks, voter)), LocksOf(locks, voter), GetOr(frozen, voter), m, amount)
    {
      e := TryVote(voter, m, o, amount);
      DidIsSafe(old(View()), Vote(voter, m, o, amount), e, View());
      if e.None? {
        ActiveIsTrulyLed(View(), m);
        VoteLocks(old(View()), voter, m, o, amount);
      }
    }

    method TryVote(voter: Account, m: MarketId, o: Report, amount: Balance) returns (e: Option<Error>)
      modifies this
      ensures Did(G.VoteOnOutcome(old(View()), voter, m, o, amount), old(View()), e, View())
    {
      if amount > GetOr(free, voter) {
        return Some(InsufficientAmount);
      }
      if amount < cfg.minVoteAmount {
        return Some(AmountTooLow);
      }
      if m !in infos {
        return Some(GlobalDisputeNotFound);
      }
      if !infos[m].status.Active? {
        return Some(InvalidGlobalDisputeStatus);
      }
      if !(infos[m].status.addEnd < now <= infos[m].status.voteEnd) {
        return Some(NotInGdVotingPeriod);
      }
      if o !in OutcomesOf(outcomes, m) {
        return Some(OutcomeDoesNotExist);
      }
      var info := OutcomesOf(outcomes, m)[o];
      var locked := LockMore(LocksOf(locks, voter), m, amount, GetOr(free, voter));
      if locked.Err? {
        return Some(locked.error);
      }
      RecordVote(voter, m, o, OutcomeInfo(info.sum + amount, info.possession), locked.value.0, locked.value.1);
      e := None;
    }

    method UnlockVoteBalance(voter: Account)
      requires Valid() && voter.User?
      modifies this
      ensures Valid() && View() == G.UnlockVoteBalance(old(View()), voter)
      ensures OnlyActiveLocked(View(), old(LocksOf(locks, voter)), LocksOf(locks, voter), GetOr(frozen, voter))
    {
      UnlockLeavesActive(View(), voter);
      var list, needed := RetainLocks(View(), LocksOf(locks, voter));
      locks, frozen := locks[voter := list], frozen[voter := needed];
      DidIsSafe(old(View()), Unlock(voter), None, View());
    }

    // ---------- ending ----------

    method DetermineVotingWinner(m: MarketId) returns (w: Option<Report>)
      requires Valid()
      modifies this
      ensures Valid() && (View(), w) == G.DetermineVotingWinner(old(View()), m)
      ensures old(IsActive(View(), m)) ==>
                && w.Some? && w.value in old(OutcomesOf(outcomes, m))
                && forall o :: o in old(OutcomesOf(outcomes, m)) ==>
                     old(OutcomesOf(outcomes, m))[o].sum <= old(OutcomesOf(outcomes, m))[w.value].sum
    {
      if m !in infos {
        return None;
      }
      assert MarketOk(infos, OutcomesOf(outcomes, m), m);
      w := Some(infos[m].winner);
      infos := infos[m := infos[m].(status := Finished)];
      StatusKeepsLeader(old(View()), m, Finished);
      StatusKeepsFunds(old(View()), m, Finished);
      SameLocksAreOk(old(View()), View());
    }

    method DestroyGlobalDispute(m: MarketId) returns (e: Option<Error>)
      requires Valid()
      modifies this
      ensures Valid() && Did(G.DestroyGlobalDispute(old(View()), m), old(View()), e, View())
    {
      if m !in infos {
        return Some(GlobalDisputeNotFound);
      }
      if infos[m].status.Active? {
        schedule := RemoveEntry(schedule, m, infos[m].status.voteEnd);
        infos := infos[m := infos[m].(status := Destroyed)];
      }
      e := None;
      DidIsSafe(old(View()), Destroy(m), e, View());
    }

    // ---------- purging, rewarding, refunding ----------

    method PurgeOutcomes(m: MarketId, order: seq<Report>) returns (e: Option<Error>)
      requires Valid()
      modifies this
      ensures Valid() && Did(G.PurgeOutcomes(old(View()), m, order), old(View()), e, View())
      ensures e.None? ==>
                && m in old(infos) && m in infos
                && forall w :: Kept(old(infos)[m], old(OutcomesOf(outcomes, m)), w) ==>
                     Kept(infos[m], OutcomesOf(outcomes, m), w)
    {
      e := TryPurge(m, order);
      if e.None? {
        forall w | Kept(old(infos)[m], old(OutcomesOf(outcomes, m)), w)
          ensures Kept(infos[m], OutcomesOf(outcomes, m), w)
        {
          PurgeKeepsWinner(old(View()), m, order, w);
        }
      }
      DidIsSafe(old(View()), Purge(m, order), e, View());
    }

    method TryPurge(m: MarketId, order: seq<Report>) returns (e: Option<Error>)
      modifies this
      ensures Did(G.PurgeOutcomes(old(View()), m, order), old(View()), e, View())
    {
      if m !in infos {
        return Some(GlobalDisputeNotFound);
      }
      if !infos[m].status.Finished? {
        return Some(UnfinishedGlobalDispute);
      }
      var w, outs := infos[m].winner, OutcomesOf(outcomes, m);
      if w in outs {
        infos := infos[m := infos[m].(cached := outs[w])];
        outs := outs - {w};
      }
      var batch := Batch(cfg, order);
      ghost var saved := outs;
      for i := 0 to |batch|
        invariant outs == Drained(saved, batch, i)
      {
        outs := outs - {batch[i]};
      }
      outcomes := outcomes[m := outs];
      PurgeStores(old(View()), m, order);
      e := None;
    }

    method RewardOutcomeOwner(m: MarketId) returns (e: Option<Error>)
      requires Valid()
      modifies this
      ensures Valid() && Did(G.RewardOutcomeOwner(old(View()), m), old(View()), e, View())
      ensures e.None? ==> m in old(infos) && Rewarded(old(free), free, old(infos)[m].cached.possession, m)
    {
      e := TryReward(m);
      DidIsSafe(old(View()), Reward(m), e, View());
      if e.None? {
        forall a: Account | a.User?
          ensures GetOr(free, a) == GetOr(old(free), a)
                  + ShareOf(infos[m].cached.possession, GetOr(old(free), RewardPot(m)), a)
        {
          RewardPays(old(View()), m, a);
        }
        RewardPays(old(View()), m, User(0));
      }
    }

    method TryReward(m: MarketId) returns (e: Option<Error>)
      modifies this`free
      ensures Did(G.RewardOutcomeOwner(old(View()), m), old(View()), e, View())
    {
      if OutcomesOf(outcomes, m) != map[] {
        return Some(OutcomesNotFullyCleaned);
      }
      if m !in infos {
        return Some(GlobalDisputeNotFound);
      }
      if !infos[m].status.Finished? {
        return Some(UnfinishedGlobalDispute);
      }
      var reward := GetOr(free, RewardPot(m));
      if reward == 0 {
        return Some(NoFundsToReward);
      }
      match infos[m].cached.possession {
        case Paid(owner, _) => free := TryTransfer(free, frozen, RewardPot(m), owner, reward);
        case Shared(owners) => RewardShared(RewardPot(m), reward, owners);
      }
      e := None;
    }

    method RewardShared(pot: Account, reward: Balance, owners: seq<Account>)
      modifies this`free
      ensures free == if |owners| == 0 then old(free)
                      else PayOwners(old(free), frozen, pot, owners, reward / |owners|, reward, |owners|).0
    {
      if |owners| == 0 {
        return;
      }
      var each, remainder := reward / |owners|, reward;
      for i := 0 to |owners|
        invariant (free, remainder) == PayOwners(old(free), frozen, pot, owners, each, reward, i)
      {
        var part := Min(remainder, each);
        remainder := remainder - part;
        free := TryTransfer(free, frozen, pot, owners[i], part);
      }
    }

    method RefundVoteFees(m: MarketId, order: seq<Report>) returns (e: Option<Error>)
      requires Valid()
      modifies this
      ensures Valid() && Did(G.RefundVoteFees(old(View()), m, order), old(View()), e, View())
      ensures e.None? ==> RefundedFees(old(free), old(OutcomesOf(outcomes, m)), free, OutcomesOf(outcomes, m), m)
    {
      e := TryRefund(m, order);
      DidIsSafe(old(View()), RefundFees(m, order), e, View());
      if e.None? {
        forall a: Account | a.User?
          ensures GetOr(free, a) + OwedTo(OutcomesOf(outcomes, m), a) ==
                  GetOr(old(free), a) + OwedTo(old(OutcomesOf(outcomes, m)), a)
        {
          RefundsAreExact(old(View()), m, order, a);
        }
        RefundsAreExact(old(View()), m, order, User(0));
      }
    }

    method TryRefund(m: MarketId, order: seq<Report>) returns (e: Option<Error>)
      modifies this
      ensures Did(G.RefundVoteFees(old(View()), m, order), old(View()), e, View())
    {
      if m !in infos {
        return Some(GlobalDisputeNotFound);
      }
      if !infos[m].status.Destroyed? {
        return Some(GlobalDisputeNotDestroyed);
      }
      var batch, outs := Batch(cfg, order), OutcomesOf(outcomes, m);
      for i := 0 to |batch|
        invariant View() == old(View()).(free := free)
        invariant Refund(free, outs) == RefundFirst(Refund(old(free), old(OutcomesOf(outcomes, m))), frozen, m, batch,
                                                    i)
      {
        if batch[i] in outs {
          var info := outs[batch[i]];
          outs := outs - {batch[i]};
          if info.possession.Paid? {
            free := TryTransfer(free, frozen, RewardPot(m), info.possession.owner, info.possession.fee);
          }
        }
      }
      outcomes := outcomes[m := outs];
      e := None;
    }
  }

  lemma SameLocksAreOk(s: Store, s': Store)
    requires LocksOk(s) && s'.locks == s.locks && s'.frozen == s.frozen
    ensures LocksOk(s')
  {
    forall v ensures VoterOk(s', v) {
      assert VoterOk(s, v);
    }
  }

  /** The outcomes a purge leaves. */
  lemma PurgeStores(s: Store, m: MarketId, order: seq<Report>)
    requires G.PurgeOutcomes(s, m, order).Ok?
    ensures var s1, batch := SaveWinner(s, m), Batch(s.cfg, order);
            G.PurgeOutcomes(s, m, order).value
            == s.(infos := s1.infos, outcomes := s.outcomes[m := Drained(OutcomesOf(s1.outcomes, m), batch, |batch|)])
  {
    var w, outs := s.infos[m].winner, OutcomesOf(s.outcomes, m);
    var batch, s1 := Batch(s.cfg, order), SaveWinner(s, m);
    var left := Drained(OutcomesOf(s1.outcomes, m), batch, |batch|);
    assert s1.outcomes[m := left] == s.outcomes[m := left];
  }
}
