/** The fees of a finished dispute go to the owners of the outcome that won, whatever was purged in between. */
module GdRewards {
  import opened Collections
  import opened GlobalDisputes
  import opened GdLeader
  import opened GdFunds
  import opened GdTally
  import C = CourtTypes

  // ---------- what one reward pays ----------

  /** How often an account is among the first `n` owners. */
  function CountOf(owners: seq<Account>, a: Account, n: nat): nat
    requires n <= |owners|
  {
    if n == 0 then 0 else CountOf(owners, a, n - 1) + if owners[n - 1] == a then 1 else 0
  }

  lemma TimesSuccessor(n: nat, each: nat)
    ensures (n + 1) * each == n * each + each
  {}

  lemma LastShareFits(n: nat, count: nat, each: nat, reward: nat)
    requires n < count && count * each <= reward
    ensures each <= reward - n * each
  {
    assert (count - (n + 1)) * each >= 0;
    assert count * each == (n + 1) * each + (count - (n + 1)) * each;
    TimesSuccessor(n, each);
  }

  /** No payment is clamped and none fails. */
  lemma {:induction false} OwnersArePaid(free: Free, frozen: Free, pot: Account, owners: seq<Account>, each: Balance,
                                         reward: Balance, n: nat, a: Account)
    requires n <= |owners| && pot.RewardPot? && a.User? && forall i :: 0 <= i < |owners| ==> owners[i].User?
    requires GetOr(frozen, pot) == 0 && GetOr(free, pot) == reward && |owners| * each <= reward
    ensures var r := PayOwners(free, frozen, pot, owners, each, reward, n);
            && r.1 == reward - n * each && GetOr(r.0, pot) == r.1
            && GetOr(r.0, a) == GetOr(free, a) + CountOf(owners, a, n) * each
  {
    if n > 0 {
      OwnersArePaid(free, frozen, pot, owners, each, reward, n - 1, a);
      LastShareFits(n - 1, |owners|, each, reward);
      TimesSuccessor(n - 1, each);
      TimesSuccessor(CountOf(owners, a, n - 1), each);
      var before := PayOwners(free, frozen, pot, owners, each, reward, n - 1);
      OwnerIsPaid(before.0, frozen, pot, owners[n - 1], each, a);
    }
  }

  lemma OwnerIsPaid(free: Free, frozen: Free, pot: Account, owner: Account, each: Balance, a: Account)
    requires pot.RewardPot? && owner.User? && a.User? && GetOr(frozen, pot) == 0 && each <= GetOr(free, pot)
    ensures var free' := TryTransfer(free, frozen, pot, owner, each);
            && GetOr(free', pot) == GetOr(free, pot) - each
            && GetOr(free', a) == GetOr(free, a) + if a == owner then each else 0
  {
    TransferMoves(free, frozen, pot, owner, each);
  }

  lemma EqualShares(reward: nat, count: nat)
    requires count > 0
    ensures count * (reward / count) <= reward
    ensures reward - count * (reward / count) == reward % count
  {}

  /** What an account receives of a reward. */
  function ShareOf(possession: Possession, reward: Balance, a: Account): Balance {
    match possession
    case Paid(owner, _) => if a == owner then reward else 0
    case Shared(owners) => if |owners| == 0 then 0 else CountOf(owners, a, |owners|) * (reward / |owners|)
  }

  /** What cannot be split evenly stays behind. */
  function Remainder(possession: Possession, reward: Balance): Balance {
    match possession
    case Paid(_, _) => 0
    case Shared(owners) => if |owners| == 0 then reward else reward % |owners|
  }

  lemma RewardPays(s: Store, m: MarketId, a: Account)
    requires Safe(s) && RewardOutcomeOwner(s, m).Ok? && a.User?
    ensures var s', reward := RewardOutcomeOwner(s, m).value, GetOr(s.free, RewardPot(m));
            var possession := s.infos[m].cached.possession;
            && GetOr(s'.free, a) == GetOr(s.free, a) + ShareOf(possession, reward, a)
            && GetOr(s'.free, RewardPot(m)) == Remainder(possession, reward)
            && OtherPots(s.free, s'.free, m)
  {
    var reward, pot := GetOr(s.free, RewardPot(m)), RewardPot(m);
    PotIsNeverFrozen(s, m);
    assert MarketOk(s.infos, OutcomesOf(s.outcomes, m), m);
    match s.infos[m].cached.possession {
      case Paid(owner, _) =>
        OwnerIsPaid(s.free, s.frozen, pot, owner, reward, a);
        TryTransferLeavesOtherPots(s.free, s.frozen, m, owner, reward);
      case Shared(owners) =>
        EqualShares(reward, |owners|);
        OwnersArePaid(s.free, s.frozen, pot, owners, reward / |owners|, reward, |owners|, a);
        PayOwnersLeavesOtherPots(s.free, s.frozen, m, owners, reward / |owners|, reward, |owners|);
    }
  }

  lemma {:induction false} PayingNothing(free: Free, frozen: Free, pot: Account, owners: seq<Account>, reward: Balance,
                                         n: nat)
    requires n <= |owners|
    ensures PayOwners(free, frozen, pot, owners, 0, reward, n) == (free, reward)
  {
    if n > 0 {
      PayingNothing(free, frozen, pot, owners, reward, n - 1);
    }
  }

  /** Rewarding a second time moves nothing. */
  lemma RewardPaysOnce(s: Store, m: MarketId)
    requires Safe(s) && RewardOutcomeOwner(s, m).Ok?
    ensures var s' := RewardOutcomeOwner(s, m).value;
            RewardOutcomeOwner(s', m) == Err(NoFundsToReward) || RewardOutcomeOwner(s', m) == Ok(s')
  {
    RewardPays(s, m, User(0));
    var s' := RewardOutcomeOwner(s, m).value;
    match s.infos[m].cached.possession {
      case Paid(_, _) =>
      case Shared(owners) =>
        if |owners| > 0 {
          var left := GetOr(s'.free, RewardPot(m));
          assert left / |owners| == 0;
          PayingNothing(s'.free, s'.frozen, RewardPot(m), owners, left, |owners|);
        }
    }
  }

  // ---------- what was won ----------

  /** The winning outcome, its record and the fees collected when the winner was determined. */
  datatype Award = Award(outcome: Report, record: OutcomeInfo, fees: Balance)

  datatype History = History(awards: map<MarketId, Award>, paid: set<MarketId>)

  ghost function NextHistory(s: Store, step: Step, h: History): History {
    match step
    case Determine(m) =>
      var outs := OutcomesOf(s.outcomes, m);
      if IsActive(s, m) && s.infos[m].winner in outs
      then h.(awards := h.awards[m := Award(s.infos[m].winner, outs[s.infos[m].winner], FeeSum(outs))])
      else h
    case Reward(m) => if RewardOutcomeOwner(s, m).Ok? then h.(paid := h.paid + {m}) else h
    case _ => h
  }

  ghost function HistoryAfter(s: Store, steps: seq<Step>, n: nat, h: History): History
    requires n <= |steps|
  {
    if n == 0 then h else NextHistory(Run(s, steps, n - 1), steps[n - 1], HistoryAfter(s, steps, n - 1, h))
  }

  /** The record of the winner survives: where it is stored, or else in the dispute's info. */
  predicate Kept(info: Info, outs: Outcomes, award: Award) {
    && info.winner == award.outcome
    && (if info.winner in outs then outs[info.winner] == award.record else info.cached == award.record)
  }

  ghost predicate AwardAt(infos: map<MarketId, Info>, outs: Outcomes, pot: Balance, h: History, m: MarketId) {
    && (m in infos && infos[m].status.Finished? ==>
          m in h.awards && Kept(infos[m], outs, h.awards[m]) && (m in h.paid || pot == h.awards[m].fees))
    && (m in h.paid ==> m in infos && infos[m].status.Finished?)
  }

  ghost predicate AwardsOk(s: Store, h: History) {
    forall m :: AwardAt(s.infos, OutcomesOf(s.outcomes, m), GetOr(s.free, RewardPot(m)), h, m)
  }

  ghost predicate OtherHistory(h: History, h': History, m: MarketId) {
    forall k :: k != m ==>
      (k in h'.paid <==> k in h.paid) && (k in h.awards ==> k in h'.awards && h'.awards[k] == h.awards[k])
  }

  lemma OneAwardSuffices(s: Store, s': Store, h: History, h': History, m: MarketId)
    requires AwardsOk(s, h) && OnlyMarket(s, s', m) && OtherPots(s.free, s'.free, m) && OtherHistory(h, h', m)
    requires AwardAt(s'.infos, OutcomesOf(s'.outcomes, m), GetOr(s'.free, RewardPot(m)), h', m)
    ensures AwardsOk(s', h')
  {
    forall k ensures AwardAt(s'.infos, OutcomesOf(s'.outcomes, k), GetOr(s'.free, RewardPot(k)), h', k) {
      assert AwardAt(s.infos, OutcomesOf(s.outcomes, k), GetOr(s.free, RewardPot(k)), h, k);
    }
  }

  /** Steps on a dispute that is not finished. */
  lemma UnfinishedKeepsAwards(s: Store, s': Store, h: History, m: MarketId)
    requires AwardsOk(s, h) && OnlyMarket(s, s', m) && OtherPots(s.free, s'.free, m)
    requires (m in s.infos ==> !s.infos[m].status.Finished?) && (m in s'.infos ==> !s'.infos[m].status.Finished?)
    ensures AwardsOk(s', h)
  {
    assert AwardAt(s.infos, OutcomesOf(s.outcomes, m), GetOr(s.free, RewardPot(m)), h, m);
    OneAwardSuffices(s, s', h, h, m);
  }

  lemma StartKeepsAwards(s: Store, h: History, m: MarketId, items: seq<InitialItem>)
    requires AwardsOk(s, h) && StartGlobalDispute(s, m, items).Ok?
    ensures AwardsOk(StartGlobalDispute(s, m, items).value, h)
  {
    StartIsLocal(s, m, items);
    UnfinishedKeepsAwards(s, StartGlobalDispute(s, m, items).value, h, m);
  }

  lemma AddOutcomeKeepsAwards(s: Store, h: History, who: Account, m: MarketId, o: Report)
    requires AwardsOk(s, h) && who.User? && AddVoteOutcome(s, who, m, o).Ok?
    ensures AwardsOk(AddVoteOutcome(s, who, m, o).value, h)
  {
    var fee := s.cfg.outcomeFee;
    TransferMoves(s.free, s.frozen, who, RewardPot(m), fee);
    PutIsLocal(s.(free := Transfer(s.free, s.frozen, who, RewardPot(m), fee).value), m, o,
               OutcomeInfo(fee, Paid(who, fee)));
    UnfinishedKeepsAwards(s, AddVoteOutcome(s, who, m, o).value, h, m);
  }

  lemma VoteKeepsAwards(s: Store, h: History, voter: Account, m: MarketId, o: Report, amount: Balance)
    requires AwardsOk(s, h) && VoteOnOutcome(s, voter, m, o, amount).Ok?
    ensures AwardsOk(VoteOnOutcome(s, voter, m, o, amount).value, h)
  {
    VoteIsLocal(s, voter, m, o, amount);
    UnfinishedKeepsAwards(s, VoteOnOutcome(s, voter, m, o, amount).value, h, m);
  }

  lemma DestroyKeepsAwards(s: Store, h: History, m: MarketId)
    requires AwardsOk(s, h) && DestroyGlobalDispute(s, m).Ok?
    ensures AwardsOk(DestroyGlobalDispute(s, m).value, h)
  {
    if s.infos[m].status.Active? {
      UnfinishedKeepsAwards(s, DestroyGlobalDispute(s, m).value, h, m);
    }
  }

  lemma RefundKeepsAwards(s: Store, h: History, m: MarketId, order: seq<Report>)
    requires Safe(s) && AwardsOk(s, h) && RefundVoteFees(s, m, order).Ok?
    ensures AwardsOk(RefundVoteFees(s, m, order).value, h)
  {
    RefundsAreExact(s, m, order, User(0));
    UnfinishedKeepsAwards(s, RefundVoteFees(s, m, order).value, h, m);
  }

  lemma DetermineKeepsAwards(s: Store, h: History, m: MarketId)
    requires Safe(s) && AwardsOk(s, h) && Proper(s, Determine(m))
    ensures AwardsOk(DetermineVotingWinner(s, m).0, NextHistory(s, Determine(m), h))
  {
    if m in s.infos {
      assert MarketOk(s.infos, OutcomesOf(s.outcomes, m), m);
      assert PotOk(s.infos, OutcomesOf(s.outcomes, m), GetOr(s.free, RewardPot(m)), m);
      assert AwardAt(s.infos, OutcomesOf(s.outcomes, m), GetOr(s.free, RewardPot(m)), h, m);
      OneAwardSuffices(s, DetermineVotingWinner(s, m).0, h, NextHistory(s, Determine(m), h), m);
    }
  }

  /** Purging saves the winner's record before it drains anything. */
  lemma PurgeKeepsWinner(s: Store, m: MarketId, order: seq<Report>, award: Award)
    requires PurgeOutcomes(s, m, order).Ok? && Kept(s.infos[m], OutcomesOf(s.outcomes, m), award)
    ensures var s' := PurgeOutcomes(s, m, order).value;
            m in s'.infos && Kept(s'.infos[m], OutcomesOf(s'.outcomes, m), award)
  {
    var batch := Batch(s.cfg, order);
    DrainedShrinks(OutcomesOf(SaveWinner(s, m).outcomes, m), batch, |batch|);
  }

  lemma PurgeKeepsAwards(s: Store, h: History, m: MarketId, order: seq<Report>)
    requires AwardsOk(s, h) && PurgeOutcomes(s, m, order).Ok?
    ensures AwardsOk(PurgeOutcomes(s, m, order).value, h)
  {
    assert AwardAt(s.infos, OutcomesOf(s.outcomes, m), GetOr(s.free, RewardPot(m)), h, m);
    PurgeIsLocal(s, m, order);
    PurgeKeepsWinner(s, m, order, h.awards[m]);
    OneAwardSuffices(s, PurgeOutcomes(s, m, order).value, h, h, m);
  }

  lemma RewardKeepsAwards(s: Store, h: History, m: MarketId)
    requires Safe(s) && AwardsOk(s, h) && RewardOutcomeOwner(s, m).Ok?
    ensures AwardsOk(RewardOutcomeOwner(s, m).value, NextHistory(s, Reward(m), h))
  {
    assert AwardAt(s.infos, OutcomesOf(s.outcomes, m), GetOr(s.free, RewardPot(m)), h, m);
    RewardPays(s, m, User(0));
    OneAwardSuffices(s, RewardOutcomeOwner(s, m).value, h, NextHistory(s, Reward(m), h), m);
  }

  lemma SamePotsKeepAwards(s: Store, s': Store, h: History)
    requires AwardsOk(s, h) && s'.infos == s.infos && s'.outcomes == s.outcomes
    requires forall m :: GetOr(s'.free, RewardPot(m)) == GetOr(s.free, RewardPot(m))
    ensures AwardsOk(s', h)
  {
    forall m ensures AwardAt(s'.infos, OutcomesOf(s'.outcomes, m), GetOr(s'.free, RewardPot(m)), h, m) {
      assert AwardAt(s.infos, OutcomesOf(s.outcomes, m), GetOr(s.free, RewardPot(m)), h, m);
    }
  }

  lemma StepKeepsAwards(s: Store, step: Step, h: History)
    requires Safe(s) && AwardsOk(s, h) && Proper(s, step)
    ensures AwardsOk(Apply(s, step), NextHistory(s, step, h))
  {
    if Try(s, step).Ok? {
      match step
      case Start(m, items) => StartKeepsAwards(s, h, m, items);
      case AddOutcome(who, m, o) => AddOutcomeKeepsAwards(s, h, who, m, o);
      case Vote(who, m, o, amount) => VoteKeepsAwards(s, h, who, m, o, amount);
      case Determine(m) => DetermineKeepsAwards(s, h, m);
      case Destroy(m) => DestroyKeepsAwards(s, h, m);
      case Purge(m, order) => PurgeKeepsAwards(s, h, m, order);
      case Reward(m) => RewardKeepsAwards(s, h, m);
      case RefundFees(m, order) => RefundKeepsAwards(s, h, m, order);
      case _ => SamePotsKeepAwards(s, Apply(s, step), h);
    }
  }

  ghost predicate Awarded(s: Store, h: History) {
    Safe(s) && AwardsOk(s, h)
  }

  lemma StepKeepsAwarded(s: Store, step: Step, h: History)
    requires Awarded(s, h) && Proper(s, step)
    ensures Awarded(Apply(s, step), NextHistory(s, step, h))
  {
    StepIsSafe(s, step);
    StepKeepsAwards(s, step, h);
  }

  lemma {:induction false} AwardsAreKept(s: Store, steps: seq<Step>, n: nat, h: History)
    requires Awarded(s, h) && n <= |steps| && ProperRun(s, steps, n)
    ensures Awarded(Run(s, steps, n), HistoryAfter(s, steps, n, h))
  {
    if n > 0 {
      AwardsAreKept(s, steps, n - 1, h);
      StepKeepsAwarded(Run(s, steps, n - 1), steps[n - 1], HistoryAfter(s, steps, n - 1, h));
    }
  }

  /** A reward after any proper run goes to the possession of the outcome that had won, and the first one splits
      all the fees collected for the dispute. */
  lemma RewardsGoToTheWinner(s: Store, steps: seq<Step>, n: nat, h: History, m: MarketId, a: Account)
    requires Awarded(s, h) && n <= |steps| && ProperRun(s, steps, n) && a.User?
    requires RewardOutcomeOwner(Run(s, steps, n), m).Ok?
    ensures var before, awards := Run(s, steps, n), HistoryAfter(s, steps, n, h);
            var s', reward := RewardOutcomeOwner(before, m).value, GetOr(before.free, RewardPot(m));
            && m in awards.awards
            && (m in awards.paid || reward == awards.awards[m].fees)
            && GetOr(s'.free, a) == GetOr(before.free, a) + ShareOf(awards.awards[m].record.possession, reward, a)
            && GetOr(s'.free, RewardPot(m)) == Remainder(awards.awards[m].record.possession, reward)
  {
    AwardsAreKept(s, steps, n, h);
    var before, awards := Run(s, steps, n), HistoryAfter(s, steps, n, h);
    assert AwardAt(before.infos, OutcomesOf(before.outcomes, m), GetOr(before.free, RewardPot(m)), awards, m);
    RewardPays(before, m, a);
  }

  lemma GenesisHasNoAwards(cfg: Config, free: Free, markets: map<MarketId, C.Market>)
    ensures AwardsOk(Genesis(cfg, free, markets), History(map[], {}))
  {}

  // ---------- purging to the end ----------

  ghost predicate IsFinished(s: Store, m: MarketId) {
    m in s.infos && s.infos[m].status.Finished?
  }

  function Purged(s: Store, m: MarketId, order: seq<Report>): Store {
    match PurgeOutcomes(s, m, order)
    case Ok(s') => s'
    case Err(_) => s
  }

  /** Repeated calls of the purge for one dispute. */
  function PurgeAll(s: Store, m: MarketId, orders: seq<seq<Report>>): Store
    decreases |orders|
  {
    if |orders| == 0 then s else PurgeAll(Purged(s, m, orders[0]), m, orders[1..])
  }

  /** Every call runs over the outcomes stored at that time, apart from the winner that was saved first. */
  ghost predicate PurgesEnumerated(s: Store, m: MarketId, orders: seq<seq<Report>>)
    decreases |orders|
  {
    |orders| == 0 ||
    (PurgeEnumerated(s, m, orders[0]) && PurgesEnumerated(Purged(s, m, orders[0]), m, orders[1..]))
  }

  ghost predicate PurgeEnumerated(s: Store, m: MarketId, order: seq<Report>) {
    m in s.infos && Enumerates(order, OutcomesOf(SaveWinner(s, m).outcomes, m))
  }

  lemma SaveWinnerShrinks(s: Store, m: MarketId)
    requires m in s.infos
    ensures |OutcomesOf(SaveWinner(s, m).outcomes, m)| <= |OutcomesOf(s.outcomes, m)|
  {
    var w, outs := s.infos[m].winner, OutcomesOf(s.outcomes, m);
    if w in outs {
      assert (outs - {w}).Keys == outs.Keys - {w};
      assert |(outs - {w}).Keys| == |outs - {w}| && |outs.Keys| == |outs|;
    }
  }

  lemma PurgeProgress(s: Store, m: MarketId, order: seq<Report>)
    requires IsFinished(s, m) && PurgeEnumerated(s, m, order)
    ensures var s' := Purged(s, m, order);
            && IsFinished(s', m) && s'.cfg == s.cfg && s'.free == s.free
            && Stored(s', m) <= Minus(Stored(s, m), s.cfg.removeKeysLimit)
  {
    var outs, batch := OutcomesOf(SaveWinner(s, m).outcomes, m), Batch(s.cfg, order);
    SaveWinnerShrinks(s, m);
    EnumerationLength(outs, order);
    DrainedCount(outs, batch);
  }

  lemma {:induction false} LeftAfterGrows(x: nat, y: nat, k: nat, n: nat)
    requires x <= y
    ensures LeftAfter(x, k, n) <= LeftAfter(y, k, n)
  {
    if n > 0 {
      LeftAfterGrows(Minus(x, k), Minus(y, k), k, n - 1);
    }
  }

  lemma LeftAfterStep(x: nat, y: nat, k: nat, n: nat)
    requires n > 0 && x <= Minus(y, k)
    ensures LeftAfter(x, k, n - 1) <= LeftAfter(y, k, n)
  {
    LeftAfterGrows(x, Minus(y, k), k, n - 1);
  }

  /** How many outcomes are stored for a dispute. */
  function Stored(s: Store, m: MarketId): nat {
    |OutcomesOf(s.outcomes, m)|
  }

  /** Every call drops as many outcomes as the limit allows. */
  ghost predicate Shrinks(s: Store, m: MarketId, orders: seq<seq<Report>>, limit: nat)
    decreases |orders|
  {
    |orders| == 0 ||
    (Stored(Purged(s, m, orders[0]), m) <= Minus(Stored(s, m), limit)
      && Shrinks(Purged(s, m, orders[0]), m, orders[1..], limit))
  }

  lemma {:induction false} PurgesShrink(s: Store, m: MarketId, orders: seq<seq<Report>>)
    requires IsFinished(s, m) && PurgesEnumerated(s, m, orders)
    ensures Shrinks(s, m, orders, s.cfg.removeKeysLimit)
    decreases |orders|
  {
    if |orders| > 0 {
      PurgeProgress(s, m, orders[0]);
      PurgesShrink(Purged(s, m, orders[0]), m, orders[1..]);
    }
  }

  lemma {:induction false} PurgeAllProgress(s: Store, m: MarketId, orders: seq<seq<Report>>, limit: nat)
    requires Shrinks(s, m, orders, limit)
    ensures Stored(PurgeAll(s, m, orders), m) <= LeftAfter(Stored(s, m), limit, |orders|)
    decreases |orders|
  {
    if |orders| > 0 {
      var next := Purged(s, m, orders[0]);
      LeftAfterStep(Stored(next, m), Stored(s, m), limit, |orders|);
      PurgeAllProgress(next, m, orders[1..], limit);
    }
  }

  lemma {:induction false} PurgeAllKeeps(s: Store, m: MarketId, orders: seq<seq<Report>>)
    requires IsFinished(s, m)
    ensures IsFinished(PurgeAll(s, m, orders), m) && PurgeAll(s, m, orders).free == s.free
    decreases |orders|
  {
    if |orders| > 0 {
      PurgeIsLocal(s, m, orders[0]);
      PurgeAllKeeps(Purged(s, m, orders[0]), m, orders[1..]);
    }
  }

  /** Enough calls leave nothing stored; then the reward is paid iff the account holds anything. */
  lemma PurgesMakeWayForReward(s: Store, m: MarketId, orders: seq<seq<Report>>)
    requires IsFinished(s, m) && PurgesEnumerated(s, m, orders)
    requires |orders| * s.cfg.removeKeysLimit >= Stored(s, m)
    ensures var s' := PurgeAll(s, m, orders);
            && OutcomesOf(s'.outcomes, m) == map[]
            && (RewardOutcomeOwner(s', m).Ok? <==> GetOr(s.free, RewardPot(m)) > 0)
  {
    PurgesShrink(s, m, orders);
    PurgeAllProgress(s, m, orders, s.cfg.removeKeysLimit);
    PurgeAllKeeps(s, m, orders);
    LeftAfterIsClamped(Stored(s, m), s.cfg.removeKeysLimit, |orders|);
    assert Stored(PurgeAll(s, m, orders), m) == 0;
  }
}
