/** The reward account of a dispute holds exactly the fees paid for its outcomes, and refunds give them back. */
module GdFunds {
  import opened Collections
  import opened GlobalDisputes
  import opened GdLeader
  import opened GdLocks
  import C = CourtTypes

  function FeeOf(info: OutcomeInfo): Balance {
    if info.possession.Paid? then info.possession.fee else 0
  }

  function FeeTo(info: OutcomeInfo, a: Account): Balance {
    if info.possession.Paid? && info.possession.owner == a then info.possession.fee else 0
  }

  ghost function Fees(outs: Outcomes): map<Report, Balance> {
    map o | o in outs :: FeeOf(outs[o])
  }

  ghost function FeesTo(outs: Outcomes, a: Account): map<Report, Balance> {
    map o | o in outs :: FeeTo(outs[o], a)
  }

  ghost function FeeSum(outs: Outcomes): Balance {
    MapSum(Fees(outs))
  }

  /** What an account paid for the outcomes still stored. */
  ghost function OwedTo(outs: Outcomes, a: Account): Balance {
    MapSum(FeesTo(outs, a))
  }

  lemma FeeSumPut(outs: Outcomes, o: Report, info: OutcomeInfo)
    ensures FeeSum(outs[o := info]) == FeeSum(outs) - (if o in outs then FeeOf(outs[o]) else 0) + FeeOf(info)
  {
    assert Fees(outs[o := info]) == Fees(outs)[o := FeeOf(info)];
    MapSumUpdate(Fees(outs), o, FeeOf(info));
  }

  lemma FeeSumDrop(outs: Outcomes, o: Report)
    requires o in outs
    ensures FeeSum(outs - {o}) == FeeSum(outs) - FeeOf(outs[o])
  {
    assert Fees(outs - {o}) == Fees(outs) - {o};
    MapSumRemove(Fees(outs), o);
  }

  lemma OwedDrop(outs: Outcomes, o: Report, a: Account)
    requires o in outs
    ensures OwedTo(outs - {o}, a) == OwedTo(outs, a) - FeeTo(outs[o], a)
  {
    assert FeesTo(outs - {o}, a) == FeesTo(outs, a) - {o};
    MapSumRemove(FeesTo(outs, a), o);
  }

  // ---------- the invariant ----------

  /** Until a dispute is finished, its account holds the fees of the stored outcomes. */
  ghost predicate PotOk(infos: map<MarketId, Info>, outs: Outcomes, pot: Balance, m: MarketId) {
    (m in infos && infos[m].status.Finished?) || pot == FeeSum(outs)
  }

  ghost predicate FundsOk(s: Store) {
    forall m :: PotOk(s.infos, OutcomesOf(s.outcomes, m), GetOr(s.free, RewardPot(m)), m)
  }

  ghost predicate OtherPots(free: Free, free': Free, m: MarketId) {
    forall k :: k != m ==> GetOr(free', RewardPot(k)) == GetOr(free, RewardPot(k))
  }

  lemma OnePotSuffices(s: Store, s': Store, m: MarketId)
    requires FundsOk(s) && OnlyMarket(s, s', m) && OtherPots(s.free, s'.free, m)
    requires PotOk(s'.infos, OutcomesOf(s'.outcomes, m), GetOr(s'.free, RewardPot(m)), m)
    ensures FundsOk(s')
  {
    forall k ensures PotOk(s'.infos, OutcomesOf(s'.outcomes, k), GetOr(s'.free, RewardPot(k)), k) {
      assert PotOk(s.infos, OutcomesOf(s.outcomes, k), GetOr(s.free, RewardPot(k)), k);
    }
  }

  lemma PutIsLocal(s: Store, m: MarketId, o: Report, info: OutcomeInfo)
    ensures OnlyMarket(s, PutOutcome(s, m, o, info), m)
    ensures OutcomesOf(PutOutcome(s, m, o, info).outcomes, m) == OutcomesOf(s.outcomes, m)[o := info]
  {}

  /** Writing an outcome and moving the difference of its fee into the account. */
  lemma PutKeepsFunds(s: Store, free: Free, m: MarketId, o: Report, info: OutcomeInfo)
    requires FundsOk(s) && (m in s.infos ==> s.infos[m].status.Active?) && OtherPots(s.free, free, m)
    requires var outs := OutcomesOf(s.outcomes, m);
             GetOr(free, RewardPot(m)) + (if o in outs then FeeOf(outs[o]) else 0)
             == GetOr(s.free, RewardPot(m)) + FeeOf(info)
    ensures FundsOk(PutOutcome(s.(free := free), m, o, info))
  {
    var outs := OutcomesOf(s.outcomes, m);
    assert PotOk(s.infos, outs, GetOr(s.free, RewardPot(m)), m);
    FeeSumPut(outs, o, info);
    PutIsLocal(s.(free := free), m, o, info);
    OnePotSuffices(s, PutOutcome(s.(free := free), m, o, info), m);
  }

  lemma ItemKeepsFunds(s: Store, m: MarketId, market: C.Market, item: InitialItem)
    requires FundsOk(s) && (m in s.infos ==> s.infos[m].status.Active?) && AddItem(s, m, market, item).Ok?
    ensures var s' := AddItem(s, m, market, item).value;
            FundsOk(s') && (m in s'.infos ==> s'.infos[m].status.Active?)
  {
    var outs := OutcomesOf(s.outcomes, m);
    if item.outcome in outs {
      var info := outs[item.outcome];
      PutKeepsFunds(s, s.free, m, item.outcome,
                    OutcomeInfo(info.sum + item.amount, Shared(info.possession.owners + [item.owner])));
    } else if s.cfg.maxOwners != 0 {
      PutKeepsFunds(s, s.free, m, item.outcome, OutcomeInfo(item.amount, Shared([item.owner])));
    }
  }

  lemma {:induction false} ItemsKeepFunds(s: Store, m: MarketId, market: C.Market, items: seq<InitialItem>, n: nat)
    requires FundsOk(s) && (m in s.infos ==> s.infos[m].status.Active?) && n <= |items|
    requires AddItems(s, m, market, items, n).Ok?
    ensures var s' := AddItems(s, m, market, items, n).value;
            FundsOk(s') && (m in s'.infos ==> s'.infos[m].status.Active?)
  {
    if n > 0 {
      ItemsKeepFunds(s, m, market, items, n - 1);
      ItemKeepsFunds(AddItems(s, m, market, items, n - 1).value, m, market, items[n - 1]);
    }
  }

  lemma StartKeepsFunds(s: Store, m: MarketId, items: seq<InitialItem>)
    requires FundsOk(s) && StartGlobalDispute(s, m, items).Ok?
    ensures FundsOk(StartGlobalDispute(s, m, items).value)
  {
    ItemsKeepFunds(s, m, s.markets[m], items, |items|);
    var s' := AddItems(s, m, s.markets[m], items, |items|).value;
    assert PotOk(s'.infos, OutcomesOf(s'.outcomes, m), GetOr(s'.free, RewardPot(m)), m);
    OnePotSuffices(s', StartGlobalDispute(s, m, items).value, m);
  }

  /** A successful transfer between two accounts. */
  lemma TransferMoves(free: Free, frozen: Free, from: Account, to: Account, amount: Balance)
    requires from != to && Transfer(free, frozen, from, to, amount).Some?
    ensures var free' := Transfer(free, frozen, from, to, amount).value;
            && GetOr(free', from) == GetOr(free, from) - amount
            && GetOr(free', to) == GetOr(free, to) + amount
            && forall a :: a != from && a != to ==> GetOr(free', a) == GetOr(free, a)
  {}

  lemma AddOutcomeKeepsFunds(s: Store, who: Account, m: MarketId, o: Report)
    requires FundsOk(s) && who.User? && AddVoteOutcome(s, who, m, o).Ok?
    ensures FundsOk(AddVoteOutcome(s, who, m, o).value)
  {
    var fee := s.cfg.outcomeFee;
    TransferMoves(s.free, s.frozen, who, RewardPot(m), fee);
    PutKeepsFunds(s, Transfer(s.free, s.frozen, who, RewardPot(m), fee).value, m, o, OutcomeInfo(fee, Paid(who, fee)));
  }

  lemma VoteKeepsFunds(s: Store, voter: Account, m: MarketId, o: Report, amount: Balance)
    requires FundsOk(s) && VoteOnOutcome(s, voter, m, o, amount).Ok?
    ensures FundsOk(VoteOnOutcome(s, voter, m, o, amount).value)
  {
    var info := OutcomesOf(s.outcomes, m)[o];
    PutKeepsFunds(s, s.free, m, o, OutcomeInfo(info.sum + amount, info.possession));
  }

  // ---------- refunds ----------

  ghost predicate RefundOk(r: Refund, frozen: Free, m: MarketId) {
    && GetOr(frozen, RewardPot(m)) == 0
    && GetOr(r.free, RewardPot(m)) == FeeSum(r.outs)
    && OutcomesOk(r.outs)
  }

  /** One refund never fails: it pays the outcome's owner its fee out of the account and drops the outcome. */
  lemma RefundOnePays(r: Refund, frozen: Free, m: MarketId, o: Report, a: Account)
    requires RefundOk(r, frozen, m) && a.User?
    ensures var r' := RefundOne(r, frozen, m, o);
            && RefundOk(r', frozen, m)
            && GetOr(r'.free, a) + OwedTo(r'.outs, a) == GetOr(r.free, a) + OwedTo(r.outs, a)
            && OtherPots(r.free, r'.free, m)
  {
    if o in r.outs {
      FeeSumDrop(r.outs, o);
      OwedDrop(r.outs, o, a);
      assert PossessionOk(r.outs[o].possession);
      if r.outs[o].possession.Paid? {
        TransferMoves(r.free, frozen, RewardPot(m), r.outs[o].possession.owner, r.outs[o].possession.fee);
      }
    }
  }

  lemma {:induction false} RefundFirstPays(r: Refund, frozen: Free, m: MarketId, batch: seq<Report>, n: nat, a: Account)
    requires RefundOk(r, frozen, m) && a.User? && n <= |batch|
    ensures var r' := RefundFirst(r, frozen, m, batch, n);
            && RefundOk(r', frozen, m)
            && GetOr(r'.free, a) + OwedTo(r'.outs, a) == GetOr(r.free, a) + OwedTo(r.outs, a)
            && OtherPots(r.free, r'.free, m)
  {
    if n > 0 {
      RefundFirstPays(r, frozen, m, batch, n - 1, a);
      RefundOnePays(RefundFirst(r, frozen, m, batch, n - 1), frozen, m, batch[n - 1], a);
    }
  }

  ghost predicate Safe(s: Store) {
    LeaderOk(s) && LocksOk(s) && FundsOk(s)
  }

  lemma PotIsNeverFrozen(s: Store, m: MarketId)
    requires LocksOk(s)
    ensures GetOr(s.frozen, RewardPot(m)) == 0
  {
    assert VoterOk(s, RewardPot(m));
    assert RewardPot(m) !in s.locks;
  }

  /** A batch of refunds pays every account exactly the fees of the outcomes it drops, and drops exactly its batch. */
  lemma RefundsAreExact(s: Store, m: MarketId, order: seq<Report>, a: Account)
    requires Safe(s) && RefundVoteFees(s, m, order).Ok? && a.User?
    ensures var s' := RefundVoteFees(s, m, order).value;
            var outs, outs' := OutcomesOf(s.outcomes, m), OutcomesOf(s'.outcomes, m);
            && GetOr(s'.free, a) + OwedTo(outs', a) == GetOr(s.free, a) + OwedTo(outs, a)
            && GetOr(s'.free, RewardPot(m)) == FeeSum(outs')
            && outs' == Drained(outs, Batch(s.cfg, order), |Batch(s.cfg, order)|)
            && OtherPots(s.free, s'.free, m)
  {
    var batch := Batch(s.cfg, order);
    var r := Refund(s.free, OutcomesOf(s.outcomes, m));
    PotIsNeverFrozen(s, m);
    assert MarketOk(s.infos, OutcomesOf(s.outcomes, m), m);
    assert PotOk(s.infos, OutcomesOf(s.outcomes, m), GetOr(s.free, RewardPot(m)), m);
    RefundFirstPays(r, s.frozen, m, batch, |batch|, a);
    RefundShrinks(r, s.frozen, m, batch, |batch|);
  }

  lemma RefundKeepsFunds(s: Store, m: MarketId, order: seq<Report>)
    requires Safe(s) && RefundVoteFees(s, m, order).Ok?
    ensures FundsOk(RefundVoteFees(s, m, order).value)
  {
    RefundsAreExact(s, m, order, User(0));
    OnePotSuffices(s, RefundVoteFees(s, m, order).value, m);
  }

  // ---------- steps after the end ----------

  lemma TryTransferLeavesOtherPots(free: Free, frozen: Free, m: MarketId, to: Account, amount: Balance)
    requires to.User?
    ensures OtherPots(free, TryTransfer(free, frozen, RewardPot(m), to, amount), m)
  {}

  lemma {:induction false} PayOwnersLeavesOtherPots(free: Free, frozen: Free, m: MarketId, owners: seq<Account>,
                                                    each: Balance, reward: Balance, n: nat)
    requires n <= |owners| && forall i :: 0 <= i < |owners| ==> owners[i].User?
    ensures OtherPots(free, PayOwners(free, frozen, RewardPot(m), owners, each, reward, n).0, m)
  {
    if n > 0 {
      PayOwnersLeavesOtherPots(free, frozen, m, owners, each, reward, n - 1);
      var before := PayOwners(free, frozen, RewardPot(m), owners, each, reward, n - 1);
      TryTransferLeavesOtherPots(before.0, frozen, m, owners[n - 1], Min(before.1, each));
    }
  }

  lemma RewardKeepsFunds(s: Store, m: MarketId)
    requires Safe(s) && RewardOutcomeOwner(s, m).Ok?
    ensures FundsOk(RewardOutcomeOwner(s, m).value)
  {
    assert MarketOk(s.infos, OutcomesOf(s.outcomes, m), m);
    var reward := GetOr(s.free, RewardPot(m));
    match s.infos[m].cached.possession {
      case Paid(owner, _) => TryTransferLeavesOtherPots(s.free, s.frozen, m, owner, reward);
      case Shared(owners) =>
        PayOwnersLeavesOtherPots(s.free, s.frozen, m, owners, reward / |owners|, reward, |owners|);
    }
    OnePotSuffices(s, RewardOutcomeOwner(s, m).value, m);
  }

  lemma PurgeIsLocal(s: Store, m: MarketId, order: seq<Report>)
    requires PurgeOutcomes(s, m, order).Ok?
    ensures var s' := PurgeOutcomes(s, m, order).value;
            && OnlyMarket(s, s', m) && OnlyRecords(s, s')
            && m in s'.infos && s'.infos[m].status.Finished?
  {}

  lemma PurgeKeepsFunds(s: Store, m: MarketId, order: seq<Report>)
    requires FundsOk(s) && PurgeOutcomes(s, m, order).Ok?
    ensures FundsOk(PurgeOutcomes(s, m, order).value)
  {
    PurgeIsLocal(s, m, order);
    OnePotSuffices(s, PurgeOutcomes(s, m, order).value, m);
  }

  lemma StatusKeepsFunds(s: Store, m: MarketId, status: Status)
    requires FundsOk(s) && m in s.infos && (s.infos[m].status.Active? || status.Finished?)
    ensures FundsOk(s.(infos := s.infos[m := s.infos[m].(status := status)]))
  {
    assert PotOk(s.infos, OutcomesOf(s.outcomes, m), GetOr(s.free, RewardPot(m)), m);
    OnePotSuffices(s, s.(infos := s.infos[m := s.infos[m].(status := status)]), m);
  }

  lemma SamePotsKeepFunds(s: Store, s': Store)
    requires FundsOk(s) && s'.infos == s.infos && s'.outcomes == s.outcomes
    requires forall m :: GetOr(s'.free, RewardPot(m)) == GetOr(s.free, RewardPot(m))
    ensures FundsOk(s')
  {
    forall m ensures PotOk(s'.infos, OutcomesOf(s'.outcomes, m), GetOr(s'.free, RewardPot(m)), m) {
      assert PotOk(s.infos, OutcomesOf(s.outcomes, m), GetOr(s.free, RewardPot(m)), m);
    }
  }

  lemma DestroyKeepsFunds(s: Store, m: MarketId)
    requires FundsOk(s) && DestroyGlobalDispute(s, m).Ok?
    ensures FundsOk(DestroyGlobalDispute(s, m).value)
  {
    if s.infos[m].status.Active? {
      StatusKeepsFunds(s, m, Destroyed);
      SamePotsKeepFunds(s.(infos := s.infos[m := s.infos[m].(status := Destroyed)]), DestroyGlobalDispute(s, m).value);
    }
  }

  lemma StepKeepsFunds(s: Store, step: Step)
    requires Safe(s) && Proper(s, step)
    ensures FundsOk(Apply(s, step))
  {
    if Try(s, step).Ok? {
      match step
      case Start(m, items) => StartKeepsFunds(s, m, items);
      case AddOutcome(who, m, o) => AddOutcomeKeepsFunds(s, who, m, o);
      case Vote(who, m, o, amount) => VoteKeepsFunds(s, who, m, o, amount);
      case Determine(m) => if m in s.infos { StatusKeepsFunds(s, m, Finished); }
      case Destroy(m) => DestroyKeepsFunds(s, m);
      case Purge(m, order) => PurgeKeepsFunds(s, m, order);
      case Reward(m) => RewardKeepsFunds(s, m);
      case RefundFees(m, order) => RefundKeepsFunds(s, m, order);
      case _ => SamePotsKeepFunds(s, Apply(s, step));
    }
  }

  lemma StepIsSafe(s: Store, step: Step)
    requires Safe(s) && Proper(s, step)
    ensures Safe(Apply(s, step))
  {
    StepKeepsLeader(s, step);
    StepKeepsLocks(s, step);
    StepKeepsFunds(s, step);
  }

  /** After any proper run: right leaders, exact currency locks, and fees accounted for. */
  lemma {:induction false} EveryRunIsSafe(s: Store, steps: seq<Step>, n: nat)
    requires Safe(s) && n <= |steps| && ProperRun(s, steps, n)
    ensures Safe(Run(s, steps, n))
  {
    if n > 0 {
      EveryRunIsSafe(s, steps, n - 1);
      StepIsSafe(Run(s, steps, n - 1), steps[n - 1]);
    }
  }

  lemma GenesisIsSafe(cfg: Config, free: Free, markets: map<MarketId, C.Market>)
    requires forall a :: a in free ==> a.User?
    ensures Safe(Genesis(cfg, free, markets))
  {
    GenesisHasNoDisputes(cfg, free, markets);
    GenesisHasNoLocks(cfg, free, markets);
    assert Fees(map[]) == map[];
  }

  // ---------- refunding to the end ----------

  function Refunded(s: Store, m: MarketId, order: seq<Report>): Store {
    match RefundVoteFees(s, m, order)
    case Ok(s') => s'
    case Err(_) => s
  }

  /** Repeated calls of the refund for one dispute. */
  function RefundAll(s: Store, m: MarketId, orders: seq<seq<Report>>): Store
    decreases |orders|
  {
    if |orders| == 0 then s else RefundAll(Refunded(s, m, orders[0]), m, orders[1..])
  }

  /** Stored outcomes, none listed twice. */
  predicate AreKeys(batch: seq<Report>, outs: Outcomes) {
    && (forall i :: 0 <= i < |batch| ==> batch[i] in outs)
    && (forall i, j :: 0 <= i < j < |batch| ==> batch[i] != batch[j])
  }

  /** An order in which the storage may yield the outcomes. */
  predicate Enumerates(order: seq<Report>, outs: Outcomes) {
    AreKeys(order, outs) && forall o :: o in outs ==> o in order
  }

  lemma {:induction false} DistinctCount(batch: seq<Report>)
    requires forall i, j :: 0 <= i < j < |batch| ==> batch[i] != batch[j]
    ensures |set o | o in batch| == |batch|
  {
    if |batch| > 0 {
      var rest, last := batch[..|batch| - 1], batch[|batch| - 1];
      DistinctCount(rest);
      assert batch == rest + [last];
      assert last !in rest;
      assert (set o | o in batch) == (set o | o in rest) + {last};
    }
  }

  lemma DrainedCount(outs: Outcomes, batch: seq<Report>)
    requires AreKeys(batch, outs)
    ensures |Drained(outs, batch, |batch|)| == |outs| - |batch|
  {
    DistinctCount(batch);
    DrainedShrinks(outs, batch, |batch|);
    var r, gone := Drained(outs, batch, |batch|), set o | o in batch;
    assert batch[..|batch|] == batch;
    assert r.Keys == outs.Keys - gone;
    assert gone <= outs.Keys;
    assert |r| == |r.Keys| && |outs| == |outs.Keys|;
  }

  lemma EnumerationLength(outs: Outcomes, order: seq<Report>)
    requires Enumerates(order, outs)
    ensures |order| == |outs|
  {
    DrainedCount(outs, order);
    DrainedShrinks(outs, order, |order|);
    var r := Drained(outs, order, |order|);
    forall o | o in outs ensures o !in r {
      assert o in order;
    }
    assert r.Keys == {};
    assert |r.Keys| == |r|;
  }

  ghost predicate IsDestroyed(s: Store, m: MarketId) {
    m in s.infos && s.infos[m].status.Destroyed?
  }

  /** A call on an order of the storage drops as many outcomes as the limit allows. */
  lemma RefundProgress(s: Store, m: MarketId, order: seq<Report>)
    requires Safe(s) && RefundVoteFees(s, m, order).Ok? && Enumerates(order, OutcomesOf(s.outcomes, m))
    ensures var s' := RefundVoteFees(s, m, order).value;
            |OutcomesOf(s'.outcomes, m)| == Minus(|OutcomesOf(s.outcomes, m)|, s.cfg.removeKeysLimit)
  {
    var outs, batch := OutcomesOf(s.outcomes, m), Batch(s.cfg, order);
    EnumerationLength(outs, order);
    DrainedCount(outs, batch);
    RefundsAreExact(s, m, order, User(0));
  }

  lemma RefundedIsSafe(s: Store, m: MarketId, order: seq<Report>)
    requires Safe(s) && IsDestroyed(s, m)
    ensures var s' := Refunded(s, m, order);
            Safe(s') && IsDestroyed(s', m) && s'.cfg == s.cfg
  {
    StepIsSafe(s, RefundFees(m, order));
  }

  lemma RefundedProgress(s: Store, m: MarketId, order: seq<Report>)
    requires Safe(s) && IsDestroyed(s, m) && Enumerates(order, OutcomesOf(s.outcomes, m))
    ensures |OutcomesOf(Refunded(s, m, order).outcomes, m)| == Minus(|OutcomesOf(s.outcomes, m)|, s.cfg.removeKeysLimit)
  {
    RefundProgress(s, m, order);
  }

  lemma RefundedPays(s: Store, m: MarketId, order: seq<Report>, a: Account)
    requires Safe(s) && IsDestroyed(s, m) && a.User?
    ensures var s' := Refunded(s, m, order);
            GetOr(s'.free, a) + OwedTo(OutcomesOf(s'.outcomes, m), a) ==
              GetOr(s.free, a) + OwedTo(OutcomesOf(s.outcomes, m), a)
  {
    RefundsAreExact(s, m, order, a);
  }

  /** Every call runs over the outcomes stored at that time. */
  ghost predicate Enumerated(s: Store, m: MarketId, orders: seq<seq<Report>>)
    decreases |orders|
  {
    |orders| == 0 || (Enumerates(orders[0], OutcomesOf(s.outcomes, m))
      && Enumerated(Refunded(s, m, orders[0]), m, orders[1..]))
  }

  /** Taking up to `k` away, `n` times. */
  function LeftAfter(x: nat, k: nat, n: nat): nat {
    if n == 0 then x else LeftAfter(Minus(x, k), k, n - 1)
  }

  lemma {:induction false} LeftAfterIsClamped(x: nat, k: nat, n: nat)
    ensures LeftAfter(x, k, n) == Minus(x, n * k)
  {
    if n > 0 {
      LeftAfterIsClamped(Minus(x, k), k, n - 1);
      assert n * k == (n - 1) * k + k;
    }
  }

  lemma {:induction false} RefundAllPays(s: Store, m: MarketId, orders: seq<seq<Report>>, a: Account)
    requires Safe(s) && IsDestroyed(s, m) && a.User?
    ensures var s' := RefundAll(s, m, orders);
            && Safe(s') && IsDestroyed(s', m)
            && GetOr(s'.free, a) + OwedTo(OutcomesOf(s'.outcomes, m), a) ==
               GetOr(s.free, a) + OwedTo(OutcomesOf(s.outcomes, m), a)
    decreases |orders|
  {
    if |orders| > 0 {
      RefundedIsSafe(s, m, orders[0]);
      RefundedPays(s, m, orders[0], a);
      RefundAllPays(Refunded(s, m, orders[0]), m, orders[1..], a);
    }
  }

  lemma {:induction false} RefundAllProgress(s: Store, m: MarketId, orders: seq<seq<Report>>)
    requires Safe(s) && IsDestroyed(s, m) && Enumerated(s, m, orders)
    ensures |OutcomesOf(RefundAll(s, m, orders).outcomes, m)| ==
            LeftAfter(|OutcomesOf(s.outcomes, m)|, s.cfg.removeKeysLimit, |orders|)
    decreases |orders|
  {
    if |orders| > 0 {
      RefundedIsSafe(s, m, orders[0]);
      RefundedProgress(s, m, orders[0]);
      RefundAllProgress(Refunded(s, m, orders[0]), m, orders[1..]);
    }
  }

  /** After enough calls every account has exactly the fees it paid back and the reward account is empty. */
  lemma RefundsReturnEveryFee(s: Store, m: MarketId, orders: seq<seq<Report>>, a: Account)
    requires Safe(s) && IsDestroyed(s, m) && Enumerated(s, m, orders) && a.User?
    requires |orders| * s.cfg.removeKeysLimit >= |OutcomesOf(s.outcomes, m)|
    ensures var s' := RefundAll(s, m, orders);
            && OutcomesOf(s'.outcomes, m) == map[]
            && GetOr(s'.free, a) == GetOr(s.free, a) + OwedTo(OutcomesOf(s.outcomes, m), a)
            && GetOr(s'.free, RewardPot(m)) == 0
  {
    var s' := RefundAll(s, m, orders);
    RefundAllProgress(s, m, orders);
    LeftAfterIsClamped(|OutcomesOf(s.outcomes, m)|, s.cfg.removeKeysLimit, |orders|);
    RefundAllPays(s, m, orders, a);
    assert |OutcomesOf(s'.outcomes, m)| == 0;
    assert OutcomesOf(s'.outcomes, m) == map[];
    assert PotOk(s'.infos, OutcomesOf(s'.outcomes, m), GetOr(s'.free, RewardPot(m)), m);
    assert FeesTo(map[], a) == map[] && Fees(map[]) == map[];
  }
}
