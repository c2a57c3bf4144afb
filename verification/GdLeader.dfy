/** The cached leader of an active dispute is always an outcome with the largest sum. */
module GdLeader {
  import opened GlobalDisputes
  import C = CourtTypes

  /** The cached winner is stored, its sum is cached, and no other outcome has a larger sum. */
  predicate Leads(info: Info, outs: Outcomes) {
    && info.winner in outs
    && outs[info.winner].sum == info.cached.sum
    && forall o :: o in outs ==> outs[o].sum <= info.cached.sum
  }

  predicate PossessionOk(p: Possession) {
    match p
    case Paid(owner, _) => owner.User?
    case Shared(owners) => |owners| > 0 && forall i :: 0 <= i < |owners| ==> owners[i].User?
  }

  predicate OutcomesOk(outs: Outcomes) {
    forall o :: o in outs ==> PossessionOk(outs[o].possession)
  }

  /** What holds for one market. */
  predicate MarketOk(infos: map<MarketId, Info>, outs: Outcomes, m: MarketId) {
    && OutcomesOk(outs)
    && (m !in infos ==> outs == map[])
    && (m in infos ==> PossessionOk(infos[m].cached.possession))
    && (m in infos && infos[m].status.Active? ==> Leads(infos[m], outs))
  }

  ghost predicate LeaderOk(s: Store) {
    forall m :: MarketOk(s.infos, OutcomesOf(s.outcomes, m), m)
  }

  /** Only one market's record changes. */
  ghost predicate OnlyMarket(s: Store, s': Store, m: MarketId) {
    && (forall k :: k != m ==> OutcomesOf(s'.outcomes, k) == OutcomesOf(s.outcomes, k))
    && (forall k :: k != m ==> (k in s'.infos <==> k in s.infos) && (k in s.infos ==> s'.infos[k] == s.infos[k]))
  }

  lemma OneMarketSuffices(s: Store, s': Store, m: MarketId)
    requires LeaderOk(s) && OnlyMarket(s, s', m) && MarketOk(s'.infos, OutcomesOf(s'.outcomes, m), m)
    ensures LeaderOk(s')
  {
    forall k ensures MarketOk(s'.infos, OutcomesOf(s'.outcomes, k), k) {
      assert MarketOk(s.infos, OutcomesOf(s.outcomes, k), k);
    }
  }

  /** Writing an outcome whose sum has not shrunk keeps the leader right. */
  lemma PutKeepsLeader(s: Store, m: MarketId, o: Report, info: OutcomeInfo)
    requires LeaderOk(s) && (m in s.infos ==> s.infos[m].status.Active?)
    requires PossessionOk(info.possession)
    requires o in OutcomesOf(s.outcomes, m) ==> OutcomesOf(s.outcomes, m)[o].sum <= info.sum
    ensures LeaderOk(PutOutcome(s, m, o, info)) && OnlyMarket(s, PutOutcome(s, m, o, info), m)
  {
    var s' := PutOutcome(s, m, o, info);
    assert MarketOk(s.infos, OutcomesOf(s.outcomes, m), m);
    OneMarketSuffices(s, s', m);
  }

  lemma ItemKeepsLeader(s: Store, m: MarketId, market: C.Market, item: InitialItem)
    requires LeaderOk(s) && (m in s.infos ==> s.infos[m].status.Active?) && item.owner.User?
    requires AddItem(s, m, market, item).Ok?
    ensures var s' := AddItem(s, m, market, item).value;
            LeaderOk(s') && (m in s'.infos ==> s'.infos[m].status.Active?)
  {
    var outs := OutcomesOf(s.outcomes, m);
    assert MarketOk(s.infos, outs, m);
    if item.outcome in outs {
      var info := outs[item.outcome];
      PutKeepsLeader(s, m, item.outcome,
                     OutcomeInfo(info.sum + item.amount, Shared(info.possession.owners + [item.owner])));
    } else if s.cfg.maxOwners != 0 {
      PutKeepsLeader(s, m, item.outcome, OutcomeInfo(item.amount, Shared([item.owner])));
    }
  }

  lemma {:induction false} ItemsKeepLeader(s: Store, m: MarketId, market: C.Market, items: seq<InitialItem>, n: nat)
    requires LeaderOk(s) && (m in s.infos ==> s.infos[m].status.Active?) && n <= |items|
    requires forall i :: 0 <= i < |items| ==> items[i].owner.User?
    requires AddItems(s, m, market, items, n).Ok?
    ensures var s' := AddItems(s, m, market, items, n).value;
            LeaderOk(s') && (m in s'.infos ==> s'.infos[m].status.Active?)
  {
    if n > 0 {
      ItemsKeepLeader(s, m, market, items, n - 1);
      ItemKeepsLeader(AddItems(s, m, market, items, n - 1).value, m, market, items[n - 1]);
    }
  }

  lemma StartKeepsLeader(s: Store, m: MarketId, items: seq<InitialItem>)
    requires LeaderOk(s) && StartGlobalDispute(s, m, items).Ok?
    requires forall i :: 0 <= i < |items| ==> items[i].owner.User?
    ensures LeaderOk(StartGlobalDispute(s, m, items).value)
  {
    ItemsKeepLeader(s, m, s.markets[m], items, |items|);
    var s' := AddItems(s, m, s.markets[m], items, |items|).value;
    assert MarketOk(s'.infos, OutcomesOf(s'.outcomes, m), m);
    OneMarketSuffices(s', StartGlobalDispute(s, m, items).value, m);
  }

  lemma AddOutcomeKeepsLeader(s: Store, who: Account, m: MarketId, o: Report)
    requires LeaderOk(s) && who.User? && AddVoteOutcome(s, who, m, o).Ok?
    ensures LeaderOk(AddVoteOutcome(s, who, m, o).value)
  {
    var free := Transfer(s.free, s.frozen, who, RewardPot(m), s.cfg.outcomeFee).value;
    PutKeepsLeader(s.(free := free), m, o, OutcomeInfo(s.cfg.outcomeFee, Paid(who, s.cfg.outcomeFee)));
  }

  lemma VoteKeepsLeader(s: Store, voter: Account, m: MarketId, o: Report, amount: Balance)
    requires LeaderOk(s) && VoteOnOutcome(s, voter, m, o, amount).Ok?
    ensures LeaderOk(VoteOnOutcome(s, voter, m, o, amount).value)
  {
    assert MarketOk(s.infos, OutcomesOf(s.outcomes, m), m);
    var info := OutcomesOf(s.outcomes, m)[o];
    PutKeepsLeader(s, m, o, OutcomeInfo(info.sum + amount, info.possession));
  }

  lemma {:induction false} DrainedShrinks(outs: Outcomes, batch: seq<Report>, n: nat)
    requires n <= |batch|
    ensures var r := Drained(outs, batch, n);
            && r.Keys <= outs.Keys
            && (forall o :: o in r ==> r[o] == outs[o])
            && (forall i :: 0 <= i < n ==> batch[i] !in r)
            && (forall o :: o in outs && o !in r ==> o in batch[..n])
  {
    if n > 0 {
      DrainedShrinks(outs, batch, n - 1);
      assert batch[..n] == batch[..n - 1] + [batch[n - 1]];
    }
  }

  lemma PurgeKeepsLeader(s: Store, m: MarketId, order: seq<Report>)
    requires LeaderOk(s) && PurgeOutcomes(s, m, order).Ok?
    ensures LeaderOk(PurgeOutcomes(s, m, order).value)
  {
    var s1 := SaveWinner(s, m);
    assert MarketOk(s.infos, OutcomesOf(s.outcomes, m), m);
    DrainedShrinks(OutcomesOf(s1.outcomes, m), Batch(s.cfg, order), |Batch(s.cfg, order)|);
    OneMarketSuffices(s, PurgeOutcomes(s, m, order).value, m);
  }

  lemma {:induction false} RefundShrinks(r: Refund, frozen: Free, m: MarketId, batch: seq<Report>, n: nat)
    requires n <= |batch|
    ensures RefundFirst(r, frozen, m, batch, n).outs == Drained(r.outs, batch, n)
  {
    if n > 0 {
      RefundShrinks(r, frozen, m, batch, n - 1);
    }
  }

  lemma RefundKeepsLeader(s: Store, m: MarketId, order: seq<Report>)
    requires LeaderOk(s) && RefundVoteFees(s, m, order).Ok?
    ensures LeaderOk(RefundVoteFees(s, m, order).value)
  {
    var batch := Batch(s.cfg, order);
    assert MarketOk(s.infos, OutcomesOf(s.outcomes, m), m);
    RefundShrinks(Refund(s.free, OutcomesOf(s.outcomes, m)), s.frozen, m, batch, |batch|);
    DrainedShrinks(OutcomesOf(s.outcomes, m), batch, |batch|);
    OneMarketSuffices(s, RefundVoteFees(s, m, order).value, m);
  }

  lemma StatusKeepsLeader(s: Store, m: MarketId, status: Status)
    requires LeaderOk(s) && m in s.infos && !status.Active?
    ensures LeaderOk(s.(infos := s.infos[m := s.infos[m].(status := status)]))
  {
    assert MarketOk(s.infos, OutcomesOf(s.outcomes, m), m);
    OneMarketSuffices(s, s.(infos := s.infos[m := s.infos[m].(status := status)]), m);
  }

  lemma SameRecordsKeepLeader(s: Store, s': Store)
    requires LeaderOk(s) && s'.infos == s.infos && s'.outcomes == s.outcomes
    ensures LeaderOk(s')
  {}

  lemma DestroyKeepsLeader(s: Store, m: MarketId)
    requires LeaderOk(s) && DestroyGlobalDispute(s, m).Ok?
    ensures LeaderOk(DestroyGlobalDispute(s, m).value)
  {
    if s.infos[m].status.Active? {
      StatusKeepsLeader(s, m, Destroyed);
      SameRecordsKeepLeader(s.(infos := s.infos[m := s.infos[m].(status := Destroyed)]),
                            DestroyGlobalDispute(s, m).value);
    }
  }

  /** Steps that touch neither disputes nor outcomes nor locks. */
  predicate Outside(step: Step) {
    step.NextBlock? || step.Reward? || step.SetBalance? || step.SetMarket? || step.SetSchedule?
  }

  lemma OutsideFrame(s: Store, step: Step)
    requires Outside(step)
    ensures var s' := Apply(s, step);
            s'.infos == s.infos && s'.outcomes == s.outcomes && s'.locks == s.locks && s'.frozen == s.frozen
    ensures !step.SetSchedule? ==> Apply(s, step).schedule == s.schedule
  {
    if step.Reward? && RewardOutcomeOwner(s, step.market).Ok? {
      RewardFrame(s, step.market);
    }
  }

  lemma RewardFrame(s: Store, m: MarketId)
    requires RewardOutcomeOwner(s, m).Ok?
    ensures RewardOutcomeOwner(s, m).value == s.(free := RewardOutcomeOwner(s, m).value.free)
  {}

  lemma StepKeepsLeader(s: Store, step: Step)
    requires LeaderOk(s) && Proper(s, step)
    ensures LeaderOk(Apply(s, step))
  {
    if Outside(step) {
      OutsideFrame(s, step);
      SameRecordsKeepLeader(s, Apply(s, step));
    } else if Try(s, step).Ok? {
      match step
      case Start(m, items) => StartKeepsLeader(s, m, items);
      case AddOutcome(who, m, o) => AddOutcomeKeepsLeader(s, who, m, o);
      case Vote(who, m, o, amount) => VoteKeepsLeader(s, who, m, o, amount);
      case Determine(m) => if m in s.infos { StatusKeepsLeader(s, m, Finished); }
      case Destroy(m) => DestroyKeepsLeader(s, m);
      case Purge(m, order) => PurgeKeepsLeader(s, m, order);
      case RefundFees(m, order) => RefundKeepsLeader(s, m, order);
      case Unlock(_) => SameRecordsKeepLeader(s, Apply(s, step));
    }
  }

  lemma {:induction false} LeaderIsAlwaysRight(s: Store, steps: seq<Step>, n: nat)
    requires LeaderOk(s) && n <= |steps| && ProperRun(s, steps, n)
    ensures LeaderOk(Run(s, steps, n))
  {
    if n > 0 {
      LeaderIsAlwaysRight(s, steps, n - 1);
      StepKeepsLeader(Run(s, steps, n - 1), steps[n - 1]);
    }
  }

  /** After any proper run the winner determined for an active dispute is a stored outcome with the largest sum. */
  lemma DeterminedWinnerIsArgmax(s: Store, steps: seq<Step>, n: nat, m: MarketId)
    requires LeaderOk(s) && n <= |steps| && ProperRun(s, steps, n) && IsActive(Run(s, steps, n), m)
    ensures var before := Run(s, steps, n);
            var outs := OutcomesOf(before.outcomes, m);
            var w := DetermineVotingWinner(before, m).1;
            && w.Some? && w.value in outs
            && before.infos[m].cached.sum == outs[w.value].sum
            && forall o :: o in outs ==> outs[o].sum <= outs[w.value].sum
  {
    LeaderIsAlwaysRight(s, steps, n);
    var before := Run(s, steps, n);
    assert MarketOk(before.infos, OutcomesOf(before.outcomes, m), m);
  }

  lemma GenesisHasNoDisputes(cfg: Config, free: Free, markets: map<MarketId, C.Market>)
    ensures LeaderOk(Genesis(cfg, free, markets))
  {}
}
