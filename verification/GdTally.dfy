/** The sums of an active dispute's outcomes add up to the seeds, the fees and the locked votes. */
module GdTally {
  import opened Collections
  import opened AutoResolve
  import opened GlobalDisputes
  import opened GdLeader
  import opened GdLocks
  import opened GdFunds
  import C = CourtTypes

  ghost function Sums(outs: Outcomes): map<Report, Balance> {
    map o | o in outs :: outs[o].sum
  }

  ghost function SumTotal(outs: Outcomes): Balance {
    MapSum(Sums(outs))
  }

  ghost function VotesBy(locks: map<Account, LockList>, m: MarketId): map<Account, Balance> {
    map v | v in locks :: LockedFor(locks[v], m)
  }

  /** Everything that all voters have locked for one dispute. */
  ghost function Votes(locks: map<Account, LockList>, m: MarketId): Balance {
    MapSum(VotesBy(locks, m))
  }

  function TotalOf(items: seq<InitialItem>, n: nat): Balance
    requires n <= |items|
  {
    if n == 0 then 0 else TotalOf(items, n - 1) + items[n - 1].amount
  }

  lemma SumPut(outs: Outcomes, o: Report, info: OutcomeInfo)
    ensures SumTotal(outs[o := info]) == SumTotal(outs) - (if o in outs then outs[o].sum else 0) + info.sum
  {
    assert Sums(outs[o := info]) == Sums(outs)[o := info.sum];
    MapSumUpdate(Sums(outs), o, info.sum);
  }

  lemma VotesPut(locks: map<Account, LockList>, v: Account, list: LockList, m: MarketId)
    ensures Votes(locks[v := list], m) == Votes(locks, m) - LockedFor(LocksOf(locks, v), m) + LockedFor(list, m)
  {
    assert VotesBy(locks[v := list], m) == VotesBy(locks, m)[v := LockedFor(list, m)];
    MapSumUpdate(VotesBy(locks, m), v, LockedFor(list, m));
  }

  // ---------- the invariant ----------

  /** `seed` is the total of the initial items of the dispute. */
  ghost predicate TallyAt(infos: map<MarketId, Info>, outs: Outcomes, votes: Balance, seed: Balance, m: MarketId) {
    && (m in infos && infos[m].status.Active? ==> SumTotal(outs) == seed + FeeSum(outs) + votes)
    && (m !in infos ==> votes == 0)
  }

  ghost predicate TallyOk(s: Store, seeds: map<MarketId, Balance>) {
    forall m :: TallyAt(s.infos, OutcomesOf(s.outcomes, m), Votes(s.locks, m), GetOr(seeds, m), m)
  }

  ghost predicate OtherVotes(locks: map<Account, LockList>, locks': map<Account, LockList>, m: MarketId) {
    forall k :: k != m ==> Votes(locks', k) == Votes(locks, k)
  }

  lemma OneTallySuffices(s: Store, s': Store, seeds: map<MarketId, Balance>, seeds': map<MarketId, Balance>,
                         m: MarketId)
    requires TallyOk(s, seeds) && OnlyMarket(s, s', m) && OtherVotes(s.locks, s'.locks, m)
    requires forall k :: k != m ==> GetOr(seeds', k) == GetOr(seeds, k)
    requires TallyAt(s'.infos, OutcomesOf(s'.outcomes, m), Votes(s'.locks, m), GetOr(seeds', m), m)
    ensures TallyOk(s', seeds')
  {
    forall k ensures TallyAt(s'.infos, OutcomesOf(s'.outcomes, k), Votes(s'.locks, k), GetOr(seeds', k), k) {
      assert TallyAt(s.infos, OutcomesOf(s.outcomes, k), Votes(s.locks, k), GetOr(seeds, k), k);
    }
  }

  // ---------- starting ----------

  lemma ItemAdds(s: Store, m: MarketId, market: C.Market, item: InitialItem)
    requires s.cfg.maxOwners > 0 && AddItem(s, m, market, item).Ok?
    ensures SumTotal(OutcomesOf(AddItem(s, m, market, item).value.outcomes, m)) ==
            SumTotal(OutcomesOf(s.outcomes, m)) + item.amount
    ensures OnlyMarket(s, AddItem(s, m, market, item).value, m)
  {
    var outs := OutcomesOf(s.outcomes, m);
    if item.outcome in outs {
      var info := OutcomeInfo(outs[item.outcome].sum + item.amount,
                              Shared(outs[item.outcome].possession.owners + [item.owner]));
      SumPut(outs, item.outcome, info);
      PutIsLocal(s, m, item.outcome, info);
    } else {
      var info := OutcomeInfo(item.amount, Shared([item.owner]));
      SumPut(outs, item.outcome, info);
      PutIsLocal(s, m, item.outcome, info);
    }
  }

  lemma {:induction false} ItemsAdd(s: Store, m: MarketId, market: C.Market, items: seq<InitialItem>, n: nat)
    requires s.cfg.maxOwners > 0 && n <= |items| && AddItems(s, m, market, items, n).Ok?
    ensures var s' := AddItems(s, m, market, items, n).value;
            && SumTotal(OutcomesOf(s'.outcomes, m)) == SumTotal(OutcomesOf(s.outcomes, m)) + TotalOf(items, n)
            && OnlyMarket(s, s', m)
  {
    if n > 0 {
      ItemsAdd(s, m, market, items, n - 1);
      ItemsWriteRecords(s, m, market, items, n - 1);
      ItemAdds(AddItems(s, m, market, items, n - 1).value, m, market, items[n - 1]);
    }
  }

  /** Where no owner may be recorded, no dispute can start. */
  lemma {:induction false} NoOwnersNoItems(s: Store, m: MarketId, market: C.Market, items: seq<InitialItem>, n: nat)
    requires s.cfg.maxOwners == 0 && n <= |items| && AddItems(s, m, market, items, n).Ok?
    ensures AddItems(s, m, market, items, n).value == s
  {
    if n > 0 {
      NoOwnersNoItems(s, m, market, items, n - 1);
    }
  }

  lemma LaunchIsLocal(s: Store, m: MarketId)
    requires Launch(s, m).Ok?
    ensures var s' := Launch(s, m).value;
            && OnlyMarket(s, s', m) && m in s'.infos
            && s'.infos[m].status == Active(s.now + s.cfg.addOutcomePeriod, VoteEnd(s))
            && AddEntry(s.cfg.cacheSize, s.schedule, m, VoteEnd(s)) == Some(s'.schedule)
            && s'.free == s.free
  {}

  lemma StartNeedsOwners(s: Store, m: MarketId, items: seq<InitialItem>)
    requires StartGlobalDispute(s, m, items).Ok?
    ensures s.cfg.maxOwners > 0
  {
    if s.cfg.maxOwners == 0 {
      NoOwnersNoItems(s, m, s.markets[m], items, |items|);
    }
  }

  /** What a successful start does beside its items. */
  lemma StartIsLocal(s: Store, m: MarketId, items: seq<InitialItem>)
    requires StartGlobalDispute(s, m, items).Ok?
    ensures var s' := StartGlobalDispute(s, m, items).value;
            && OnlyMarket(s, s', m) && m in s'.infos
            && s'.infos[m].status == Active(s.now + s.cfg.addOutcomePeriod, VoteEnd(s))
            && AddEntry(s.cfg.cacheSize, s.schedule, m, VoteEnd(s)) == Some(s'.schedule)
            && s'.free == s.free
  {
    var market, n := s.markets[m], |items|;
    StartNeedsOwners(s, m, items);
    ItemsAdd(s, m, market, items, n);
    ItemsWriteRecords(s, m, market, items, n);
    LaunchIsLocal(AddItems(s, m, market, items, n).value, m);
  }

  lemma StartKeepsTally(s: Store, seeds: map<MarketId, Balance>, m: MarketId, items: seq<InitialItem>)
    requires Safe(s) && TallyOk(s, seeds) && StartGlobalDispute(s, m, items).Ok?
    ensures TallyOk(StartGlobalDispute(s, m, items).value, seeds[m := TotalOf(items, |items|)])
  {
    var market, n := s.markets[m], |items|;
    StartNeedsOwners(s, m, items);
    var s1, s' := AddItems(s, m, market, items, n).value, StartGlobalDispute(s, m, items).value;
    ItemsAdd(s, m, market, items, n);
    ItemsWriteRecords(s, m, market, items, n);
    ItemsKeepFunds(s, m, market, items, n);
    assert MarketOk(s.infos, OutcomesOf(s.outcomes, m), m);
    assert TallyAt(s.infos, OutcomesOf(s.outcomes, m), Votes(s.locks, m), GetOr(seeds, m), m);
    assert PotOk(s.infos, OutcomesOf(s.outcomes, m), GetOr(s.free, RewardPot(m)), m);
    assert PotOk(s1.infos, OutcomesOf(s1.outcomes, m), GetOr(s1.free, RewardPot(m)), m);
    assert Sums(map[]) == map[] && Fees(map[]) == map[];
    OneTallySuffices(s, s', seeds, seeds[m := TotalOf(items, n)], m);
  }

  // ---------- adding, voting and unlocking ----------

  /** Writing an outcome whose sum grows with its fee and the votes. */
  lemma PutKeepsTally(s: Store, s': Store, seeds: map<MarketId, Balance>, m: MarketId, o: Report, info: OutcomeInfo)
    requires TallyOk(s, seeds) && m in s.infos && s.infos[m].status.Active?
    requires OnlyMarket(s, s', m) && OtherVotes(s.locks, s'.locks, m)
    requires m in s'.infos && OutcomesOf(s'.outcomes, m) == OutcomesOf(s.outcomes, m)[o := info]
    requires var outs := OutcomesOf(s.outcomes, m);
             var was, fee := if o in outs then outs[o].sum else 0, if o in outs then FeeOf(outs[o]) else 0;
             info.sum - was == FeeOf(info) - fee + Votes(s'.locks, m) - Votes(s.locks, m)
    ensures TallyOk(s', seeds)
  {
    var outs := OutcomesOf(s.outcomes, m);
    assert TallyAt(s.infos, outs, Votes(s.locks, m), GetOr(seeds, m), m);
    SumPut(outs, o, info);
    FeeSumPut(outs, o, info);
    OneTallySuffices(s, s', seeds, seeds, m);
  }

  lemma AddOutcomeKeepsTally(s: Store, seeds: map<MarketId, Balance>, who: Account, m: MarketId, o: Report)
    requires TallyOk(s, seeds) && AddVoteOutcome(s, who, m, o).Ok?
    ensures TallyOk(AddVoteOutcome(s, who, m, o).value, seeds)
  {
    var fee := s.cfg.outcomeFee;
    var info := OutcomeInfo(fee, Paid(who, fee));
    PutIsLocal(s.(free := Transfer(s.free, s.frozen, who, RewardPot(m), fee).value), m, o, info);
    PutKeepsTally(s, AddVoteOutcome(s, who, m, o).value, seeds, m, o, info);
  }

  /** A vote of `amount` adds exactly that to what is locked for its dispute and nothing elsewhere. */
  lemma VoteAddsToVotes(s: Store, voter: Account, m: MarketId, amount: Balance, k: MarketId)
    requires LocksOk(s) && AddLock(s.cfg, LocksOf(s.locks, voter), m, amount, GetOr(s.free, voter)).Ok?
    ensures var list := AddLock(s.cfg, LocksOf(s.locks, voter), m, amount, GetOr(s.free, voter)).value.0;
            Votes(s.locks[voter := list], k) == Votes(s.locks, k) + if k == m then amount else 0
  {
    assert VoterOk(s, voter);
    var list := AddLock(s.cfg, LocksOf(s.locks, voter), m, amount, GetOr(s.free, voter)).value.0;
    AddLockAdds(s.cfg, LocksOf(s.locks, voter), m, amount, GetOr(s.free, voter), k);
    VotesPut(s.locks, voter, list, k);
  }

  lemma VoteIsLocal(s: Store, voter: Account, m: MarketId, o: Report, amount: Balance)
    requires VoteOnOutcome(s, voter, m, o, amount).Ok?
    ensures var s', outs := VoteOnOutcome(s, voter, m, o, amount).value, OutcomesOf(s.outcomes, m);
            && OnlyMarket(s, s', m)
            && OutcomesOf(s'.outcomes, m) == outs[o := OutcomeInfo(outs[o].sum + amount, outs[o].possession)]
            && s'.locks == s.locks[voter := AddLock(s.cfg, LocksOf(s.locks, voter), m, amount,
                                                    GetOr(s.free, voter)).value.0]
  {
    var outs := OutcomesOf(s.outcomes, m);
    PutIsLocal(s, m, o, OutcomeInfo(outs[o].sum + amount, outs[o].possession));
  }

  lemma VoteKeepsTally(s: Store, seeds: map<MarketId, Balance>, voter: Account, m: MarketId, o: Report, amount: Balance)
    requires LocksOk(s) && TallyOk(s, seeds) && VoteOnOutcome(s, voter, m, o, amount).Ok?
    ensures TallyOk(VoteOnOutcome(s, voter, m, o, amount).value, seeds)
  {
    var s', outs := VoteOnOutcome(s, voter, m, o, amount).value, OutcomesOf(s.outcomes, m);
    VoteIsLocal(s, voter, m, o, amount);
    forall k ensures Votes(s'.locks, k) == Votes(s.locks, k) + if k == m then amount else 0 {
      VoteAddsToVotes(s, voter, m, amount, k);
    }
    PutKeepsTally(s, s', seeds, m, o, OutcomeInfo(outs[o].sum + amount, outs[o].possession));
  }

  /** Unlocking leaves the votes of unresolved disputes alone. */
  lemma UnlockKeepsTally(s: Store, seeds: map<MarketId, Balance>, voter: Account)
    requires TallyOk(s, seeds)
    ensures TallyOk(UnlockVoteBalance(s, voter), seeds)
  {
    var list, s' := Retained(s, LocksOf(s.locks, voter)), UnlockVoteBalance(s, voter);
    forall m ensures TallyAt(s'.infos, OutcomesOf(s'.outcomes, m), Votes(s'.locks, m), GetOr(seeds, m), m) {
      assert TallyAt(s.infos, OutcomesOf(s.outcomes, m), Votes(s.locks, m), GetOr(seeds, m), m);
      RetainedAmounts(s, LocksOf(s.locks, voter), m);
      VotesPut(s.locks, voter, list, m);
    }
  }

  // ---------- the other steps ----------

  /** Steps on disputes that are over, and steps that touch neither outcomes nor votes. */
  lemma QuietKeepsTally(s: Store, s': Store, seeds: map<MarketId, Balance>, m: MarketId)
    requires TallyOk(s, seeds) && OnlyMarket(s, s', m) && s'.locks == s.locks
    requires m in s.infos ==> m in s'.infos && !s'.infos[m].status.Active?
    requires m !in s.infos ==> m !in s'.infos
    ensures TallyOk(s', seeds)
  {
    assert TallyAt(s.infos, OutcomesOf(s.outcomes, m), Votes(s.locks, m), GetOr(seeds, m), m);
    OneTallySuffices(s, s', seeds, seeds, m);
  }

  lemma DetermineKeepsTally(s: Store, seeds: map<MarketId, Balance>, m: MarketId)
    requires TallyOk(s, seeds)
    ensures TallyOk(DetermineVotingWinner(s, m).0, seeds)
  {
    QuietKeepsTally(s, DetermineVotingWinner(s, m).0, seeds, m);
  }

  lemma DestroyKeepsTally(s: Store, seeds: map<MarketId, Balance>, m: MarketId)
    requires TallyOk(s, seeds) && DestroyGlobalDispute(s, m).Ok?
    ensures TallyOk(DestroyGlobalDispute(s, m).value, seeds)
  {
    QuietKeepsTally(s, DestroyGlobalDispute(s, m).value, seeds, m);
  }

  lemma PurgeKeepsTally(s: Store, seeds: map<MarketId, Balance>, m: MarketId, order: seq<Report>)
    requires TallyOk(s, seeds) && PurgeOutcomes(s, m, order).Ok?
    ensures TallyOk(PurgeOutcomes(s, m, order).value, seeds)
  {
    PurgeIsLocal(s, m, order);
    QuietKeepsTally(s, PurgeOutcomes(s, m, order).value, seeds, m);
  }

  lemma RefundKeepsTally(s: Store, seeds: map<MarketId, Balance>, m: MarketId, order: seq<Report>)
    requires TallyOk(s, seeds) && RefundVoteFees(s, m, order).Ok?
    ensures TallyOk(RefundVoteFees(s, m, order).value, seeds)
  {
    QuietKeepsTally(s, RefundVoteFees(s, m, order).value, seeds, m);
  }

  lemma SameRecordsKeepTally(s: Store, s': Store, seeds: map<MarketId, Balance>)
    requires TallyOk(s, seeds) && s'.infos == s.infos && s'.outcomes == s.outcomes && s'.locks == s.locks
    ensures TallyOk(s', seeds)
  {
    forall m ensures TallyAt(s'.infos, OutcomesOf(s'.outcomes, m), Votes(s'.locks, m), GetOr(seeds, m), m) {
      assert TallyAt(s.infos, OutcomesOf(s.outcomes, m), Votes(s.locks, m), GetOr(seeds, m), m);
    }
  }

  /** The totals with which disputes were started. */
  function NextSeeds(s: Store, step: Step, seeds: map<MarketId, Balance>): map<MarketId, Balance> {
    if step.Start? && Try(s, step).Ok? then seeds[step.market := TotalOf(step.items, |step.items|)] else seeds
  }

  function SeedsAfter(s: Store, steps: seq<Step>, n: nat, seeds: map<MarketId, Balance>): map<MarketId, Balance>
    requires n <= |steps|
  {
    if n == 0 then seeds else NextSeeds(Run(s, steps, n - 1), steps[n - 1], SeedsAfter(s, steps, n - 1, seeds))
  }

  lemma StepKeepsTally(s: Store, step: Step, seeds: map<MarketId, Balance>)
    requires Safe(s) && TallyOk(s, seeds) && Proper(s, step)
    ensures TallyOk(Apply(s, step), NextSeeds(s, step, seeds))
  {
    if Outside(step) {
      OutsideFrame(s, step);
      SameRecordsKeepTally(s, Apply(s, step), seeds);
    } else if Try(s, step).Ok? {
      match step
      case Start(m, items) => StartKeepsTally(s, seeds, m, items);
      case AddOutcome(who, m, o) => AddOutcomeKeepsTally(s, seeds, who, m, o);
      case Vote(who, m, o, amount) => VoteKeepsTally(s, seeds, who, m, o, amount);
      case Unlock(who) => UnlockKeepsTally(s, seeds, who);
      case Determine(m) => DetermineKeepsTally(s, seeds, m);
      case Destroy(m) => DestroyKeepsTally(s, seeds, m);
      case Purge(m, order) => PurgeKeepsTally(s, seeds, m, order);
      case RefundFees(m, order) => RefundKeepsTally(s, seeds, m, order);
    }
  }

  ghost predicate Tallied(s: Store, seeds: map<MarketId, Balance>) {
    Safe(s) && TallyOk(s, seeds)
  }

  lemma StepKeepsTallied(s: Store, step: Step, seeds: map<MarketId, Balance>)
    requires Tallied(s, seeds) && Proper(s, step)
    ensures Tallied(Apply(s, step), NextSeeds(s, step, seeds))
  {
    StepIsSafe(s, step);
    StepKeepsTally(s, step, seeds);
  }

  /** Over any proper run the sums of every active dispute are its seeds, its outcome fees and its locked votes. */
  lemma {:induction false} TallyIsExact(s: Store, steps: seq<Step>, n: nat, seeds: map<MarketId, Balance>)
    requires Tallied(s, seeds) && n <= |steps| && ProperRun(s, steps, n)
    ensures Tallied(Run(s, steps, n), SeedsAfter(s, steps, n, seeds))
  {
    if n > 0 {
      TallyIsExact(s, steps, n - 1, seeds);
      StepKeepsTallied(Run(s, steps, n - 1), steps[n - 1], SeedsAfter(s, steps, n - 1, seeds));
    }
  }

  lemma GenesisIsTallied(cfg: Config, free: Free, markets: map<MarketId, C.Market>)
    ensures TallyOk(Genesis(cfg, free, markets), map[])
  {
    forall m: MarketId ensures Votes(map[], m) == 0 {
      assert VotesBy(map[], m) == map[];
    }
  }
}
