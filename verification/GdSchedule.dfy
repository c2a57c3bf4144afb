/** An active dispute is scheduled for resolution exactly once, at the end of its voting. */
module GdSchedule {
  import opened AutoResolve
  import opened GlobalDisputes
  import opened GdLeader
  import opened GdTally
  import C = CourtTypes

  ghost predicate ScheduledAt(infos: map<MarketId, Info>, schedule: Schedule, m: MarketId) {
    m in infos && infos[m].status.Active? ==> OnceAt(schedule, m, infos[m].status.voteEnd)
  }

  ghost predicate ScheduleOk(s: Store) {
    forall m :: ScheduledAt(s.infos, s.schedule, m)
  }

  /** Disputes are started for markets that are not scheduled, and other pallets leave the entries of active disputes
      alone. */
  ghost predicate Timely(s: Store, step: Step) {
    match step
    case Start(m, _) => NotScheduled(s.schedule, m)
    case SetSchedule(schedule) => forall m, x :: IsActive(s, m) ==> TimesAt(schedule, m, x) == TimesAt(s.schedule, m, x)
    case _ => true
  }

  lemma OneScheduleSuffices(s: Store, s': Store, m: MarketId)
    requires ScheduleOk(s) && OnlyMarket(s, s', m) && OthersStay(s.schedule, s'.schedule, m)
    requires ScheduledAt(s'.infos, s'.schedule, m)
    ensures ScheduleOk(s')
  {
    forall k ensures ScheduledAt(s'.infos, s'.schedule, k) {
      assert ScheduledAt(s.infos, s.schedule, k);
    }
  }

  lemma StartKeepsSchedule(s: Store, m: MarketId, items: seq<InitialItem>)
    requires ScheduleOk(s) && NotScheduled(s.schedule, m) && StartGlobalDispute(s, m, items).Ok?
    ensures ScheduleOk(StartGlobalDispute(s, m, items).value)
  {
    StartIsLocal(s, m, items);
    AddSchedulesOnce(s.cfg.cacheSize, s.schedule, m, VoteEnd(s));
    OneScheduleSuffices(s, StartGlobalDispute(s, m, items).value, m);
  }

  /** Destroying an active dispute takes its market off the schedule. */
  lemma DestroyUnschedules(s: Store, m: MarketId)
    requires ScheduleOk(s) && DestroyGlobalDispute(s, m).Ok?
    ensures ScheduleOk(DestroyGlobalDispute(s, m).value)
    ensures s.infos[m].status.Active? ==> NotScheduled(DestroyGlobalDispute(s, m).value.schedule, m)
  {
    if s.infos[m].status.Active? {
      assert ScheduledAt(s.infos, s.schedule, m);
      RemoveUnschedules(s.schedule, m, s.infos[m].status.voteEnd);
      OneScheduleSuffices(s, DestroyGlobalDispute(s, m).value, m);
    }
  }

  /** Steps that change no status and no schedule. */
  ghost predicate SameEnds(s: Store, s': Store) {
    && s'.schedule == s.schedule && s'.infos.Keys == s.infos.Keys
    && forall m :: m in s.infos ==> s'.infos[m].status == s.infos[m].status || s'.infos[m].status.Finished?
  }

  lemma SameEndsKeepSchedule(s: Store, s': Store)
    requires ScheduleOk(s) && SameEnds(s, s')
    ensures ScheduleOk(s')
  {
    forall m ensures ScheduledAt(s'.infos, s'.schedule, m) {
      assert ScheduledAt(s.infos, s.schedule, m);
    }
  }

  lemma PutKeepsEnds(s: Store, m: MarketId, o: Report, info: OutcomeInfo)
    requires m in s.infos
    ensures SameEnds(s, PutOutcome(s, m, o, info))
  {}

  lemma AddOutcomeKeepsEnds(s: Store, who: Account, m: MarketId, o: Report)
    requires AddVoteOutcome(s, who, m, o).Ok?
    ensures SameEnds(s, AddVoteOutcome(s, who, m, o).value)
  {
    var fee := s.cfg.outcomeFee;
    PutKeepsEnds(s.(free := Transfer(s.free, s.frozen, who, RewardPot(m), fee).value), m, o,
                 OutcomeInfo(fee, Paid(who, fee)));
  }

  lemma VoteKeepsEnds(s: Store, voter: Account, m: MarketId, o: Report, amount: Balance)
    requires VoteOnOutcome(s, voter, m, o, amount).Ok?
    ensures SameEnds(s, VoteOnOutcome(s, voter, m, o, amount).value)
  {
    var info := OutcomesOf(s.outcomes, m)[o];
    PutKeepsEnds(s, m, o, OutcomeInfo(info.sum + amount, info.possession));
  }

  lemma PurgeKeepsEnds(s: Store, m: MarketId, order: seq<Report>)
    requires PurgeOutcomes(s, m, order).Ok?
    ensures SameEnds(s, PurgeOutcomes(s, m, order).value)
  {}

  lemma OtherStepKeepsEnds(s: Store, step: Step)
    requires !step.Start? && !step.Destroy? && !step.SetSchedule?
    ensures SameEnds(s, Apply(s, step))
  {
    if Outside(step) {
      OutsideFrame(s, step);
    } else if Try(s, step).Ok? {
      match step
      case AddOutcome(who, m, o) => AddOutcomeKeepsEnds(s, who, m, o);
      case Vote(who, m, o, amount) => VoteKeepsEnds(s, who, m, o, amount);
      case Purge(m, order) => PurgeKeepsEnds(s, m, order);
      case _ =>
    }
  }

  lemma StepKeepsSchedule(s: Store, step: Step)
    requires ScheduleOk(s) && Timely(s, step)
    ensures ScheduleOk(Apply(s, step))
  {
    if step.Start? {
      if Try(s, step).Ok? { StartKeepsSchedule(s, step.market, step.items); }
    } else if step.Destroy? {
      if Try(s, step).Ok? { DestroyUnschedules(s, step.market); }
    } else if step.SetSchedule? {
      forall m ensures ScheduledAt(s.infos, step.schedule, m) {
        assert ScheduledAt(s.infos, s.schedule, m);
      }
    } else {
      OtherStepKeepsEnds(s, step);
      SameEndsKeepSchedule(s, Apply(s, step));
    }
  }

  ghost predicate TimelyRun(s: Store, steps: seq<Step>, n: nat)
    requires n <= |steps|
  {
    n == 0 || (TimelyRun(s, steps, n - 1) && Timely(Run(s, steps, n - 1), steps[n - 1]))
  }

  /** Over any timely run every active dispute is scheduled exactly once, at the end of its voting. */
  lemma {:induction false} ActiveDisputesAreScheduled(s: Store, steps: seq<Step>, n: nat)
    requires ScheduleOk(s) && n <= |steps| && TimelyRun(s, steps, n)
    ensures ScheduleOk(Run(s, steps, n))
  {
    if n > 0 {
      ActiveDisputesAreScheduled(s, steps, n - 1);
      StepKeepsSchedule(Run(s, steps, n - 1), steps[n - 1]);
    }
  }

  lemma GenesisIsScheduled(cfg: Config, free: Free, markets: map<MarketId, C.Market>)
    ensures ScheduleOk(Genesis(cfg, free, markets))
  {}
}
