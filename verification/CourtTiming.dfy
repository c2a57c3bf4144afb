/** Phases of a round, rounds of a court, and the auto-resolve schedule. */
module CourtTiming {
  import opened CourtTypes
  import opened Selection
  import opened AutoResolve
  import opened CourtMachine
  import opened CourtFrames

  /** A round runs through its phases for the configured number of blocks each. */
  predicate RoundOk(cfg: Config, t: RoundTiming) {
    t == RoundFrom(cfg, t.preVote)
  }

  predicate TimingOk(s: Store) {
    && s.cfg.Sound()
    && s.now < s.requestBlock
    && forall c :: c in s.courts ==> c < s.nextCourtId && RoundOk(s.cfg, s.courts[c].roundEnds)
  }

  /** The blocks between the start of voting and the end of appeals are divided among voting (or denouncing),
      revealing and appealing, in this order and for the configured number of blocks: no block allows two of them, every
      block strictly between allows one, and no block outside allows any. */
  lemma WindowsAreDisjoint(s: Store, c: CourtId, b: Block)
    requires TimingOk(s) && c in s.courts
    ensures var t := s.courts[c].roundEnds;
            && !(InVotePeriod(t, b) && InAggregationPeriod(t, b))
            && !(InVotePeriod(t, b) && InAppealPeriod(t, b))
            && !(InAggregationPeriod(t, b) && InAppealPeriod(t, b))
            && (t.preVote < b < t.appeal ==> InVotePeriod(t, b) || InAggregationPeriod(t, b) || InAppealPeriod(t, b))
            && (b <= t.preVote || b > t.appeal ==>
                  !InVotePeriod(t, b) && !InAggregationPeriod(t, b) && !InAppealPeriod(t, b))
            && t.vote - t.preVote == s.cfg.votePeriod && t.aggregation - t.vote == s.cfg.aggregationPeriod
            && t.appeal - t.aggregation == s.cfg.appealPeriod
  {
    assert RoundOk(s.cfg, s.courts[c].roundEnds);
  }

  // ---------- rounds move forward ----------

  /** From one moment to a later one a court keeps its round or has one that starts after appeals against the old
      one began and ends strictly later; every appeal but the last possible one has started a new round. */
  predicate Later(cfg: Config, old': Court, new': Court) {
    && |old'.appeals| <= |new'.appeals|
    && (new'.roundEnds == old'.roundEnds ||
          (old'.roundEnds.aggregation < new'.roundEnds.preVote && old'.roundEnds.appeal < new'.roundEnds.appeal))
    && (|old'.appeals| < |new'.appeals| && |old'.appeals| + 1 < cfg.maxAppeals ==> new'.roundEnds != old'.roundEnds)
  }

  /** Court identifiers are never reused, and courts that remain have only moved on. */
  predicate Onward(s: Store, s': Store) {
    && s'.nextCourtId >= s.nextCourtId
    && forall c :: c in s'.courts && c < s.nextCourtId ==> c in s.courts && Later(s.cfg, s.courts[c], s'.courts[c])
  }

  lemma LaterIsTransitive(cfg: Config, a: Court, b: Court, c: Court)
    requires RoundOk(cfg, b.roundEnds) && Later(cfg, a, b) && Later(cfg, b, c)
    ensures Later(cfg, a, c)
  {}

  lemma OnwardIsTransitive(a: Store, b: Store, c: Store)
    requires a.cfg == b.cfg && TimingOk(b) && Onward(a, b) && Onward(b, c)
    ensures Onward(a, c)
  {
    forall k | k in c.courts && k < a.nextCourtId ensures k in a.courts && Later(a.cfg, a.courts[k], c.courts[k]) {
      LaterIsTransitive(a.cfg, a.courts[k], b.courts[k], c.courts[k]);
    }
  }

  lemma ReplacedMovesOn(s: Store, s': Store, c: CourtId, court: Court)
    requires TimingOk(s) && c in s.courts && Later(s.cfg, s.courts[c], court) && RoundOk(s.cfg, court.roundEnds)
    requires s'.courts == s.courts[c := court] && s'.nextCourtId == s.nextCourtId && SameClock(s, s')
    ensures TimingOk(s') && Onward(s, s')
  {}

  lemma AppealMovesOn(s: Store, who: AccountId, c: CourtId, rng: Rng)
    requires TimingOk(s) && AppealCourt(s, who, c, rng).Ok?
    ensures TimingOk(AppealCourt(s, who, c, rng).value) && Onward(s, AppealCourt(s, who, c, rng).value)
  {
    AppealFrame(s, who, c, rng);
    assert RoundOk(s.cfg, s.courts[c].roundEnds);
    ReplacedMovesOn(s, AppealCourt(s, who, c, rng).value, c, AfterAppeal(s, Appealed(s, who, c)));
  }

  lemma OpenedMovesOn(s: Store, s': Store)
    requires TimingOk(s) && s'.courts == s.courts[s.nextCourtId := NewCourt(s.cfg, s.requestBlock)]
    requires s'.nextCourtId == s.nextCourtId + 1 && SameClock(s, s')
    ensures TimingOk(s') && Onward(s, s')
  {}

  lemma ClosedMovesOn(s: Store, s': Store)
    requires TimingOk(s) && ClosesOnly(s, s')
    ensures TimingOk(s') && Onward(s, s')
  {}

  lemma StepMovesOn(s: Store, step: Step)
    requires TimingOk(s)
    ensures TimingOk(Apply(s, step)) && Onward(s, Apply(s, step))
  {
    if Quiet(step) {
      QuietStepFrame(s, step);
    } else if Closing(step) {
      ClosingFrame(s, step);
      ClosedMovesOn(s, Apply(s, step));
    } else if Try(s, step).Ok? {
      match step
      case AppealTo(who, c, rng) => AppealMovesOn(s, who, c, rng);
      case Dispute(m, rng) =>
        DisputeFrame(s, m, rng);
        OpenedMovesOn(s, Apply(s, step));
    }
  }

  /** Over any run: the request block stays ahead of the clock, and rounds only move forward. */
  lemma {:induction false} RoundsMoveForward(s: Store, steps: seq<Step>, i: nat, j: nat)
    requires TimingOk(s) && i <= j <= |steps|
    ensures TimingOk(Run(s, steps, j)) && Onward(Run(s, steps, i), Run(s, steps, j))
    decreases j
  {
    if i < j {
      RoundsMoveForward(s, steps, i, j - 1);
      StepMovesOn(Run(s, steps, j - 1), steps[j - 1]);
      OnwardIsTransitive(Run(s, steps, i), Run(s, steps, j - 1), Run(s, steps, j));
    } else if j > 0 {
      RoundsMoveForward(s, steps, j - 1, j - 1);
      StepMovesOn(Run(s, steps, j - 1), steps[j - 1]);
    }
  }

  lemma GenesisIsOnTime(cfg: Config, free: map<AccountId, Balance>, markets: map<MarketId, Market>, issuance: Balance)
    requires cfg.Sound()
    ensures TimingOk(Genesis(cfg, free, markets, issuance))
  {}

  // ---------- the auto-resolve schedule ----------

  /** Each open court belongs to one market, which is scheduled once, at the end of the court's current round,
      until the last possible appeal takes it off the schedule. */
  ghost predicate ScheduleOk(s: Store) {
    && (forall c :: c in s.courts && s.courts[c].status.Open? ==>
          c in s.marketOf && s.marketOf[c] in s.courtOf && s.courtOf[s.marketOf[c]] == c)
    && (forall c :: c in s.courts && s.courts[c].status.Open? && c in s.marketOf ==>
          CourtScheduled(s.cfg, s.schedule, s.courts[c], s.marketOf[c]))
  }

  ghost predicate CourtScheduled(cfg: Config, schedule: Schedule, court: Court, m: MarketId) {
    if |court.appeals| < cfg.maxAppeals then OnceAt(schedule, m, court.roundEnds.appeal) else NotScheduled(schedule, m)
  }

  /** An appeal moves the market from the old resolution block to the new one. */
  lemma RescheduleMoves(s: Store, c: CourtId, m: MarketId, last: Block, next: Block)
    requires c in s.marketOf && s.marketOf[c] == m && OnceAt(s.schedule, m, last) && next != last
    requires Reschedule(s, c, last, next).Ok?
    ensures var schedule := Reschedule(s, c, last, next).value;
            OnceAt(schedule, m, next) && OthersStay(s.schedule, schedule, m)
  {
    MoveEntry(s.cfg.cacheSize, s.schedule, m, last, next);
  }

  /** The last possible appeal takes the market off the schedule. */
  lemma UnscheduleRemoves(s: Store, c: CourtId, m: MarketId, last: Block)
    requires c in s.marketOf && s.marketOf[c] == m && OnceAt(s.schedule, m, last)
    ensures var schedule := Unschedule(s, c, last);
            NotScheduled(schedule, m) && OthersStay(s.schedule, schedule, m)
  {
    RemoveUnschedules(s.schedule, m, last);
  }

  /** Disputes are raised for markets that are not scheduled and have no open court; only open courts are appealed. */
  ghost predicate Timely(s: Store, step: Step) {
    match step
    case Dispute(m, _) =>
      && NotScheduled(s.schedule, m)
      && (m in s.courtOf && s.courtOf[m] in s.courts ==> !s.courts[s.courtOf[m]].status.Open?)
    case AppealTo(_, c, _) => c in s.courts ==> s.courts[c].status.Open?
    case _ => true
  }

  /** One open court and its market's entries change together; everything else stays. */
  lemma ReplacedKeepsSchedule(s: Store, s': Store, c: CourtId, court: Court, m: MarketId)
    requires ScheduleOk(s) && c in s.courts && s.courts[c].status.Open? && s.marketOf[c] == m && court.status.Open?
    requires s'.cfg == s.cfg && s'.courts == s.courts[c := court] && s'.courtOf == s.courtOf
             && s'.marketOf == s.marketOf
    requires CourtScheduled(s.cfg, s'.schedule, court, m)
    requires OthersStay(s.schedule, s'.schedule, m)
    ensures ScheduleOk(s')
  {
    forall k | k in s'.courts && s'.courts[k].status.Open? && k in s'.marketOf
      ensures CourtScheduled(s'.cfg, s'.schedule, s'.courts[k], s'.marketOf[k])
    {
      if k != c {
        assert s.marketOf[k] != m;
        assert CourtScheduled(s.cfg, s.schedule, s.courts[k], s.marketOf[k]);
      }
    }
  }

  lemma AppealKeepsSchedule(s: Store, who: AccountId, c: CourtId, rng: Rng)
    requires TimingOk(s) && ScheduleOk(s) && AppealCourt(s, who, c, rng).Ok?
    requires s.courts[c].status.Open?
    ensures ScheduleOk(AppealCourt(s, who, c, rng).value)
  {
    AppealFrame(s, who, c, rng);
    var appealed, m := Appealed(s, who, c), s.marketOf[c];
    var court := AfterAppeal(s, appealed);
    assert RoundOk(s.cfg, s.courts[c].roundEnds);
    if |appealed.appeals| < s.cfg.maxAppeals {
      RescheduleMoves(s, c, m, appealed.roundEnds.appeal, court.roundEnds.appeal);
    } else {
      UnscheduleRemoves(s, c, m, appealed.roundEnds.appeal);
    }
    ReplacedKeepsSchedule(s, AppealCourt(s, who, c, rng).value, c, court, m);
  }

  lemma OpenedKeepsSchedule(s: Store, s': Store, m: MarketId, court: Court)
    requires TimingOk(s) && ScheduleOk(s) && NotScheduled(s.schedule, m)
    requires m in s.courtOf && s.courtOf[m] in s.courts ==> !s.courts[s.courtOf[m]].status.Open?
    requires s'.cfg == s.cfg && s'.courts == s.courts[s.nextCourtId := court] && |court.appeals| == 0
    requires s'.courtOf == s.courtOf[m := s.nextCourtId] && s'.marketOf == s.marketOf[s.nextCourtId := m]
    requires OnceAt(s'.schedule, m, court.roundEnds.appeal)
    requires OthersStay(s.schedule, s'.schedule, m)
    ensures ScheduleOk(s')
  {
    assert s.nextCourtId !in s.courts;
    forall k | k in s.courts && s.courts[k].status.Open? ensures s.marketOf[k] != m {}
    forall k | k in s'.courts && s'.courts[k].status.Open? && k in s'.marketOf
      ensures CourtScheduled(s'.cfg, s'.schedule, s'.courts[k], s'.marketOf[k])
    {
      if k != s.nextCourtId {
        assert CourtScheduled(s.cfg, s.schedule, s.courts[k], s.marketOf[k]);
      }
    }
  }

  lemma DisputeKeepsSchedule(s: Store, m: MarketId, rng: Rng)
    requires TimingOk(s) && ScheduleOk(s) && Timely(s, Dispute(m, rng)) && OnDispute(s, m, rng).Ok?
    ensures ScheduleOk(OnDispute(s, m, rng).value)
  {
    DisputeFrame(s, m, rng);
    var court := NewCourt(s.cfg, s.requestBlock);
    AddSchedulesOnce(s.cfg.cacheSize, s.schedule, m, court.roundEnds.appeal);
    OpenedKeepsSchedule(s, OnDispute(s, m, rng).value, m, court);
  }

  lemma StepKeepsSchedule(s: Store, step: Step)
    requires TimingOk(s) && ScheduleOk(s) && Timely(s, step)
    ensures ScheduleOk(Apply(s, step))
  {
    if Quiet(step) {
      QuietStepFrame(s, step);
      ConfigIsConstant(s, step);
    } else if Closing(step) {
      ClosingFrame(s, step);
    } else if Try(s, step).Ok? {
      match step
      case AppealTo(who, c, rng) => AppealKeepsSchedule(s, who, c, rng);
      case Dispute(m, rng) => DisputeKeepsSchedule(s, m, rng);
    }
  }

  ghost predicate TimelyRun(s: Store, steps: seq<Step>, n: nat)
    requires s.cfg.minJurorStake > 0 && n <= |steps|
  {
    n == 0 || (TimelyRun(s, steps, n - 1) && Timely(Run(s, steps, n - 1), steps[n - 1]))
  }

  /** In every timely run an open court's market is scheduled exactly once, at the end of the current round, and
      not at all after the last possible appeal. */
  lemma {:induction false} ScheduleFollowsRounds(s: Store, steps: seq<Step>, n: nat)
    requires TimingOk(s) && ScheduleOk(s) && n <= |steps| && TimelyRun(s, steps, n)
    ensures ScheduleOk(Run(s, steps, n))
  {
    if n > 0 {
      ScheduleFollowsRounds(s, steps, n - 1);
      RoundsMoveForward(s, steps, n - 1, n - 1);
      StepKeepsSchedule(Run(s, steps, n - 1), steps[n - 1]);
    }
  }

  lemma GenesisIsScheduled(cfg: Config, free: map<AccountId, Balance>, markets: map<MarketId, Market>,
                           issuance: Balance)
    ensures ScheduleOk(Genesis(cfg, free, markets, issuance))
  {}
}
