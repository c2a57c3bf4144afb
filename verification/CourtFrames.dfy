/** Which parts of the storage each kind of step leaves alone. */
module CourtFrames {
  import opened Collections
  import opened CourtTypes
  import opened JurorPool
  import opened Selection
  import opened CourtMachine

  /** Steps of participants, votes, blocks and other pallets. */
  predicate Quiet(step: Step) {
    !(step.AppealTo? || step.ReassignStakes? || step.Dispute? || step.Resolve? || step.GlobalDispute?
      || step.ClearCourt?)
  }

  predicate SameCourts(s: Store, s': Store) {
    && s'.courts == s.courts && s'.nextCourtId == s.nextCourtId
    && s'.courtOf == s.courtOf && s'.marketOf == s.marketOf && s'.schedule == s.schedule
  }

  ghost predicate SameClock(s: Store, s': Store) {
    s'.cfg == s.cfg && s'.now == s.now && s'.requestBlock == s.requestBlock
  }

  /** Voting, denouncing and revealing change one vote of one draw. */
  lemma CastFrame(s: Store, who: AccountId, c: CourtId, commitment: Digest)
    requires CastVote(s, who, c, commitment).Ok?
    ensures FindDraw(DrawsOf(s, c), who).Some?
    ensures c in s.courts && InVotePeriod(s.courts[c].roundEnds, s.now)
    ensures CastVote(s, who, c, commitment).value ==
            SetVote(s, c, FindDraw(DrawsOf(s, c), who).value, Secret(commitment))
    ensures var v := DrawsOf(s, c)[FindDraw(DrawsOf(s, c), who).value].vote; v.Drawn? || v.Secret?
  {}

  lemma DenounceFrame(s: Store, who: AccountId, c: CourtId, juror: AccountId, item: VoteItem, salt: Digest)
    requires DenounceVote(s, who, c, juror, item, salt).Ok?
    ensures c in s.courts && InVotePeriod(s.courts[c].roundEnds, s.now)
    ensures FindDraw(DrawsOf(s, c), juror).Some?
    ensures var i := FindDraw(DrawsOf(s, c), juror).value;
            var v := DrawsOf(s, c)[i].vote;
            && v.Secret? && v.commitment == s.cfg.hash(juror, item, salt)
            && DenounceVote(s, who, c, juror, item, salt).value == SetVote(s, c, i, Denounced(v.commitment, item, salt))
  {}

  lemma RevealFrame(s: Store, who: AccountId, c: CourtId, item: VoteItem, salt: Digest)
    requires RevealVote(s, who, c, item, salt).Ok?
    ensures c in s.courts && InAggregationPeriod(s.courts[c].roundEnds, s.now)
    ensures FindDraw(DrawsOf(s, c), who).Some?
    ensures var i := FindDraw(DrawsOf(s, c), who).value;
            var v := DrawsOf(s, c)[i].vote;
            && v.Secret? && v.commitment == s.cfg.hash(who, item, salt)
            && RevealVote(s, who, c, item, salt).value == SetVote(s, c, i, Revealed(v.commitment, item, salt))
  {}

  predicate Votes(step: Step) {
    step.Cast? || step.Denounce? || step.Reveal?
  }

  /** The change of one vote that each voting call may make. */
  predicate Opens(cfg: Config, step: Step, who: AccountId, was: Vote, v: Vote)
    requires Votes(step)
  {
    match step
    case Cast(_, _, commitment) => v == Secret(commitment) && (was.Drawn? || was.Secret?)
    case Denounce(_, _, _, item, salt) =>
      was.Secret? && was.commitment == cfg.hash(who, item, salt) && v == Denounced(was.commitment, item, salt)
    case Reveal(_, _, item, salt) =>
      was.Secret? && was.commitment == cfg.hash(who, item, salt) && v == Revealed(was.commitment, item, salt)
  }

  lemma VoteStepFrame(s: Store, step: Step) returns (i: nat, v: Vote)
    requires s.cfg.minJurorStake > 0 && Votes(step) && Try(s, step).Ok?
    ensures step.court in s.courts && i < |DrawsOf(s, step.court)|
    ensures Apply(s, step) == SetVote(s, step.court, i, v)
    ensures var d := DrawsOf(s, step.court)[i];
            && d.who == (if step.Denounce? then step.juror else step.who)
            && Opens(s.cfg, step, d.who, d.vote, v)
    ensures var t := s.courts[step.court].roundEnds;
            if step.Reveal? then InAggregationPeriod(t, s.now) else InVotePeriod(t, s.now)
  {
    match step
    case Cast(who, c, commitment) =>
      CastFrame(s, who, c, commitment);
      i, v := FindDraw(DrawsOf(s, c), who).value, Secret(commitment);
    case Denounce(who, c, juror, item, salt) =>
      DenounceFrame(s, who, c, juror, item, salt);
      i := FindDraw(DrawsOf(s, c), juror).value;
      v := Denounced(DrawsOf(s, c)[i].vote.commitment, item, salt);
    case Reveal(who, c, item, salt) =>
      RevealFrame(s, who, c, item, salt);
      i := FindDraw(DrawsOf(s, c), who).value;
      v := Revealed(DrawsOf(s, c)[i].vote.commitment, item, salt);
  }

  predicate Membership(step: Step) {
    step.Join? || step.JoinAsDelegator? || step.PrepareExit? || step.Exit?
  }

  lemma MembershipFrame(s: Store, step: Step)
    requires s.cfg.minJurorStake > 0 && Membership(step)
    ensures Apply(s, step) == s.(reg := Apply(s, step).reg)
  {
    match step
    case Join(who, amount) =>
      WithRegistryFrame(s, DoJoinCourt(s.cfg, s.reg, who, amount, None, GetOr(s.free, who), s.now));
    case JoinAsDelegator(who, amount, ds) =>
      WithRegistryFrame(s, DoDelegate(s.cfg, s.reg, who, amount, ds, GetOr(s.free, who), s.now));
    case PrepareExit(who) => WithRegistryFrame(s, DoPrepareExit(s.reg, who, s.now));
    case Exit(who) => WithRegistryFrame(s, DoExit(s.cfg, s.reg, who, s.now));
  }

  lemma WithRegistryFrame(s: Store, r: Result<Registry>)
    ensures WithRegistry(s, r).Ok? ==> WithRegistry(s, r).value == s.(reg := WithRegistry(s, r).value.reg)
  {}

  lemma VoteFrame(s: Store, step: Step)
    requires s.cfg.minJurorStake > 0 && Votes(step)
    ensures Apply(s, step) == s.(draws := Apply(s, step).draws)
  {
    if Try(s, step).Ok? {
      var _, _ := VoteStepFrame(s, step);
    }
  }

  lemma BlockFrame(s: Store, step: Step)
    requires s.cfg.minJurorStake > 0 && Quiet(step) && !Votes(step) && !Membership(step)
    ensures SameCourts(s, Apply(s, step))
    ensures !step.NextBlock? ==> SameClock(s, Apply(s, step))
  {}

  lemma QuietStepFrame(s: Store, step: Step)
    requires s.cfg.minJurorStake > 0 && Quiet(step)
    ensures SameCourts(s, Apply(s, step))
    ensures !step.NextBlock? ==> SameClock(s, Apply(s, step))
  {
    if Votes(step) {
      VoteFrame(s, step);
    } else if Membership(step) {
      MembershipFrame(s, step);
    } else {
      BlockFrame(s, step);
    }
  }

  lemma StartRoundFrame(s: Store, c: CourtId, appealed: Court, rng: Rng)
    requires s.cfg.minJurorStake > 0 && StartRound(s, c, appealed, rng).Ok?
    ensures var s' := StartRound(s, c, appealed, rng).value;
            var round := RoundFrom(s.cfg, s.requestBlock);
            && s'.courts == s.courts[c := appealed.(roundEnds := round)]
            && s'.nextCourtId == s.nextCourtId && s'.courtOf == s.courtOf && s'.marketOf == s.marketOf
            && Reschedule(s, c, appealed.roundEnds.appeal, round.appeal) == Ok(s'.schedule)
            && SameClock(s, s')
  {}

  /** The court after an appeal. */
  function AfterAppeal(s: Store, appealed: Court): Court {
    if |appealed.appeals| < s.cfg.maxAppeals then appealed.(roundEnds := RoundFrom(s.cfg, s.requestBlock)) else appealed
  }

  lemma AppealFrame(s: Store, who: AccountId, c: CourtId, rng: Rng)
    requires s.cfg.minJurorStake > 0 && AppealCourt(s, who, c, rng).Ok?
    ensures CheckAppeal(s, who, c).None?
    ensures var s' := AppealCourt(s, who, c, rng).value;
            var appealed := Appealed(s, who, c);
            var court := AfterAppeal(s, appealed);
            && s'.courts == s.courts[c := court]
            && s'.nextCourtId == s.nextCourtId && s'.courtOf == s.courtOf && s'.marketOf == s.marketOf
            && (if |appealed.appeals| < s.cfg.maxAppeals then
                  Reschedule(s, c, appealed.roundEnds.appeal, court.roundEnds.appeal) == Ok(s'.schedule)
                else s'.schedule == Unschedule(s, c, appealed.roundEnds.appeal))
            && SameClock(s, s')
  {
    var appealed := Appealed(s, who, c);
    if |appealed.appeals| < s.cfg.maxAppeals {
      StartRoundFrame(s, c, appealed, rng);
    }
  }

  lemma DisputeFrame(s: Store, m: MarketId, rng: Rng)
    requires s.cfg.minJurorStake > 0 && OnDispute(s, m, rng).Ok?
    ensures var s' := OnDispute(s, m, rng).value;
            var court := NewCourt(s.cfg, s.requestBlock);
            && s'.courts == s.courts[s.nextCourtId := court]
            && s'.nextCourtId == s.nextCourtId + 1
            && s'.courtOf == s.courtOf[m := s.nextCourtId] && s'.marketOf == s.marketOf[s.nextCourtId := m]
            && AddAutoResolve(s.cfg, s.schedule, m, court.roundEnds.appeal) == Ok(s'.schedule)
            && SameClock(s, s')
  {}

  /** Closing steps only change the status of a court or take the court away. */
  predicate Closing(step: Step) {
    step.ReassignStakes? || step.Resolve? || step.GlobalDispute? || step.ClearCourt?
  }

  predicate SameButStatus(courts: map<CourtId, Court>, courts': map<CourtId, Court>) {
    forall c :: c in courts' ==>
      && c in courts
      && courts'[c] == courts[c].(status := courts'[c].status)
      && (courts'[c].status.Open? ==> courts[c].status.Open?)
  }

  ghost predicate ClosesOnly(s: Store, s': Store) {
    && s'.nextCourtId == s.nextCourtId && s'.courtOf == s.courtOf && s'.marketOf == s.marketOf
    && s'.schedule == s.schedule && s'.reserved == s.reserved && SameClock(s, s')
    && SameButStatus(s.courts, s'.courts)
  }

  lemma DropFrame(s: Store, c: CourtId)
    ensures ClosesOnly(s, DropCourt(s, c))
  {}

  lemma ResolveFrame(s: Store, m: MarketId)
    requires OnResolution(s, m).Ok?
    ensures ClosesOnly(s, OnResolution(s, m).value)
  {}

  lemma ReassignFrame(s: Store, c: CourtId)
    requires ReassignCourtStakes(s, c).Ok?
    ensures ClosesOnly(s, ReassignCourtStakes(s, c).value)
  {}

  lemma ClosingFrame(s: Store, step: Step)
    requires s.cfg.minJurorStake > 0 && Closing(step)
    ensures ClosesOnly(s, Apply(s, step))
  {
    if Try(s, step).Ok? {
      match step
      case ReassignStakes(c) => ReassignFrame(s, c);
      case Resolve(m) => ResolveFrame(s, m);
      case GlobalDispute(m) => if m in s.courtOf { DropFrame(s, s.courtOf[m]); }
      case ClearCourt(m) => DropFrame(s, s.courtOf[m]);
    }
  }

  // ---------- draws ----------

  /** Steps that neither vote nor draw nor close leave all draws alone. */
  lemma QuietDraws(s: Store, step: Step)
    requires s.cfg.minJurorStake > 0 && Quiet(step) && !Votes(step)
    ensures Apply(s, step).draws == s.draws
  {
    if Membership(step) {
      MembershipFrame(s, step);
    }
  }

  lemma ClosingDraws(s: Store, step: Step)
    requires s.cfg.minJurorStake > 0 && Closing(step)
    ensures forall c :: c in Apply(s, step).draws ==> c in s.draws && Apply(s, step).draws[c] == s.draws[c]
  {}

  /** A successful dispute or an appeal below the last one draws anew for this court. */
  predicate Redraws(s: Store, step: Step, c: CourtId)
    requires s.cfg.minJurorStake > 0
  {
    Try(s, step).Ok? &&
    match step
    case Dispute(_, _) => c == s.nextCourtId
    case AppealTo(_, k, _) => c == k && k in s.courts && |s.courts[k].appeals| + 1 < s.cfg.maxAppeals
    case _ => false
  }

  lemma StartRoundDraws(s: Store, c: CourtId, appealed: Court, rng: Rng)
    requires s.cfg.minJurorStake > 0 && StartRound(s, c, appealed, rng).Ok?
    ensures SelectParticipants(s.cfg, s.reg, |appealed.appeals|, rng).Ok?
    ensures StartRound(s, c, appealed, rng).value.draws ==
            s.draws[c := SelectParticipants(s.cfg, s.reg, |appealed.appeals|, rng).value.draws]
  {}

  lemma AppealDraws(s: Store, who: AccountId, c: CourtId, rng: Rng)
    requires s.cfg.minJurorStake > 0 && AppealCourt(s, who, c, rng).Ok?
    ensures var s' := AppealCourt(s, who, c, rng).value;
            if |s.courts[c].appeals| + 1 < s.cfg.maxAppeals then
              && SelectParticipants(s.cfg, s.reg, |s.courts[c].appeals| + 1, rng).Ok?
              && s'.draws == s.draws[c := SelectParticipants(s.cfg, s.reg, |s.courts[c].appeals| + 1, rng).value.draws]
            else s'.draws == s.draws
  {
    var appealed := Appealed(s, who, c);
    assert Advance(s, c, appealed, rng).Ok?;
    if |appealed.appeals| < s.cfg.maxAppeals {
      StartRoundDraws(s, c, appealed, rng);
    }
  }

  lemma DisputeDraws(s: Store, m: MarketId, rng: Rng)
    requires s.cfg.minJurorStake > 0 && OnDispute(s, m, rng).Ok?
    ensures SelectParticipants(s.cfg, s.reg, 0, rng).Ok?
    ensures OnDispute(s, m, rng).value.draws ==
            s.draws[s.nextCourtId := SelectParticipants(s.cfg, s.reg, 0, rng).value.draws]
  {}
}
