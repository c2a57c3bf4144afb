/** An account's active lock is exactly what open courts can slash from it. */
module CourtLocks {
  import opened Collections
  import opened AutoResolve
  import opened CourtTypes
  import opened JurorPool
  import opened Selection
  import opened DrawTheorem
  import opened Reassignment
  import opened CourtMachine
  import opened CourtFrames
  import opened CourtSafety
  import opened StrandedDelegators

  predicate IsOpen(s: Store, c: CourtId) {
    c in s.courts && s.courts[c].status.Open?
  }

  /** What each open court can slash from an account. */
  function OpenTable(s: Store, a: AccountId): map<CourtId, nat> {
    map c | c in s.courts && s.courts[c].status.Open? :: SlashableOf(DrawsOf(s, c), a)
  }

  ghost function OpenSlashable(s: Store, a: AccountId): nat {
    MapSum(OpenTable(s, a))
  }

  ghost predicate Exact(s: Store) {
    && s.draws.Keys <= s.courts.Keys
    && forall a :: Lock(s.reg.participants, a) == OpenSlashable(s, a)
  }

  // ---------- single draws ----------

  lemma {:induction false} SetVoteKeepsSlashable(draws: seq<Draw>, i: nat, v: Vote, a: AccountId)
    requires i < |draws|
    ensures SlashableOf(draws[i := draws[i].(vote := v)], a) == SlashableOf(draws, a)
  {
    var draws' := draws[i := draws[i].(vote := v)];
    if i == 0 {
      assert draws'[1..] == draws[1..];
    } else {
      SetVoteKeepsSlashable(draws[1..], i - 1, v, a);
      assert draws'[1..] == draws[1..][i - 1 := draws[1..][i - 1].(vote := v)];
    }
  }

  lemma UnregisteredIsNotDrawn(draws: seq<Draw>, participants: map<AccountId, Participant>, a: AccountId)
    requires forall i :: 0 <= i < |draws| ==> draws[i].who in participants
    ensures a !in participants ==> SlashableOf(draws, a) == 0
  {
    if a !in participants {
      SlashableOfAbsent(draws, a);
    }
  }

  /** A draw without lost sections adds to every lock exactly the slashable amount. */
  lemma ChoiceLocks(cfg: Config, reg: Registry, weight: nat, c: Choice, a: AccountId)
    requires ChoiceOk(cfg, reg, weight, c) && c.lost == 0
    ensures Lock(c.reg.participants, a) == Lock(reg.participants, a) + SlashableOf(c.draws, a)
  {
    UnregisteredIsNotDrawn(c.draws, c.reg.participants, a);
  }

  // ---------- the table of open courts ----------

  lemma TableBound(s: Store, c: CourtId, a: AccountId)
    requires IsOpen(s, c)
    ensures SlashableOf(DrawsOf(s, c), a) <= OpenSlashable(s, a)
  {
    MapSumSplit(OpenTable(s, a), c);
  }

  /** Replacing the draws of an open or new court. */
  lemma TableAfterDraws(s: Store, s': Store, c: CourtId, a: AccountId)
    requires s'.courts.Keys == s.courts.Keys + {c} && IsOpen(s', c)
    requires c in s.courts ==> IsOpen(s, c)
    requires forall k :: k in s.courts && k != c ==> s'.courts[k] == s.courts[k] && DrawsOf(s', k) == DrawsOf(s, k)
    ensures OpenSlashable(s', a) ==
            OpenSlashable(s, a) - (if c in s.courts then SlashableOf(DrawsOf(s, c), a) else 0)
              + SlashableOf(DrawsOf(s', c), a)
  {
    TableUpdated(s, s', c, a);
    MapSumUpdate(OpenTable(s, a), c, SlashableOf(DrawsOf(s', c), a));
  }

  lemma TableUpdated(s: Store, s': Store, c: CourtId, a: AccountId)
    requires s'.courts.Keys == s.courts.Keys + {c} && IsOpen(s', c)
    requires c in s.courts ==> IsOpen(s, c)
    requires forall k :: k in s.courts && k != c ==> s'.courts[k] == s.courts[k] && DrawsOf(s', k) == DrawsOf(s, k)
    ensures OpenTable(s', a) == OpenTable(s, a)[c := SlashableOf(DrawsOf(s', c), a)]
    ensures GetOr(OpenTable(s, a), c) == if c in s.courts then SlashableOf(DrawsOf(s, c), a) else 0
  {}

  /** Closing or forgetting an open court. */
  lemma TableAfterClose(s: Store, s': Store, c: CourtId, a: AccountId)
    requires IsOpen(s, c) && !IsOpen(s', c) && s.courts.Keys - {c} <= s'.courts.Keys <= s.courts.Keys
    requires forall k :: k in s.courts && k != c ==> s'.courts[k] == s.courts[k] && DrawsOf(s', k) == DrawsOf(s, k)
    ensures OpenSlashable(s', a) == OpenSlashable(s, a) - SlashableOf(DrawsOf(s, c), a)
  {
    TableShrunk(s, s', c, a);
    MapSumRemove(OpenTable(s, a), c);
  }

  lemma TableShrunk(s: Store, s': Store, c: CourtId, a: AccountId)
    requires IsOpen(s, c) && !IsOpen(s', c) && s.courts.Keys - {c} <= s'.courts.Keys <= s.courts.Keys
    requires forall k :: k in s.courts && k != c ==> s'.courts[k] == s.courts[k] && DrawsOf(s', k) == DrawsOf(s, k)
    ensures OpenTable(s', a) == OpenTable(s, a) - {c}
    ensures GetOr(OpenTable(s, a), c) == SlashableOf(DrawsOf(s, c), a)
  {}

  lemma TableUnchanged(s: Store, s': Store, a: AccountId)
    requires s'.courts.Keys == s.courts.Keys
    requires forall k :: k in s.courts ==> (IsOpen(s', k) <==> IsOpen(s, k))
    requires forall k :: IsOpen(s, k) ==> SlashableOf(DrawsOf(s', k), a) == SlashableOf(DrawsOf(s, k), a)
    ensures OpenSlashable(s', a) == OpenSlashable(s, a)
  {
    assert OpenTable(s', a) == OpenTable(s, a);
  }

  // ---------- steps ----------

  /** The draw for this many appeals hits no stranded delegator. */
  predicate LosesNothing(s: Store, appeals: nat, rng: Rng)
    requires s.cfg.minJurorStake > 0
  {
    Covered(s.cfg, s.reg, NecessaryDrawsWeight(appeals), rng)
  }

  lemma LosesNothingIff(s: Store, appeals: nat, rng: Rng)
    requires StoreOk(s) && appeals < s.cfg.maxAppeals && SelectParticipants(s.cfg, s.reg, appeals, rng).Ok?
    ensures SelectParticipants(s.cfg, s.reg, appeals, rng).value.lost == 0 <==> LosesNothing(s, appeals, rng)
  {
    NothingIsTruncated(s.cfg, s.reg, appeals, rng);
    NothingIsLostIff(s.cfg, s.reg, NecessaryDrawsWeight(appeals), rng);
  }

  /** Nobody has anything to release in the draws of this court and a lock at the same time. */
  predicate Harmless(s: Store, c: CourtId) {
    forall i :: 0 <= i < |DrawsOf(s, c)| ==>
      DrawsOf(s, c)[i].slashable == 0 || Lock(s.reg.participants, DrawsOf(s, c)[i].who) == 0
  }

  /** The locks of this court's draws are released for the first time, or to no effect. */
  predicate ReleasesOnce(s: Store, c: CourtId) {
    IsOpen(s, c) || Harmless(s, c)
  }

  /** For every account the draw for one more appeal takes as much as the old draws release, as far as the lock goes. */
  ghost predicate TradesEvenly(s: Store, c: CourtId, appeals: nat, rng: Rng)
    requires s.cfg.minJurorStake > 0
  {
    forall a :: Minus(Lock(s.reg.participants, a) + DrawnStake(s.cfg, s.reg, NecessaryDrawsWeight(appeals), rng, a),
                      SlashableOf(DrawsOf(s, c), a)) == Lock(s.reg.participants, a)
  }

  /** The draw that an appeal makes fits the court: none after the last appeal, none that hits a stranded delegator
      while the court is open, none that shifts any lock once it is closed. */
  ghost predicate AppealsOrderly(s: Store, c: CourtId, rng: Rng)
    requires s.cfg.minJurorStake > 0 && c in s.courts
  {
    var next := |s.courts[c].appeals| + 1;
    next < s.cfg.maxAppeals ==> if IsOpen(s, c) then LosesNothing(s, next, rng) else TradesEvenly(s, c, next, rng)
  }

  /** Exactly the steps that keep locks exact: a call that fails, or one that draws no stranded delegator, and releases
      the draws of a court once or to no effect. */
  ghost predicate Orderly(s: Store, step: Step)
    requires s.cfg.minJurorStake > 0
  {
    match step
    case Dispute(m, rng) => OnDispute(s, m, rng).Ok? ==> LosesNothing(s, 0, rng)
    case AppealTo(who, c, rng) => AppealCourt(s, who, c, rng).Ok? ==> AppealsOrderly(s, c, rng)
    case Resolve(m) => OnResolution(s, m).Ok? ==> ReleasesOnce(s, s.courtOf[m])
    case GlobalDispute(m) => OnGlobalDispute(s, m).Ok? && m in s.courtOf ==> ReleasesOnce(s, s.courtOf[m])
    case ClearCourt(m) => Clear(s, m).Ok? ==> ReleasesOnce(s, s.courtOf[m])
    case ReassignStakes(c) => ReassignCourtStakes(s, c).Ok? ==> Harmless(s, c)
    case _ => true
  }

  lemma RegistryStepKeepsExact(s: Store, reg: Registry)
    requires Exact(s) && SameLocks(s.reg.participants, reg.participants)
    ensures Exact(s.(reg := reg))
  {
    forall a ensures OpenSlashable(s.(reg := reg), a) == OpenSlashable(s, a) {
      TableUnchanged(s, s.(reg := reg), a);
    }
  }

  lemma JoinKeepsExact(s: Store, who: AccountId, amount: Balance)
    requires Exact(s) && JoinCourt(s, who, amount).Ok?
    ensures Exact(JoinCourt(s, who, amount).value)
  {
    JoinKeepsLocks(s.cfg, s.reg, who, amount, None, GetOr(s.free, who), s.now);
    RegistryStepKeepsExact(s, JoinCourt(s, who, amount).value.reg);
  }

  lemma DelegateKeepsExact(s: Store, who: AccountId, amount: Balance, ds: seq<AccountId>)
    requires Exact(s) && Delegate(s, who, amount, ds).Ok?
    ensures Exact(Delegate(s, who, amount, ds).value)
  {
    DelegateIsJoin(s.cfg, s.reg, who, amount, ds, GetOr(s.free, who), s.now);
    JoinKeepsLocks(s.cfg, s.reg, who, amount, Some(SortedSeq(Elements(ds))), GetOr(s.free, who), s.now);
    RegistryStepKeepsExact(s, Delegate(s, who, amount, ds).value.reg);
  }

  lemma PrepareExitKeepsExact(s: Store, who: AccountId)
    requires Exact(s) && PrepareExitCourt(s, who).Ok?
    ensures Exact(PrepareExitCourt(s, who).value)
  {
    LeavingKeepsLocks(s.cfg, s.reg, who, s.now);
    RegistryStepKeepsExact(s, PrepareExitCourt(s, who).value.reg);
  }

  lemma ExitKeepsExact(s: Store, who: AccountId)
    requires Exact(s) && ExitCourt(s, who).Ok?
    ensures Exact(ExitCourt(s, who).value)
  {
    LeavingKeepsLocks(s.cfg, s.reg, who, s.now);
    RegistryStepKeepsExact(s, ExitCourt(s, who).value.reg);
  }

  lemma MembershipStepKeepsExact(s: Store, step: Step)
    requires StoreOk(s) && Exact(s) && Membership(step)
    ensures Exact(Apply(s, step))
  {
    if Try(s, step).Ok? {
      match step
      case Join(who, amount) => JoinKeepsExact(s, who, amount);
      case JoinAsDelegator(who, amount, ds) => DelegateKeepsExact(s, who, amount, ds);
      case PrepareExit(who) => PrepareExitKeepsExact(s, who);
      case Exit(who) => ExitKeepsExact(s, who);
    }
  }

  lemma SetVoteKeepsExact(s: Store, c: CourtId, i: nat, v: Vote)
    requires Exact(s) && i < |DrawsOf(s, c)|
    ensures Exact(SetVote(s, c, i, v))
  {
    var s' := SetVote(s, c, i, v);
    forall a ensures OpenSlashable(s', a) == OpenSlashable(s, a) {
      SetVoteKeepsSlashable(DrawsOf(s, c), i, v, a);
      TableUnchanged(s, s', a);
    }
  }

  lemma VoteStepKeepsExact(s: Store, step: Step)
    requires StoreOk(s) && Exact(s) && Votes(step)
    ensures Exact(Apply(s, step))
  {
    if Try(s, step).Ok? {
      var i, v := VoteStepFrame(s, step);
      SetVoteKeepsExact(s, step.court, i, v);
    }
  }

  lemma CourtOpenedTable(s: Store, m: MarketId, court: Court, choice: Choice, schedule: Schedule, a: AccountId)
    requires s.nextCourtId !in s.courts && court.status.Open?
    ensures OpenSlashable(CourtOpened(s, m, court, choice, schedule), a) ==
            OpenSlashable(s, a) + SlashableOf(choice.draws, a)
  {
    TableAfterDraws(s, CourtOpened(s, m, court, choice, schedule), s.nextCourtId, a);
  }

  lemma CourtOpenedKeepsExact(s: Store, m: MarketId, court: Court, choice: Choice, weight: nat, schedule: Schedule)
    requires StoreOk(s) && Exact(s) && court.status.Open?
    requires ChoiceOk(s.cfg, s.reg, weight, choice) && choice.lost == 0
    ensures Exact(CourtOpened(s, m, court, choice, schedule))
  {
    var s' := CourtOpened(s, m, court, choice, schedule);
    forall a ensures Lock(s'.reg.participants, a) == OpenSlashable(s', a) {
      ChoiceLocks(s.cfg, s.reg, weight, choice, a);
      CourtOpenedTable(s, m, court, choice, schedule, a);
    }
  }

  /** One account's lock and open slashable amount after a new round. */
  lemma RoundStartedLock(s: Store, c: CourtId, court: Court, choice: Choice, schedule: Schedule, a: AccountId)
    requires IsOpen(s, c) && court.status.Open?
    ensures var s' := RoundStarted(s, c, court, choice, schedule);
            var was := SlashableOf(DrawsOf(s, c), a);
            && Lock(s'.reg.participants, a) == Minus(Lock(choice.reg.participants, a), was)
            && was <= OpenSlashable(s, a)
            && OpenSlashable(s', a) == OpenSlashable(s, a) - was + SlashableOf(choice.draws, a)
  {
    UnlockAllReleases(choice.reg, DrawsOf(s, c), a);
    TableBound(s, c, a);
    TableAfterDraws(s, RoundStarted(s, c, court, choice, schedule), c, a);
  }

  lemma RoundStartedKeepsExact(s: Store, c: CourtId, court: Court, choice: Choice, weight: nat, schedule: Schedule)
    requires StoreOk(s) && Exact(s) && IsOpen(s, c) && court.status.Open?
    requires ChoiceOk(s.cfg, s.reg, weight, choice) && choice.lost == 0
    ensures Exact(RoundStarted(s, c, court, choice, schedule))
  {
    var s' := RoundStarted(s, c, court, choice, schedule);
    forall a ensures Lock(s'.reg.participants, a) == OpenSlashable(s', a) {
      ChoiceLocks(s.cfg, s.reg, weight, choice, a);
      RoundStartedLock(s, c, court, choice, schedule, a);
    }
  }

  /** Unlocking the draws of a court that stops being open. */
  lemma ClosingKeepsExact(s: Store, s': Store, c: CourtId)
    requires StoreOk(s) && Exact(s) && IsOpen(s, c)
    requires s'.reg == UnlockAll(s.reg, DrawsOf(s, c))
    requires !IsOpen(s', c) && s.courts.Keys - {c} <= s'.courts.Keys <= s.courts.Keys
    requires s'.draws.Keys <= s'.courts.Keys
    requires forall k :: k in s.courts && k != c ==> s'.courts[k] == s.courts[k] && DrawsOf(s', k) == DrawsOf(s, k)
    ensures Exact(s')
  {
    forall a ensures Lock(s'.reg.participants, a) == OpenSlashable(s', a) {
      UnlockAllReleases(s.reg, DrawsOf(s, c), a);
      TableBound(s, c, a);
      TableAfterClose(s, s', c, a);
    }
  }

  lemma FinalAppealKeepsExact(s: Store, c: CourtId, appealed: Court)
    requires Exact(s) && c in s.courts && appealed.status == s.courts[c].status
    ensures Exact(FinalAppeal(s, c, appealed))
  {
    var s' := FinalAppeal(s, c, appealed);
    forall a ensures OpenSlashable(s', a) == OpenSlashable(s, a) { TableUnchanged(s, s', a); }
  }

  lemma StartRoundKeepsExact(s: Store, c: CourtId, appealed: Court, rng: Rng)
    requires StoreOk(s) && Exact(s) && IsOpen(s, c) && appealed.status.Open? && |appealed.appeals| < s.cfg.maxAppeals
    requires StartRound(s, c, appealed, rng).Ok? && LosesNothing(s, |appealed.appeals|, rng)
    ensures Exact(StartRound(s, c, appealed, rng).value)
  {
    NothingIsTruncated(s.cfg, s.reg, |appealed.appeals|, rng);
    LosesNothingIff(s, |appealed.appeals|, rng);
    var choice := SelectParticipants(s.cfg, s.reg, |appealed.appeals|, rng).value;
    var round := RoundFrom(s.cfg, s.requestBlock);
    var schedule := Reschedule(s, c, appealed.roundEnds.appeal, round.appeal).value;
    RoundStartedKeepsExact(s, c, appealed.(roundEnds := round), choice, NecessaryDrawsWeight(|appealed.appeals|),
                           schedule);
  }

  lemma OtherFieldsKeepExact(s: Store, s': Store)
    requires Exact(s) && s'.reg == s.reg && s'.courts == s.courts && s'.draws == s.draws
    ensures Exact(s')
  {
    forall a ensures OpenSlashable(s', a) == OpenSlashable(s, a) { TableUnchanged(s, s', a); }
  }

  lemma DisputeKeepsExact(s: Store, m: MarketId, rng: Rng)
    requires StoreOk(s) && Exact(s) && OnDispute(s, m, rng).Ok? && LosesNothing(s, 0, rng)
    ensures Exact(OnDispute(s, m, rng).value)
  {
    NothingIsTruncated(s.cfg, s.reg, 0, rng);
    LosesNothingIff(s, 0, rng);
    var choice := SelectParticipants(s.cfg, s.reg, 0, rng).value;
    var court := NewCourt(s.cfg, s.requestBlock);
    CourtOpenedKeepsExact(s, m, court, choice, NecessaryDrawsWeight(0),
                          AddAutoResolve(s.cfg, s.schedule, m, court.roundEnds.appeal).value);
  }

  lemma BlockStepKeepsExact(s: Store, step: Step)
    requires s.cfg.minJurorStake > 0 && Exact(s) && Quiet(step) && !Membership(step) && !Votes(step)
    ensures Exact(Apply(s, step))
  {
    OtherFieldsKeepExact(s, Apply(s, step));
  }

  lemma GenesisIsExact(cfg: Config, free: Free, markets: map<MarketId, Market>, issuance: Balance)
    ensures Exact(Genesis(cfg, free, markets, issuance))
  {
    var s := Genesis(cfg, free, markets, issuance);
    forall a ensures OpenSlashable(s, a) == 0 { MapSumZero(OpenTable(s, a)); }
  }

  // ---------- where exactness ends ----------

  lemma CourtOpenedExactOnlyIf(s: Store, m: MarketId, court: Court, choice: Choice, weight: nat, schedule: Schedule)
    requires StoreOk(s) && Exact(s) && court.status.Open?
    requires ChoiceOk(s.cfg, s.reg, weight, choice)
    requires Exact(CourtOpened(s, m, court, choice, schedule))
    ensures choice.lost == 0
  {
    assert LocksExact(s.reg.participants, choice.reg.participants, choice.draws) by {
      forall a | a in s.reg.participants && a in choice.reg.participants
        ensures choice.reg.participants[a].activeLock == s.reg.participants[a].activeLock + SlashableOf(choice.draws, a)
      {
        CourtOpenedTable(s, m, court, choice, schedule, a);
        assert Lock(choice.reg.participants, a) == OpenSlashable(CourtOpened(s, m, court, choice, schedule), a);
        assert Lock(s.reg.participants, a) == OpenSlashable(s, a);
      }
    }
  }

  /** Opening a court keeps locks exact iff its draw hits no stranded delegator. */
  lemma DisputeKeepsExactIff(s: Store, m: MarketId, rng: Rng)
    requires StoreOk(s) && Exact(s) && OnDispute(s, m, rng).Ok?
    ensures Exact(OnDispute(s, m, rng).value) <==> LosesNothing(s, 0, rng)
  {
    if LosesNothing(s, 0, rng) {
      DisputeKeepsExact(s, m, rng);
    } else if Exact(OnDispute(s, m, rng).value) {
      NothingIsTruncated(s.cfg, s.reg, 0, rng);
      LosesNothingIff(s, 0, rng);
      var court := NewCourt(s.cfg, s.requestBlock);
      CourtOpenedExactOnlyIf(s, m, court, SelectParticipants(s.cfg, s.reg, 0, rng).value, NecessaryDrawsWeight(0),
                             AddAutoResolve(s.cfg, s.schedule, m, court.roundEnds.appeal).value);
    }
  }

  lemma RoundStartedExactOnlyIf(s: Store, c: CourtId, court: Court, choice: Choice, weight: nat, schedule: Schedule)
    requires StoreOk(s) && Exact(s) && IsOpen(s, c) && court.status.Open?
    requires ChoiceOk(s.cfg, s.reg, weight, choice)
    requires Exact(RoundStarted(s, c, court, choice, schedule))
    ensures choice.lost == 0
  {
    var s' := RoundStarted(s, c, court, choice, schedule);
    assert LocksExact(s.reg.participants, choice.reg.participants, choice.draws) by {
      forall a | a in s.reg.participants && a in choice.reg.participants
        ensures choice.reg.participants[a].activeLock == s.reg.participants[a].activeLock + SlashableOf(choice.draws, a)
      {
        RoundStartedLock(s, c, court, choice, schedule, a);
        assert Lock(s'.reg.participants, a) == OpenSlashable(s', a)
               && Lock(s.reg.participants, a) == OpenSlashable(s, a);
      }
    }
  }

  lemma StartRoundExactOnlyIf(s: Store, c: CourtId, appealed: Court, rng: Rng)
    requires StoreOk(s) && Exact(s) && IsOpen(s, c) && appealed.status.Open? && |appealed.appeals| < s.cfg.maxAppeals
    requires StartRound(s, c, appealed, rng).Ok? && Exact(StartRound(s, c, appealed, rng).value)
    ensures LosesNothing(s, |appealed.appeals|, rng)
  {
    NothingIsTruncated(s.cfg, s.reg, |appealed.appeals|, rng);
    LosesNothingIff(s, |appealed.appeals|, rng);
    var choice := SelectParticipants(s.cfg, s.reg, |appealed.appeals|, rng).value;
    var round := RoundFrom(s.cfg, s.requestBlock);
    var schedule := Reschedule(s, c, appealed.roundEnds.appeal, round.appeal).value;
    RoundStartedExactOnlyIf(s, c, appealed.(roundEnds := round), choice, NecessaryDrawsWeight(|appealed.appeals|),
                            schedule);
  }

  lemma ReassignEffect(s: Store, c: CourtId, a: AccountId)
    requires ReassignCourtStakes(s, c).Ok?
    ensures var s' := ReassignCourtStakes(s, c).value;
            && Lock(s'.reg.participants, a) == Minus(Lock(s.reg.participants, a), SlashableOf(DrawsOf(s, c), a))
            && OpenSlashable(s', a) == OpenSlashable(s, a)
            && s'.draws.Keys == s.draws.Keys - {c} && s'.courts.Keys == s.courts.Keys
  {
    var r := Reassign(s.cfg, s.cfg.rewardPot(c), s.reg.participants, s.free, DrawsOf(s, c), s.courts[c].status.winner);
    ReassignUnlocks(s.cfg, s.cfg.rewardPot(c), s.reg.participants, s.free, DrawsOf(s, c), s.courts[c].status.winner);
    UnlockAllReleases(s.reg, DrawsOf(s, c), a);
    ReassignedTable(s, c, r.0, r.1, a);
  }

  lemma ReassignedTable(s: Store, c: CourtId, participants: map<AccountId, Participant>, free: Free, a: AccountId)
    requires c in s.courts && !IsOpen(s, c)
    ensures OpenSlashable(StakesReassigned(s, c, participants, free), a) == OpenSlashable(s, a)
  {
    TableUnchanged(s, StakesReassigned(s, c, participants, free), a);
  }

  // ---------- second releases ----------

  lemma {:induction false} NothingSlashableIff(draws: seq<Draw>, a: AccountId)
    ensures SlashableOf(draws, a) == 0 <==>
            forall i :: 0 <= i < |draws| && draws[i].who == a ==> draws[i].slashable == 0
  {
    if |draws| > 0 {
      NothingSlashableIff(draws[1..], a);
      assert forall i :: 0 <= i < |draws| ==> draws[i] == if i == 0 then draws[0] else draws[1..][i - 1];
    }
  }

  lemma HarmlessIff(s: Store, c: CourtId)
    ensures Harmless(s, c) <==> forall a :: SlashableOf(DrawsOf(s, c), a) == 0 || Lock(s.reg.participants, a) == 0
  {
    forall a
      ensures SlashableOf(DrawsOf(s, c), a) == 0 <==>
              forall i :: 0 <= i < |DrawsOf(s, c)| && DrawsOf(s, c)[i].who == a ==> DrawsOf(s, c)[i].slashable == 0
    {
      NothingSlashableIff(DrawsOf(s, c), a);
    }
  }

  /** The draws of a court are released and nothing changes for open courts. */
  ghost predicate ReleasedAgain(s: Store, s': Store, c: CourtId) {
    && s'.draws.Keys <= s'.courts.Keys
    && forall a :: Lock(s'.reg.participants, a) == Minus(Lock(s.reg.participants, a), SlashableOf(DrawsOf(s, c), a))
                   && OpenSlashable(s', a) == OpenSlashable(s, a)
  }

  lemma SecondReleaseIff(s: Store, s': Store, c: CourtId)
    requires Exact(s) && ReleasedAgain(s, s', c)
    ensures Exact(s') <==> Harmless(s, c)
  {
    HarmlessIff(s, c);
    if Exact(s') {
      forall a ensures SlashableOf(DrawsOf(s, c), a) == 0 || Lock(s.reg.participants, a) == 0 {
        assert Lock(s'.reg.participants, a) == OpenSlashable(s', a);
        assert Lock(s.reg.participants, a) == OpenSlashable(s, a);
      }
    }
  }

  /** Reassigning the stakes of a closed court releases its locks a second time. It keeps locks exact iff nobody with
      anything at risk in that court is locked by open ones. */
  lemma ReassignKeepsExactIff(s: Store, c: CourtId)
    requires Exact(s) && ReassignCourtStakes(s, c).Ok?
    ensures Exact(ReassignCourtStakes(s, c).value) <==> Harmless(s, c)
  {
    var s' := ReassignCourtStakes(s, c).value;
    ReassignEffect(s, c, 0);
    forall a
      ensures Lock(s'.reg.participants, a) == Minus(Lock(s.reg.participants, a), SlashableOf(DrawsOf(s, c), a))
      ensures OpenSlashable(s', a) == OpenSlashable(s, a)
    {
      ReassignEffect(s, c, a);
    }
    SecondReleaseIff(s, s', c);
  }

  /** Resolving, clearing or globally disputing keeps locks exact iff the court is open or its release has no effect. */
  lemma ReleaseKeepsExactIff(s: Store, s': Store, c: CourtId)
    requires StoreOk(s) && Exact(s)
    requires s'.reg == UnlockAll(s.reg, DrawsOf(s, c))
    requires !IsOpen(s', c) && s.courts.Keys - {c} <= s'.courts.Keys <= s.courts.Keys
    requires s'.draws.Keys <= s'.courts.Keys
    requires forall k :: k in s.courts && k != c ==> s'.courts[k] == s.courts[k] && DrawsOf(s', k) == DrawsOf(s, k)
    ensures Exact(s') <==> ReleasesOnce(s, c)
  {
    if IsOpen(s, c) {
      ClosingKeepsExact(s, s', c);
    } else {
      forall a
        ensures Lock(s'.reg.participants, a) == Minus(Lock(s.reg.participants, a), SlashableOf(DrawsOf(s, c), a))
        ensures OpenSlashable(s', a) == OpenSlashable(s, a)
      {
        UnlockAllReleases(s.reg, DrawsOf(s, c), a);
        NothingOpenChanged(s, s', c, a);
      }
      SecondReleaseIff(s, s', c);
    }
  }

  lemma NothingOpenChanged(s: Store, s': Store, c: CourtId, a: AccountId)
    requires !IsOpen(s, c) && !IsOpen(s', c) && s.courts.Keys - {c} <= s'.courts.Keys <= s.courts.Keys
    requires forall k :: k in s.courts && k != c ==> s'.courts[k] == s.courts[k] && DrawsOf(s', k) == DrawsOf(s, k)
    ensures OpenSlashable(s', a) == OpenSlashable(s, a)
  {
    assert OpenTable(s', a) == OpenTable(s, a);
  }

  lemma ResolveKeepsExactIff(s: Store, m: MarketId)
    requires StoreOk(s) && Exact(s) && OnResolution(s, m).Ok?
    ensures Exact(OnResolution(s, m).value) <==> ReleasesOnce(s, s.courtOf[m])
  {
    ReleaseKeepsExactIff(s, OnResolution(s, m).value, s.courtOf[m]);
  }

  lemma DropKeepsExactIff(s: Store, c: CourtId)
    requires StoreOk(s) && Exact(s)
    ensures Exact(DropCourt(s, c)) <==> ReleasesOnce(s, c)
  {
    ReleaseKeepsExactIff(s, DropCourt(s, c), c);
  }

  // ---------- appeals of closed courts ----------

  /** One account's lock and open slashable amount when a closed court draws anew. */
  lemma RedrawnLock(s: Store, c: CourtId, court: Court, choice: Choice, schedule: Schedule, a: AccountId)
    requires c in s.courts && !IsOpen(s, c) && !court.status.Open?
    ensures var s' := RoundStarted(s, c, court, choice, schedule);
            && Lock(s'.reg.participants, a) == Minus(Lock(choice.reg.participants, a), SlashableOf(DrawsOf(s, c), a))
            && OpenSlashable(s', a) == OpenSlashable(s, a)
  {
    UnlockAllReleases(choice.reg, DrawsOf(s, c), a);
    assert OpenTable(RoundStarted(s, c, court, choice, schedule), a) == OpenTable(s, a);
  }

  lemma StartRoundClosedIff(s: Store, c: CourtId, appealed: Court, rng: Rng)
    requires StoreOk(s) && Exact(s) && c in s.courts && !IsOpen(s, c) && !appealed.status.Open?
    requires |appealed.appeals| < s.cfg.maxAppeals && StartRound(s, c, appealed, rng).Ok?
    ensures Exact(StartRound(s, c, appealed, rng).value) <==> TradesEvenly(s, c, |appealed.appeals|, rng)
  {
    NothingIsTruncated(s.cfg, s.reg, |appealed.appeals|, rng);
    var choice := SelectParticipants(s.cfg, s.reg, |appealed.appeals|, rng).value;
    var round := RoundFrom(s.cfg, s.requestBlock);
    var schedule := Reschedule(s, c, appealed.roundEnds.appeal, round.appeal).value;
    ClosedRoundIff(s, c, appealed.(roundEnds := round), choice, |appealed.appeals|, schedule, rng);
  }

  lemma ClosedRoundIff(s: Store, c: CourtId, court: Court, choice: Choice, appeals: nat, schedule: Schedule, rng: Rng)
    requires StoreOk(s) && Exact(s) && c in s.courts && !IsOpen(s, c) && !court.status.Open?
    requires ChooseMultipleWeighted(s.cfg, s.reg, NecessaryDrawsWeight(appeals), rng) == Ok(choice)
    ensures Exact(RoundStarted(s, c, court, choice, schedule)) <==> TradesEvenly(s, c, appeals, rng)
  {
    forall a ensures TradedLock(s, c, appeals, rng, RoundStarted(s, c, court, choice, schedule), a) {
      ClosedRoundLock(s, c, court, choice, appeals, schedule, rng, a);
    }
    TradedIff(s, c, appeals, rng, RoundStarted(s, c, court, choice, schedule));
  }

  /** One account's lock after a closed court has drawn anew, beside what open courts can slash. */
  ghost predicate TradedLock(s: Store, c: CourtId, appeals: nat, rng: Rng, s': Store, a: AccountId)
    requires s.cfg.minJurorStake > 0
  {
    && Lock(s'.reg.participants, a) ==
       Minus(Lock(s.reg.participants, a) + DrawnStake(s.cfg, s.reg, NecessaryDrawsWeight(appeals), rng, a),
             SlashableOf(DrawsOf(s, c), a))
    && OpenSlashable(s', a) == Lock(s.reg.participants, a)
  }

  lemma ClosedRoundLock(s: Store, c: CourtId, court: Court, choice: Choice, appeals: nat, schedule: Schedule, rng: Rng,
                        a: AccountId)
    requires StoreOk(s) && Exact(s) && c in s.courts && !IsOpen(s, c) && !court.status.Open?
    requires ChooseMultipleWeighted(s.cfg, s.reg, NecessaryDrawsWeight(appeals), rng) == Ok(choice)
    ensures TradedLock(s, c, appeals, rng, RoundStarted(s, c, court, choice, schedule), a)
  {
    LockAfterDraw(s.cfg, s.reg, NecessaryDrawsWeight(appeals), rng, a);
    RedrawnLock(s, c, court, choice, schedule, a);
    assert Lock(s.reg.participants, a) == OpenSlashable(s, a);
  }

  lemma TradedIff(s: Store, c: CourtId, appeals: nat, rng: Rng, s': Store)
    requires s.cfg.minJurorStake > 0 && s'.draws.Keys <= s'.courts.Keys
    requires forall a :: TradedLock(s, c, appeals, rng, s', a)
    ensures Exact(s') <==> TradesEvenly(s, c, appeals, rng)
  {
    if Exact(s') {
      forall a
        ensures Minus(Lock(s.reg.participants, a) +
                      DrawnStake(s.cfg, s.reg, NecessaryDrawsWeight(appeals), rng, a),
                      SlashableOf(DrawsOf(s, c), a)) == Lock(s.reg.participants, a)
      {
        assert TradedLock(s, c, appeals, rng, s', a) && Lock(s'.reg.participants, a) == OpenSlashable(s', a);
      }
    } else if TradesEvenly(s, c, appeals, rng) {
      forall a ensures Lock(s'.reg.participants, a) == OpenSlashable(s', a) {
        assert TradedLock(s, c, appeals, rng, s', a);
      }
    }
  }

  lemma ExactIffBeforeReserve(s: Store, who: AccountId, bond: Balance)
    ensures Exact(ReserveBond(s, who, bond)) <==> Exact(s)
  {
    if Exact(s) {
      OtherFieldsKeepExact(s, ReserveBond(s, who, bond));
    } else if Exact(ReserveBond(s, who, bond)) {
      OtherFieldsKeepExact(ReserveBond(s, who, bond), s);
    }
  }

  /** An appeal keeps locks exact iff it is the last possible one, or the court is open and its draw hits no stranded
      delegator, or the court is closed and the draw takes from everybody what the old draws release. */
  lemma AppealKeepsExactIff(s: Store, who: AccountId, c: CourtId, rng: Rng)
    requires StoreOk(s) && Exact(s) && AppealCourt(s, who, c, rng).Ok?
    ensures Exact(AppealCourt(s, who, c, rng).value) <==> AppealsOrderly(s, c, rng)
  {
    var next, appealed := |s.courts[c].appeals| + 1, Appealed(s, who, c);
    ExactIffBeforeReserve(Advance(s, c, appealed, rng).value, who, AppealBondFor(s.cfg, next));
    if next >= s.cfg.maxAppeals {
      FinalAppealKeepsExact(s, c, appealed);
    } else if !IsOpen(s, c) {
      StartRoundClosedIff(s, c, appealed, rng);
    } else if LosesNothing(s, next, rng) {
      StartRoundKeepsExact(s, c, appealed, rng);
    } else if Exact(StartRound(s, c, appealed, rng).value) {
      StartRoundExactOnlyIf(s, c, appealed, rng);
    }
  }

  // ---------- all steps ----------

  lemma CloseStepKeepsExactIff(s: Store, step: Step)
    requires StoreOk(s) && Exact(s) && Closing(step)
    ensures Exact(Apply(s, step)) <==> Orderly(s, step)
  {
    if Try(s, step).Ok? {
      match step
      case ReassignStakes(c) => ReassignKeepsExactIff(s, c);
      case Resolve(m) => ResolveKeepsExactIff(s, m);
      case GlobalDispute(m) => if m in s.courtOf { DropKeepsExactIff(s, s.courtOf[m]); }
      case ClearCourt(m) => DropKeepsExactIff(s, s.courtOf[m]);
    }
  }

  lemma DrawStepKeepsExactIff(s: Store, step: Step)
    requires StoreOk(s) && Exact(s) && (step.AppealTo? || step.Dispute?)
    ensures Exact(Apply(s, step)) <==> Orderly(s, step)
  {
    if Try(s, step).Ok? {
      match step
      case AppealTo(who, c, rng) => AppealKeepsExactIff(s, who, c, rng);
      case Dispute(m, rng) => DisputeKeepsExactIff(s, m, rng);
    }
  }

  /** A step keeps locks exact iff it is orderly. */
  lemma StepKeepsExactIff(s: Store, step: Step)
    requires StoreOk(s) && Exact(s)
    ensures Exact(Apply(s, step)) <==> Orderly(s, step)
  {
    if Membership(step) {
      MembershipStepKeepsExact(s, step);
    } else if Votes(step) {
      VoteStepKeepsExact(s, step);
    } else if Quiet(step) {
      BlockStepKeepsExact(s, step);
    } else if Closing(step) {
      CloseStepKeepsExactIff(s, step);
    } else {
      DrawStepKeepsExactIff(s, step);
    }
  }

  ghost predicate Tight(s: Store) {
    StoreOk(s) && Exact(s)
  }

  lemma StepKeepsTight(s: Store, step: Step)
    requires Tight(s) && Orderly(s, step)
    ensures Tight(Apply(s, step))
  {
    StepKeepsStore(s, step);
    StepKeepsExactIff(s, step);
  }

  /** The first `n` steps of a run are orderly when they are taken. */
  ghost predicate OrderlyRun(s: Store, steps: seq<Step>, n: nat)
    requires s.cfg.minJurorStake > 0 && n <= |steps|
  {
    n == 0 || (OrderlyRun(s, steps, n - 1) && Orderly(Run(s, steps, n - 1), steps[n - 1]))
  }

  /** Locks are exact at the start of a run and after each of its first `n` steps. */
  ghost predicate ExactThroughout(s: Store, steps: seq<Step>, n: nat)
    requires s.cfg.minJurorStake > 0 && n <= |steps|
  {
    Exact(Run(s, steps, n)) && (n > 0 ==> ExactThroughout(s, steps, n - 1))
  }

  /** Over every run: in all its states an account's active lock is the sum of its slashable amounts over the draws of
      open courts, 0 for accounts that are not registered, iff all steps are orderly. */
  lemma {:induction false} LocksAreExactIff(s: Store, steps: seq<Step>, n: nat)
    requires Tight(s) && n <= |steps|
    ensures ExactThroughout(s, steps, n) <==> OrderlyRun(s, steps, n)
  {
    if n > 0 {
      LocksAreExactIff(s, steps, n - 1);
      EveryRunIsSafe(s, steps, n - 1);
      if ExactThroughout(s, steps, n - 1) {
        StepKeepsExactIff(Run(s, steps, n - 1), steps[n - 1]);
      }
    }
  }

  // ---------- drawn accounts that have left ----------

  /** With exact locks an account that is drawn by an open court and not registered has nothing at risk there. */
  lemma UnlockMissesNoStake(s: Store, c: CourtId, i: nat)
    requires Tight(s) && IsOpen(s, c) && i < |DrawsOf(s, c)| && DrawsOf(s, c)[i].who !in s.reg.participants
    ensures DrawsOf(s, c)[i].slashable == 0
  {
    var a := DrawsOf(s, c)[i].who;
    assert DrawsOk(DrawsOf(s, c));
    SlashableOfSorted(DrawsOf(s, c), i);
    TableBound(s, c, a);
    assert Lock(s.reg.participants, a) == OpenSlashable(s, a);
  }
}
