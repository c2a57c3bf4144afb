/** Every reachable state has a sound registry and well-formed draws. */
module CourtSafety {
  import opened Collections
  import opened AutoResolve
  import opened CourtTypes
  import opened JurorPool
  import opened Selection
  import opened DrawTheorem
  import opened Reassignment
  import opened CourtMachine
  import opened CourtFrames

  ghost predicate StoreOk(s: Store) {
    && s.cfg.Sound()
    && RegistryOk(s.cfg, s.reg)
    && DrawTableOk(s)
  }

  predicate DrawTableOk(s: Store) {
    && (forall c :: c in s.draws ==> c < s.nextCourtId && DrawsOk(s.draws[c]) && |s.draws[c]| <= s.cfg.maxSelectedDraws)
    && (forall c :: c in s.courts ==> c < s.nextCourtId)
  }

  // ---------- releasing locks ----------

  lemma {:induction false} UnlockFirstReleases(participants: map<AccountId, Participant>, draws: seq<Draw>, n: nat,
                                               a: AccountId)
    requires n <= |draws|
    ensures var after := UnlockFirst(participants, draws, n);
            && after.Keys == participants.Keys
            && Lock(after, a) == Minus(Lock(participants, a), SlashableIn(draws, n, {a}))
            && (a in participants ==> DiffersInLockOnly(participants[a], after[a]))
  {
    if n > 0 {
      UnlockFirstReleases(participants, draws, n - 1, a);
    }
  }

  lemma {:induction false} SlashableInFront(draws: seq<Draw>, n: nat, a: AccountId)
    requires 0 < n <= |draws|
    ensures SlashableIn(draws, n, {a}) ==
            (if draws[0].who == a then draws[0].slashable else 0) + SlashableIn(draws[1..], n - 1, {a})
  {
    if n > 1 {
      SlashableInFront(draws, n - 1, a);
      assert draws[1..][n - 2] == draws[n - 1];
    }
  }

  lemma {:induction false} SlashableOfIsIn(draws: seq<Draw>, a: AccountId)
    ensures SlashableOf(draws, a) == SlashableIn(draws, |draws|, {a})
  {
    if |draws| > 0 {
      SlashableOfIsIn(draws[1..], a);
      SlashableInFront(draws, |draws|, a);
    }
  }

  /** Unlocking takes each account's slashable amount off its lock, stopping at zero, and nothing else. */
  lemma UnlockAllReleases(reg: Registry, draws: seq<Draw>, a: AccountId)
    ensures var after := UnlockAll(reg, draws).participants;
            && after.Keys == reg.participants.Keys
            && Lock(after, a) == Minus(Lock(reg.participants, a), SlashableOf(draws, a))
            && (a in reg.participants ==> DiffersInLockOnly(reg.participants[a], after[a]))
  {
    UnlockFirstReleases(reg.participants, draws, |draws|, a);
    SlashableOfIsIn(draws, a);
  }

  /** Locks may shrink at any time. */
  lemma SmallerLocksKeepRegistry(cfg: Config, reg: Registry, participants: map<AccountId, Participant>)
    requires RegistryOk(cfg, reg)
    requires participants.Keys == reg.participants.Keys
    requires forall a :: a in participants ==>
               DiffersInLockOnly(reg.participants[a], participants[a])
                 && participants[a].activeLock <= reg.participants[a].activeLock
    ensures RegistryOk(cfg, reg.(participants := participants))
  {
    forall i | 0 <= i < |reg.pool|
      ensures reg.pool[i].who in participants && Agrees(cfg, reg.pool[i], participants[reg.pool[i].who])
    {
      assert Agrees(cfg, reg.pool[i], reg.participants[reg.pool[i].who]);
    }
    forall a | a in participants ensures ParticipantOk(cfg, a, participants[a]) {
      assert ParticipantOk(cfg, a, reg.participants[a]);
    }
    forall a ensures GetOr(reg.locks, a) == StakeOf(participants, a) {
      assert GetOr(reg.locks, a) == StakeOf(reg.participants, a);
    }
  }

  lemma UnlockAllKeepsRegistry(cfg: Config, reg: Registry, draws: seq<Draw>)
    requires RegistryOk(cfg, reg)
    ensures RegistryOk(cfg, UnlockAll(reg, draws))
  {
    var participants := UnlockAll(reg, draws).participants;
    UnlockAllReleases(reg, draws, 0);
    forall a | a in participants
      ensures DiffersInLockOnly(reg.participants[a], participants[a])
              && participants[a].activeLock <= reg.participants[a].activeLock
    {
      UnlockAllReleases(reg, draws, a);
    }
    SmallerLocksKeepRegistry(cfg, reg, participants);
  }

  /** Reassigning stakes releases locks exactly as unlocking the draws does. */
  lemma ReassignUnlocks(cfg: Config, pot: AccountId, participants: map<AccountId, Participant>, free: Free,
                        draws: seq<Draw>, winner: VoteItem)
    ensures Reassign(cfg, pot, participants, free, draws, winner).0 == UnlockFirst(participants, draws, |draws|)
  {
    var step, start := VoteHandler(pot, draws), Tally(participants, free, map[]);
    var inv := (t: Tally, k: nat) => k <= |draws| && t.participants == UnlockFirst(participants, draws, k);
    forall t, k: nat | k < |draws| && inv(t, k) ensures inv(step(t, k), k + 1) {
      assert HandleVote(pot, t, draws[k]).participants == Unlock(t.participants, draws[k].who, draws[k].slashable);
    }
    assert start.participants == UnlockFirst(participants, draws, 0);
    FoldInvariant(step, start, |draws|, inv);
  }

  // ---------- draws ----------

  lemma WeightFitsBound(cfg: Config, reg: Registry, weight: nat, rng: Rng)
    requires cfg.minJurorStake > 0 && RegistryOk(cfg, reg) && 2 * weight <= cfg.maxSelectedDraws
    requires SelectWeight(cfg, reg, weight, rng).Ok?
    ensures ChoiceOk(cfg, reg, weight, SelectWeight(cfg, reg, weight, rng).value)
    ensures |SelectWeight(cfg, reg, weight, rng).value.draws| <= cfg.maxSelectedDraws
    ensures ChooseMultipleWeighted(cfg, reg, weight, rng).Ok?
    ensures SelectWeight(cfg, reg, weight, rng).value == ChooseMultipleWeighted(cfg, reg, weight, rng).value
  {
    ChooseMultipleWeightedGuarantees(cfg, reg, weight, rng);
  }

  /** With the configured bound nothing is ever truncated. */
  lemma NothingIsTruncated(cfg: Config, reg: Registry, appeals: nat, rng: Rng)
    requires cfg.Sound() && RegistryOk(cfg, reg) && appeals < cfg.maxAppeals
    requires SelectParticipants(cfg, reg, appeals, rng).Ok?
    ensures var w := NecessaryDrawsWeight(appeals);
            var c := SelectParticipants(cfg, reg, appeals, rng).value;
            && ChoiceOk(cfg, reg, w, c)
            && |c.draws| <= cfg.maxSelectedDraws
            && ChooseMultipleWeighted(cfg, reg, w, rng).Ok? && c == ChooseMultipleWeighted(cfg, reg, w, rng).value
  {
    NecessaryDrawsWeightGrows(appeals, cfg.maxAppeals - 1);
    WeightFitsBound(cfg, reg, NecessaryDrawsWeight(appeals), rng);
  }

  lemma SetVoteKeepsDraws(draws: seq<Draw>, i: nat, v: Vote)
    requires DrawsOk(draws) && i < |draws| && !v.Delegated?
    ensures DrawsOk(draws[i := draws[i].(vote := v)])
  {}

  // ---------- steps ----------

  lemma VotesKeepStore(s: Store, c: CourtId, i: nat, v: Vote)
    requires StoreOk(s) && i < |DrawsOf(s, c)| && !v.Delegated?
    ensures StoreOk(SetVote(s, c, i, v))
  {
    SetVoteKeepsDraws(DrawsOf(s, c), i, v);
  }

  lemma RoundStartedKeepsStore(s: Store, c: CourtId, court: Court, choice: Choice, weight: nat, schedule: Schedule)
    requires StoreOk(s) && c in s.courts
    requires ChoiceOk(s.cfg, s.reg, weight, choice) && |choice.draws| <= s.cfg.maxSelectedDraws
    ensures StoreOk(RoundStarted(s, c, court, choice, schedule))
  {
    UnlockAllKeepsRegistry(s.cfg, choice.reg, DrawsOf(s, c));
  }

  lemma StartRoundKeepsStore(s: Store, c: CourtId, appealed: Court, rng: Rng)
    requires StoreOk(s) && c in s.courts && |appealed.appeals| < s.cfg.maxAppeals
    requires StartRound(s, c, appealed, rng).Ok?
    ensures StoreOk(StartRound(s, c, appealed, rng).value)
  {
    NothingIsTruncated(s.cfg, s.reg, |appealed.appeals|, rng);
    var choice := SelectParticipants(s.cfg, s.reg, |appealed.appeals|, rng).value;
    var round := RoundFrom(s.cfg, s.requestBlock);
    var schedule := Reschedule(s, c, appealed.roundEnds.appeal, round.appeal).value;
    RoundStartedKeepsStore(s, c, appealed.(roundEnds := round), choice, NecessaryDrawsWeight(|appealed.appeals|),
                           schedule);
  }

  lemma AppealKeepsStore(s: Store, who: AccountId, c: CourtId, rng: Rng)
    requires StoreOk(s) && AppealCourt(s, who, c, rng).Ok?
    ensures StoreOk(AppealCourt(s, who, c, rng).value)
  {
    var appealed := Appealed(s, who, c);
    if |appealed.appeals| < s.cfg.maxAppeals {
      StartRoundKeepsStore(s, c, appealed, rng);
    }
  }

  lemma CourtOpenedKeepsStore(s: Store, m: MarketId, court: Court, choice: Choice, weight: nat, schedule: Schedule)
    requires StoreOk(s)
    requires ChoiceOk(s.cfg, s.reg, weight, choice) && |choice.draws| <= s.cfg.maxSelectedDraws
    ensures StoreOk(CourtOpened(s, m, court, choice, schedule))
  {}

  lemma DisputeKeepsStore(s: Store, m: MarketId, rng: Rng)
    requires StoreOk(s) && OnDispute(s, m, rng).Ok?
    ensures StoreOk(OnDispute(s, m, rng).value)
  {
    NothingIsTruncated(s.cfg, s.reg, 0, rng);
    var court := NewCourt(s.cfg, s.requestBlock);
    CourtOpenedKeepsStore(s, m, court, SelectParticipants(s.cfg, s.reg, 0, rng).value, NecessaryDrawsWeight(0),
                          AddAutoResolve(s.cfg, s.schedule, m, court.roundEnds.appeal).value);
  }

  lemma ReassignKeepsStore(s: Store, c: CourtId)
    requires StoreOk(s) && ReassignCourtStakes(s, c).Ok?
    ensures StoreOk(ReassignCourtStakes(s, c).value)
  {
    ReassignUnlocks(s.cfg, s.cfg.rewardPot(c), s.reg.participants, s.free, DrawsOf(s, c), s.courts[c].status.winner);
    UnlockAllKeepsRegistry(s.cfg, s.reg, DrawsOf(s, c));
  }

  lemma MembershipStepKeepsStore(s: Store, step: Step)
    requires StoreOk(s) && Membership(step)
    ensures StoreOk(Apply(s, step))
  {
    if Try(s, step).Ok? {
      match step
      case Join(who, amount) =>
        JoinKeepsRegistry(s.cfg, s.reg, who, amount, None, GetOr(s.free, who), s.now);
      case JoinAsDelegator(who, amount, delegations) =>
        DelegateKeepsRegistry(s.cfg, s.reg, who, amount, delegations, GetOr(s.free, who), s.now);
      case PrepareExit(who) => PrepareExitKeepsRegistry(s.cfg, s.reg, who, s.now);
      case Exit(who) => ExitKeepsRegistry(s.cfg, s.reg, who, s.now);
    }
  }

  lemma VoteStepKeepsStore(s: Store, step: Step)
    requires StoreOk(s) && Votes(step)
    ensures StoreOk(Apply(s, step))
  {
    if Try(s, step).Ok? {
      var i, v := VoteStepFrame(s, step);
      VotesKeepStore(s, step.court, i, v);
    }
  }

  lemma ResolveKeepsStore(s: Store, m: MarketId)
    requires StoreOk(s) && OnResolution(s, m).Ok?
    ensures StoreOk(OnResolution(s, m).value)
  {
    UnlockAllKeepsRegistry(s.cfg, s.reg, DrawsOf(s, s.courtOf[m]));
  }

  lemma DropKeepsStore(s: Store, c: CourtId)
    requires StoreOk(s)
    ensures StoreOk(DropCourt(s, c))
  {
    UnlockAllKeepsRegistry(s.cfg, s.reg, DrawsOf(s, c));
  }

  lemma CloseStepKeepsStore(s: Store, step: Step)
    requires StoreOk(s) && Closing(step)
    ensures StoreOk(Apply(s, step))
  {
    if Try(s, step).Ok? {
      match step
      case ReassignStakes(c) => ReassignKeepsStore(s, c);
      case Resolve(m) => ResolveKeepsStore(s, m);
      case GlobalDispute(m) => if m in s.courtOf { DropKeepsStore(s, s.courtOf[m]); }
      case ClearCourt(m) => DropKeepsStore(s, s.courtOf[m]);
    }
  }

  lemma StepKeepsStore(s: Store, step: Step)
    requires StoreOk(s)
    ensures StoreOk(Apply(s, step))
  {
    if Membership(step) {
      MembershipStepKeepsStore(s, step);
    } else if Votes(step) {
      VoteStepKeepsStore(s, step);
    } else if Closing(step) {
      CloseStepKeepsStore(s, step);
    } else if Try(s, step).Ok? {
      match step
      case AppealTo(who, c, rng) => AppealKeepsStore(s, who, c, rng);
      case Dispute(m, rng) => DisputeKeepsStore(s, m, rng);
      case _ =>
    }
  }

  /** In every reachable state: the pool is strictly sorted, holds each account once, stays within its bound
      and agrees with the participants; active lock <= consumed stake <= stake for pool items, active lock
      <= stake for all participants; currency locks mirror stakes; draws are sorted and well-formed. */
  lemma {:induction false} EveryRunIsSafe(s: Store, steps: seq<Step>, n: nat)
    requires StoreOk(s) && n <= |steps|
    ensures StoreOk(Run(s, steps, n))
  {
    if n > 0 {
      EveryRunIsSafe(s, steps, n - 1);
      StepKeepsStore(Run(s, steps, n - 1), steps[n - 1]);
    }
  }

  lemma GenesisIsSafe(cfg: Config, free: Free, markets: map<MarketId, Market>, issuance: Balance)
    requires cfg.Sound()
    ensures StoreOk(Genesis(cfg, free, markets, issuance))
  {}
}
