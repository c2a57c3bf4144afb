/** When drawn accounts are still registered at the time their draws are released. */
module RegisteredDraws {
  import opened Collections
  import opened CourtTypes
  import opened JurorPool
  import opened Selection
  import opened DrawTheorem
  import opened CourtMachine
  import opened CourtFrames
  import opened CourtSafety

  /** Which draws are looked at: all stored ones, or those with anything at risk in an open court. */
  datatype View = Stored | AtRisk

  predicate Seen(s: Store, c: CourtId, d: Draw, v: View) {
    v.AtRisk? ==> c in s.courts && s.courts[c].status.Open? && d.slashable > 0
  }

  predicate Registered(s: Store, c: CourtId, v: View)
    requires c in s.draws
  {
    forall i :: 0 <= i < |s.draws[c]| && Seen(s, c, s.draws[c][i], v) ==> s.draws[c][i].who in s.reg.participants
  }

  /** No release or reassignment of draws in view would meet an account that is not registered. */
  predicate AllRegistered(s: Store, v: View) {
    forall c :: c in s.draws ==> Registered(s, c, v)
  }

  predicate IsDrawn(s: Store, who: AccountId, v: View) {
    exists c :: c in s.draws && DrawnIn(s, c, who, v)
  }

  predicate DrawnIn(s: Store, c: CourtId, who: AccountId, v: View)
    requires c in s.draws
  {
    exists i :: 0 <= i < |s.draws[c]| && s.draws[c][i].who == who && Seen(s, c, s.draws[c][i], v)
  }

  /** An account drawn in view exits after its full period and without a lock. */
  predicate LeavesADraw(s: Store, step: Step, v: View) {
    && step.Exit? && step.who in s.reg.participants
    && s.reg.participants[step.who].activeLock == 0
    && s.reg.participants[step.who].prepareExitAt.Some?
    && Minus(s.now, s.reg.participants[step.who].prepareExitAt.value) >= s.cfg.inflationPeriod
    && IsDrawn(s, step.who, v)
  }

  // ---------- steps ----------

  lemma MoreParticipants(s: Store, reg: Registry, v: View)
    requires AllRegistered(s, v) && s.reg.participants.Keys <= reg.participants.Keys
    ensures AllRegistered(s.(reg := reg), v)
  {
    forall c | c in s.draws ensures Registered(s.(reg := reg), c, v) {
      assert Registered(s, c, v);
    }
  }

  lemma JoinKeepsParticipants(cfg: Config, reg: Registry, who: AccountId, amount: Balance,
                              delegations: Option<seq<AccountId>>, free: Balance, now: Block)
    requires DoJoinCourt(cfg, reg, who, amount, delegations, free, now).Ok?
    ensures reg.participants.Keys <= DoJoinCourt(cfg, reg, who, amount, delegations, free, now).value.participants.Keys
  {}

  lemma ExitRemoves(s: Store, who: AccountId)
    requires ExitCourt(s, who).Ok?
    ensures var s' := ExitCourt(s, who).value;
            && s'.draws == s.draws && s'.courts == s.courts
            && s'.reg.participants.Keys ==
               s.reg.participants.Keys - if s.reg.participants[who].activeLock == 0 then {who} else {}
  {}

  lemma ExitKeepsRegisteredIff(s: Store, who: AccountId, v: View)
    requires AllRegistered(s, v) && s.cfg.minJurorStake > 0
    ensures AllRegistered(Apply(s, Exit(who)), v) <==> !LeavesADraw(s, Exit(who), v)
  {
    if ExitCourt(s, who).Ok? {
      ExitRemoves(s, who);
      RemovalKeepsRegisteredIff(s, ExitCourt(s, who).value, who, v);
    }
  }

  lemma RemovalKeepsRegisteredIff(s: Store, s': Store, who: AccountId, v: View)
    requires AllRegistered(s, v) && s'.draws == s.draws && s'.courts == s.courts && who in s.reg.participants
    requires s'.reg.participants.Keys ==
             s.reg.participants.Keys - if s.reg.participants[who].activeLock == 0 then {who} else {}
    ensures AllRegistered(s', v) <==> !(s.reg.participants[who].activeLock == 0 && IsDrawn(s, who, v))
  {
    if s.reg.participants[who].activeLock == 0 && IsDrawn(s, who, v) {
      var c :| c in s.draws && DrawnIn(s, c, who, v);
      assert !Registered(s', c, v);
    } else {
      forall c | c in s.draws ensures Registered(s', c, v) {
        assert Registered(s, c, v);
        forall i | 0 <= i < |s.draws[c]| && Seen(s, c, s.draws[c][i], v)
          ensures s.draws[c][i].who in s'.reg.participants
        {
          if s.draws[c][i].who == who { assert DrawnIn(s, c, who, v); }
        }
      }
    }
  }

  lemma DelegateKeepsParticipants(cfg: Config, reg: Registry, who: AccountId, amount: Balance, ds: seq<AccountId>,
                                  free: Balance, now: Block)
    requires DoDelegate(cfg, reg, who, amount, ds, free, now).Ok?
    ensures reg.participants.Keys <= DoDelegate(cfg, reg, who, amount, ds, free, now).value.participants.Keys
  {
    DelegateIsJoin(cfg, reg, who, amount, ds, free, now);
    JoinKeepsParticipants(cfg, reg, who, amount, Some(SortedSeq(Elements(ds))), free, now);
  }

  lemma MembershipKeepsRegistered(s: Store, step: Step, v: View)
    requires s.cfg.minJurorStake > 0 && AllRegistered(s, v) && Membership(step) && !step.Exit?
    ensures AllRegistered(Apply(s, step), v)
  {
    if Try(s, step).Ok? {
      match step {
        case Join(who, amount) => JoinKeepsParticipants(s.cfg, s.reg, who, amount, None, GetOr(s.free, who), s.now);
        case JoinAsDelegator(who, amount, ds) =>
          DelegateKeepsParticipants(s.cfg, s.reg, who, amount, ds, GetOr(s.free, who), s.now);
        case PrepareExit(who) =>
      }
      MembershipFrame(s, step);
      MoreParticipants(s, Apply(s, step).reg, v);
    }
  }

  lemma VoteKeepsRegistered(s: Store, step: Step, v: View)
    requires s.cfg.minJurorStake > 0 && AllRegistered(s, v) && Votes(step)
    ensures AllRegistered(Apply(s, step), v)
  {
    if Try(s, step).Ok? {
      var i, vote := VoteStepFrame(s, step);
      SetVoteKeepsRegistered(s, step.court, i, vote, v);
    }
  }

  lemma SetVoteKeepsRegistered(s: Store, c: CourtId, i: nat, vote: Vote, v: View)
    requires AllRegistered(s, v) && i < |DrawsOf(s, c)|
    ensures AllRegistered(SetVote(s, c, i, vote), v)
  {
    forall k | k in SetVote(s, c, i, vote).draws ensures Registered(SetVote(s, c, i, vote), k, v) {
      assert Registered(s, k, v);
    }
  }

  lemma OtherFieldsKeepRegistered(s: Store, step: Step, v: View)
    requires s.cfg.minJurorStake > 0 && AllRegistered(s, v) && Quiet(step) && !Membership(step) && !Votes(step)
    ensures AllRegistered(Apply(s, step), v)
  {
    assert Apply(s, step).reg == s.reg && Apply(s, step).draws == s.draws && Apply(s, step).courts == s.courts;
    forall c | c in s.draws ensures Registered(Apply(s, step), c, v) {
      assert Registered(s, c, v);
    }
  }

  predicate StillOpen(s: Store, s': Store, c: CourtId) {
    c in s'.courts && s'.courts[c].status.Open? ==> c in s.courts && s.courts[c].status.Open?
  }

  /** Nobody is deregistered, no court opens, and draws at most go. */
  predicate OnlyForgets(s: Store, s': Store) {
    && s.reg.participants.Keys == s'.reg.participants.Keys && (forall c :: c in s'.draws ==> StillOpen(s, s', c))
    && forall c :: c in s'.draws ==> c in s.draws && s'.draws[c] == s.draws[c]
  }

  lemma ForgettingKeepsRegistered(s: Store, s': Store, v: View)
    requires AllRegistered(s, v) && OnlyForgets(s, s')
    ensures AllRegistered(s', v)
  {
    forall c | c in s'.draws ensures Registered(s', c, v) {
      assert Registered(s, c, v);
    }
  }

  lemma ReassignForgets(s: Store, c: CourtId)
    requires ReassignCourtStakes(s, c).Ok?
    ensures OnlyForgets(s, ReassignCourtStakes(s, c).value)
  {
    ReassignUnlocks(s.cfg, s.cfg.rewardPot(c), s.reg.participants, s.free, DrawsOf(s, c), s.courts[c].status.winner);
    UnlockAllReleases(s.reg, DrawsOf(s, c), 0);
  }

  lemma DropForgets(s: Store, c: CourtId)
    ensures OnlyForgets(s, DropCourt(s, c))
  {
    UnlockAllReleases(s.reg, DrawsOf(s, c), 0);
  }

  lemma ResolveForgets(s: Store, m: MarketId)
    requires OnResolution(s, m).Ok?
    ensures OnlyForgets(s, OnResolution(s, m).value)
  {
    UnlockAllReleases(s.reg, DrawsOf(s, s.courtOf[m]), 0);
  }

  lemma ClosingKeepsRegistered(s: Store, step: Step, v: View)
    requires s.cfg.minJurorStake > 0 && AllRegistered(s, v) && Closing(step)
    ensures AllRegistered(Apply(s, step), v)
  {
    if Try(s, step).Ok? {
      match step {
        case ReassignStakes(c) => ReassignForgets(s, c);
        case Resolve(m) => ResolveForgets(s, m);
        case GlobalDispute(m) => if m in s.courtOf { DropForgets(s, s.courtOf[m]); }
        case ClearCourt(m) => DropForgets(s, s.courtOf[m]);
      }
      ForgettingKeepsRegistered(s, Apply(s, step), v);
    }
  }

  /** Fresh draws of registered accounts replace or join the others. */
  lemma FreshDrawsAreRegistered(s: Store, s': Store, c: CourtId, weight: nat, choice: Choice, v: View)
    requires AllRegistered(s, v) && ChoiceOk(s.cfg, s.reg, weight, choice)
    requires s'.reg.participants.Keys == choice.reg.participants.Keys && s'.draws == s.draws[c := choice.draws]
    requires forall k :: k in s.draws && k != c ==> StillOpen(s, s', k)
    ensures AllRegistered(s', v)
  {
    forall k | k in s'.draws ensures Registered(s', k, v) {
      if k == c {
        assert RolesKept(choice.reg.participants, choice.draws);
      } else {
        assert Registered(s, k, v);
      }
    }
  }

  lemma DisputeKeepsRegistered(s: Store, m: MarketId, rng: Rng, v: View)
    requires StoreOk(s) && AllRegistered(s, v) && OnDispute(s, m, rng).Ok?
    ensures AllRegistered(OnDispute(s, m, rng).value, v)
  {
    NothingIsTruncated(s.cfg, s.reg, 0, rng);
    FreshDrawsAreRegistered(s, OnDispute(s, m, rng).value, s.nextCourtId, NecessaryDrawsWeight(0),
                            SelectParticipants(s.cfg, s.reg, 0, rng).value, v);
  }

  lemma StartRoundKeepsRegistered(s: Store, c: CourtId, appealed: Court, rng: Rng, v: View)
    requires StoreOk(s) && AllRegistered(s, v) && |appealed.appeals| < s.cfg.maxAppeals
    requires StartRound(s, c, appealed, rng).Ok?
    ensures AllRegistered(StartRound(s, c, appealed, rng).value, v)
  {
    NothingIsTruncated(s.cfg, s.reg, |appealed.appeals|, rng);
    var choice := SelectParticipants(s.cfg, s.reg, |appealed.appeals|, rng).value;
    UnlockAllReleases(choice.reg, DrawsOf(s, c), 0);
    FreshDrawsAreRegistered(s, StartRound(s, c, appealed, rng).value, c, NecessaryDrawsWeight(|appealed.appeals|),
                            choice, v);
  }

  lemma ReservingKeepsRegistered(s: Store, s': Store, v: View)
    requires AllRegistered(s, v) && s'.reg == s.reg && s'.draws == s.draws
    requires forall c :: c in s.draws ==> StillOpen(s, s', c)
    ensures AllRegistered(s', v)
  {
    forall c | c in s'.draws ensures Registered(s', c, v) {
      assert Registered(s, c, v);
    }
  }

  lemma AppealKeepsRegistered(s: Store, who: AccountId, c: CourtId, rng: Rng, v: View)
    requires StoreOk(s) && AllRegistered(s, v) && AppealCourt(s, who, c, rng).Ok?
    ensures AllRegistered(AppealCourt(s, who, c, rng).value, v)
  {
    if |Appealed(s, who, c).appeals| < s.cfg.maxAppeals {
      StartRoundKeepsRegistered(s, c, Appealed(s, who, c), rng, v);
      ReservingKeepsRegistered(StartRound(s, c, Appealed(s, who, c), rng).value, AppealCourt(s, who, c, rng).value, v);
    } else {
      ReservingKeepsRegistered(s, AppealCourt(s, who, c, rng).value, v);
    }
  }

  lemma DrawStepKeepsRegistered(s: Store, step: Step, v: View)
    requires StoreOk(s) && AllRegistered(s, v) && (step.AppealTo? || step.Dispute?)
    ensures AllRegistered(Apply(s, step), v)
  {
    if Try(s, step).Ok? {
      match step
      case AppealTo(who, c, rng) => AppealKeepsRegistered(s, who, c, rng, v);
      case Dispute(m, rng) => DisputeKeepsRegistered(s, m, rng, v);
    }
  }

  /** All accounts drawn in view stay registered through a step iff it is not the exit of one of them without a lock. */
  lemma StepKeepsRegisteredIff(s: Store, step: Step, v: View)
    requires StoreOk(s) && AllRegistered(s, v)
    ensures AllRegistered(Apply(s, step), v) <==> !LeavesADraw(s, step, v)
  {
    if step.Exit? {
      ExitKeepsRegisteredIff(s, step.who, v);
    } else if Membership(step) {
      MembershipKeepsRegistered(s, step, v);
    } else if Votes(step) {
      VoteKeepsRegistered(s, step, v);
    } else if Quiet(step) {
      OtherFieldsKeepRegistered(s, step, v);
    } else if Closing(step) {
      ClosingKeepsRegistered(s, step, v);
    } else {
      DrawStepKeepsRegistered(s, step, v);
    }
  }

  // ---------- runs ----------

  /** Nobody leaves a draw behind in the first `n` steps of a run. */
  predicate NobodyLeavesADraw(s: Store, steps: seq<Step>, n: nat, v: View)
    requires s.cfg.minJurorStake > 0 && n <= |steps|
  {
    n == 0 || (NobodyLeavesADraw(s, steps, n - 1, v) && !LeavesADraw(Run(s, steps, n - 1), steps[n - 1], v))
  }

  /** Drawn accounts are registered at the start of a run and after each of its first `n` steps. */
  predicate RegisteredThroughout(s: Store, steps: seq<Step>, n: nat, v: View)
    requires s.cfg.minJurorStake > 0 && n <= |steps|
  {
    AllRegistered(Run(s, steps, n), v) && (n > 0 ==> RegisteredThroughout(s, steps, n - 1, v))
  }

  /** Over every run: no state is one in which a release or a reassignment of draws in view would meet an account that
      is not registered iff no account drawn in view exits without a lock. In the view of all stored draws this is when
      the unexpected branches are reached, in the view of those at risk when an amount at risk loses its owner. */
  lemma {:induction false} DrawnStayRegisteredIff(s: Store, steps: seq<Step>, n: nat, v: View)
    requires StoreOk(s) && AllRegistered(s, v) && n <= |steps|
    ensures RegisteredThroughout(s, steps, n, v) <==> NobodyLeavesADraw(s, steps, n, v)
  {
    if n > 0 {
      DrawnStayRegisteredIff(s, steps, n - 1, v);
      EveryRunIsSafe(s, steps, n - 1);
      if RegisteredThroughout(s, steps, n - 1, v) {
        StepKeepsRegisteredIff(Run(s, steps, n - 1), steps[n - 1], v);
      }
    }
  }

  /** In particular from the first block on. */
  lemma DrawnStayRegisteredFromGenesis(cfg: Config, free: map<AccountId, Balance>, markets: map<MarketId, Market>,
                                       issuance: Balance, steps: seq<Step>, n: nat, v: View)
    requires cfg.Sound() && n <= |steps|
    ensures var s := Genesis(cfg, free, markets, issuance);
            RegisteredThroughout(s, steps, n, v) <==> NobodyLeavesADraw(s, steps, n, v)
  {
    GenesisIsSafe(cfg, free, markets, issuance);
    DrawnStayRegisteredIff(Genesis(cfg, free, markets, issuance), steps, n, v);
  }
}
