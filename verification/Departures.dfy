/** Drawn accounts that leave the court before their draws are settled. */
module Departures {
  import opened Collections
  import opened CourtTypes
  import opened JurorPool
  import opened Selection
  import opened SelectionProofs
  import opened DrawTheorem
  import opened StrandedDelegators
  import opened Reassignment
  import opened CourtMachine
  import opened CourtSafety
  import opened CourtLocks
  import opened Scenarios
  import opened FailingRuns

  // ---------- leaving for good ----------

  /** Only the registry and the clock differ, and locks that were exact still are. */
  ghost predicate OnlyMembersDiffer(s: Store, s': Store) {
    && s' == s.(reg := s'.reg, now := s'.now, requestBlock := s'.requestBlock)
    && (Exact(s) ==> Exact(s'))
  }

  /** A member that nothing ties to the court. */
  ghost predicate FreeToGo(s: Store, who: AccountId) {
    && StoreOk(s) && s.inflation == 0
    && who in s.reg.participants && s.reg.participants[who].prepareExitAt.None?
    && s.reg.participants[who].activeLock == 0
  }

  /** Registered, unlocked, and ready to exit from this block on. */
  ghost predicate OnTheWayOut(s: Store, who: AccountId, since: Block) {
    && StoreOk(s) && s.inflation == 0
    && who in s.reg.participants && s.reg.participants[who].prepareExitAt == Some(since)
    && s.reg.participants[who].activeLock == 0
  }

  lemma MembershipStepKeeps(s: Store, step: Step)
    requires StoreOk(s) && (step.PrepareExit? || step.Exit?)
    ensures StoreOk(Apply(s, step)) && (Exact(s) ==> Exact(Apply(s, step)))
  {
    StepKeepsStore(s, step);
    if Exact(s) {
      StepKeepsExactIff(s, step);
    }
  }

  lemma Prepares(s: Store, who: AccountId)
    requires FreeToGo(s, who)
    ensures var s' := Apply(s, PrepareExit(who));
            OnTheWayOut(s', who, s.now) && OnlyMembersDiffer(s, s') && s'.now == s.now
  {
    MembershipStepKeeps(s, PrepareExit(who));
  }

  lemma Exits(s: Store, who: AccountId, since: Block)
    requires OnTheWayOut(s, who, since) && since + s.cfg.inflationPeriod <= s.now
    ensures var s' := Apply(s, Exit(who));
            && StoreOk(s') && OnlyMembersDiffer(s, s')
            && who !in s'.reg.participants && GetOr(s'.reg.locks, who) == 0
  {
    MembershipStepKeeps(s, Exit(who));
  }

  lemma ThenPrepares(s0: Store, steps: seq<Step>, who: AccountId)
    requires s0.cfg.minJurorStake > 0 && FreeToGo(After(s0, steps), who)
    ensures var s, s' := After(s0, steps), After(s0, steps + [PrepareExit(who)]);
            OnTheWayOut(s', who, s.now) && OnlyMembersDiffer(s, s') && s'.now == s.now
  {
    OneMoreStep(s0, steps, PrepareExit(who));
    Prepares(After(s0, steps), who);
  }

  lemma ThenWaits(s0: Store, steps: seq<Step>, who: AccountId, k: nat)
    requires s0.cfg.minJurorStake > 0 && OnTheWayOut(After(s0, steps), who, After(s0, steps).now)
    ensures var s, s' := After(s0, steps), After(s0, steps + Blocks(k));
            OnTheWayOut(s', who, s.now) && OnlyMembersDiffer(s, s') && s'.now == s.now + k
  {
    BlocksPass(s0, steps, k);
    if Exact(After(s0, steps)) {
      OtherFieldsKeepExact(After(s0, steps), After(s0, steps + Blocks(k)));
    }
  }

  lemma ThenExits(s0: Store, steps: seq<Step>, who: AccountId, since: Block)
    requires s0.cfg.minJurorStake > 0
    requires var s := After(s0, steps); OnTheWayOut(s, who, since) && since + s.cfg.inflationPeriod <= s.now
    ensures var s, s' := After(s0, steps), After(s0, steps + [Exit(who)]);
            && StoreOk(s') && OnlyMembersDiffer(s, s')
            && who !in s'.reg.participants && GetOr(s'.reg.locks, who) == 0
  {
    OneMoreStep(s0, steps, Exit(who));
    Exits(After(s0, steps), who, since);
  }

  /** The steps by which a member leaves for good. */
  function Leaving(cfg: Config, steps: seq<Step>, who: AccountId): seq<Step> {
    steps + [PrepareExit(who)] + Blocks(cfg.inflationPeriod) + [Exit(who)]
  }

  /** Nothing but the registry and the clock tell that the member was there. */
  lemma LeavesForGood(s0: Store, steps: seq<Step>, who: AccountId)
    requires s0.cfg.minJurorStake > 0 && FreeToGo(After(s0, steps), who)
    ensures var s, s' := After(s0, steps), After(s0, Leaving(s0.cfg, steps, who));
            && StoreOk(s') && OnlyMembersDiffer(s, s')
            && who !in s'.reg.participants && GetOr(s'.reg.locks, who) == 0
  {
    ThenPrepares(s0, steps, who);
    var prepared := steps + [PrepareExit(who)];
    ThenWaits(s0, prepared, who, s0.cfg.inflationPeriod);
    ThenExits(s0, prepared + Blocks(s0.cfg.inflationPeriod), who, After(s0, steps).now);
  }

  // ---------- settled after the juror has left ----------

  lemma InPoolIsStaying(cfg: Config, reg: Registry, who: AccountId)
    requires RegistryOk(cfg, reg) && InPool(reg.pool, who)
    ensures who in reg.participants && reg.participants[who].prepareExitAt.None?
  {
    var i :| 0 <= i < |reg.pool| && reg.pool[i].who == who;
    assert Agrees(cfg, reg.pool[i], reg.participants[who]);
  }

  /** Locks are exact, so that without anything at risk in open courts nothing is locked. */
  lemma NothingAtRiskNothingLocked(s: Store, a: AccountId)
    requires Exact(s) && forall c :: IsOpen(s, c) ==> SlashableOf(DrawsOf(s, c), a) == 0
    ensures Lock(s.reg.participants, a) == 0
  {
    MapSumZero(OpenTable(s, a));
    assert Lock(s.reg.participants, a) == OpenSlashable(s, a);
  }

  /** What resolving the first case leaves: the court closed, its draws in place, and whoever is only drawn there
      free to go. */
  lemma ResolutionSetsFree(s: Store, cases: nat, a: AccountId)
    requires Setting(s, cases) && cases > 0 && InPool(s.reg.pool, a)
    requires forall c :: 0 < c < cases ==> SlashableOf(DrawsOf(s, c), a) == 0
    ensures var s' := Apply(s, Resolve(0));
            && FreeToGo(s', a) && Exact(s') && 0 in s'.courts && s'.courts[0].status.Closed?
            && s'.draws == s.draws && s'.free == s.free && s'.cfg == s.cfg
            && forall c :: 0 < c < cases ==> IsOpen(s', c)
  {
    CaseResolves(s, cases);
    ResolvedCourts(s, cases, a);
    NothingAtRiskNothingLocked(Resolved(s), a);
    InPoolIsStaying(s.cfg, Resolved(s).reg, a);
  }

  lemma ResolvedCourts(s: Store, cases: nat, a: AccountId)
    requires Setting(s, cases) && cases > 0 && 0 in s.courts
    requires forall c :: 0 < c < cases ==> SlashableOf(DrawsOf(s, c), a) == 0
    ensures forall c :: IsOpen(Resolved(s), c) ==> SlashableOf(DrawsOf(Resolved(s), c), a) == 0
    ensures forall c :: 0 < c < cases ==> IsOpen(Resolved(s), c)
  {
    forall c: CourtId | IsOpen(Resolved(s), c) ensures SlashableOf(DrawsOf(Resolved(s), c), a) == 0 {
      assert c in s.courts && c < s.nextCourtId;
      assert c != 0 && DrawsOf(Resolved(s), c) == DrawsOf(s, c);
    }
    forall c | 0 < c < cases ensures IsOpen(Resolved(s), c) { assert OpenCase(s, c); }
  }

  lemma ThenSetFree(s0: Store, steps: seq<Step>, cases: nat, a: AccountId)
    requires s0.cfg.minJurorStake > 0
    requires var s := After(s0, steps);
             && Setting(s, cases) && cases > 0 && InPool(s.reg.pool, a)
             && forall c :: 0 < c < cases ==> SlashableOf(DrawsOf(s, c), a) == 0
    ensures var s, s' := After(s0, steps), After(s0, steps + [Resolve(0)]);
            && FreeToGo(s', a) && Exact(s') && 0 in s'.courts && s'.courts[0].status.Closed?
            && s'.draws == s.draws && s'.free == s.free && s'.cfg == s.cfg
            && forall c :: 0 < c < cases ==> IsOpen(s', c)
  {
    OneMoreStep(s0, steps, Resolve(0));
    ResolutionSetsFree(After(s0, steps), cases, a);
  }

  /** A juror drawn once, resolved and gone, with nothing else in the books than its balance. */
  ghost predicate GoneBeforeSettlement(s: Store, amount: Balance) {
    && Tight(s) && 0 in s.courts && s.courts[0].status.Closed?
    && 1 !in s.reg.participants && GetOr(s.reg.locks, 1) == 0
    && LoneDrawn(DrawsOf(s, 0), amount) && s.free.Keys <= {1}
  }

  lemma ThenGone(s0: Store, steps: seq<Step>, rng: Rng)
    requires s0.cfg.minJurorStake > 0 && LoneJuror(After(s0, steps), 0, 31) && s0.cfg.cacheSize >= 1
    requires After(s0, steps).free.Keys <= {1}
    ensures GoneBeforeSettlement(After(s0, Leaving(s0.cfg, steps + [Dispute(0, rng)] + [Resolve(0)], 1)),
                                 31 * s0.cfg.minJurorStake)
  {
    ThenDispute(s0, steps, 0, 31, rng);
    var disputed := steps + [Dispute(0, rng)];
    ThenSetFree(s0, disputed, 1, 1);
    LeavesForGood(s0, disputed + [Resolve(0)], 1);
  }

  /** The slash of a court's only juror comes up short. */
  predicate ComesUpShort(s: Store, c: CourtId) {
    var draws := DrawsOf(s, c);
    |draws| > 0 && !TardyInFull(s.cfg.rewardPot(c), Tally(s.reg.participants, s.free, map[]), draws, 0, draws[0].who)
  }

  /** The only juror of a closed court can leave before the stakes are reassigned, and no lock keeps its balance there:
      the reassignment then finds no participant, the slash comes up short, and neither the pot nor the treasury nor
      anybody else gets anything. */
  lemma SlashFindsNobody(cfg: Config, rng: Rng)
    requires cfg.Sound() && cfg.cacheSize >= 1
    ensures var m := cfg.minJurorStake;
            var steps := Leaving(cfg, [Join(1, 31 * m), Dispute(0, rng), Resolve(0)], 1);
            var s := After(Genesis(cfg, map[1 := 31 * m], TwoCases(), 0), steps);
            && GoneBeforeSettlement(s, 31 * m)
            && var s' := Apply(s, SetBalance(1, 0));
            && ComesUpShort(s', 0) && ReassignCourtStakes(s', 0).Ok?
            && forall a :: GetOr(ReassignCourtStakes(s', 0).value.free, a) == 0
  {
    var m := cfg.minJurorStake;
    var s0 := Genesis(cfg, map[1 := 31 * m], TwoCases(), 0);
    FirstJoin(cfg, map[1 := 31 * m], 31);
    ThenGone(s0, [Join(1, 31 * m)], rng);
    ThreeSteps(Join(1, 31 * m), Dispute(0, rng), Resolve(0));
    var s := After(s0, Leaving(cfg, [Join(1, 31 * m), Dispute(0, rng), Resolve(0)], 1));
    BalanceIsGone(s);
    NothingToSettle(s, s.(free := s.free[1 := 0]), 31 * m);
  }

  lemma BalanceIsGone(s: Store)
    requires s.cfg.minJurorStake > 0
    ensures Apply(s, SetBalance(1, 0)) == s.(free := s.free[1 := 0])
  {}

  lemma NothingToSettle(s: Store, s': Store, amount: Balance)
    requires GoneBeforeSettlement(s, amount) && amount > 0 && s' == s.(free := s.free[1 := 0])
    ensures ComesUpShort(s', 0) && ReassignCourtStakes(s', 0).Ok?
    ensures forall a :: GetOr(ReassignCourtStakes(s', 0).value.free, a) == 0
  {
    MapSumZero(s'.free);
    NothingIsPaid(s', 0);
  }

  lemma NothingIsPaid(s: Store, c: CourtId)
    requires c in s.courts && s.courts[c].status.Closed? && MapSum(s.free) == 0
    ensures ReassignCourtStakes(s, c).Ok? && forall a :: GetOr(ReassignCourtStakes(s, c).value.free, a) == 0
  {
    ReassignConserves(s.cfg, s.cfg.rewardPot(c), s.reg.participants, s.free, DrawsOf(s, c), s.courts[c].status.winner);
    forall a ensures GetOr(ReassignCourtStakes(s, c).value.free, a) == 0 {
      NobodyHasMore(ReassignCourtStakes(s, c).value.free, a);
    }
  }

  lemma NobodyHasMore(free: Free, a: AccountId)
    ensures GetOr(free, a) <= MapSum(free)
  {
    if a in free {
      MapSumSplit(free, a);
    }
  }

  // ---------- at risk and gone ----------

  lemma AtRiskInOneCourt(s: Store, c: CourtId, a: AccountId)
    requires IsOpen(s, c) && forall k :: IsOpen(s, k) && k != c ==> SlashableOf(DrawsOf(s, k), a) == 0
    ensures OpenSlashable(s, a) == SlashableOf(DrawsOf(s, c), a)
  {
    MapSumSplit(OpenTable(s, a), c);
    forall k | k in OpenTable(s, a) - {c} ensures (OpenTable(s, a) - {c})[k] == 0 {
      assert IsOpen(s, k);
    }
    MapSumZero(OpenTable(s, a) - {c});
  }

  /** Account 1 is at risk in the open second court and nothing is locked any more. */
  ghost predicate ReleasedAtRisk(s: Store, amount: Balance) {
    && FreeToGo(s, 1) && IsOpen(s, 1) && SlashableOf(DrawsOf(s, 1), 1) == amount
  }

  /** The lock of account 1 after the first of two cases is resolved is what the second one can slash. */
  lemma LockedBySecond(s: Store)
    requires Setting(s, 2)
    ensures OpenCase(s, 0) && Exact(Resolved(s)) && IsOpen(Resolved(s), 1)
    ensures Lock(Resolved(s).reg.participants, 1) == SlashableOf(DrawsOf(s, 1), 1)
  {
    CaseResolves(s, 2);
    assert OpenCase(s, 1);
    var s' := Resolved(s);
    forall k: CourtId | IsOpen(s', k) ensures k == 1 {
      assert k in s.courts && k < s.nextCourtId;
    }
    AtRiskInOneCourt(s', 1, 1);
    assert Lock(s'.reg.participants, 1) == OpenSlashable(s', 1);
  }

  lemma ReassignedIsReleased(s: Store, amount: Balance)
    requires StoreOk(s) && s.inflation == 0 && 0 in s.courts && s.courts[0].status.Closed? && IsOpen(s, 1)
    requires SlashableOf(DrawsOf(s, 0), 1) == amount && SlashableOf(DrawsOf(s, 1), 1) == amount
    requires Lock(s.reg.participants, 1) == amount && InPool(s.reg.pool, 1)
    ensures ReassignCourtStakes(s, 0).Ok? && ReleasedAtRisk(ReassignCourtStakes(s, 0).value, amount)
  {
    var s' := ReassignCourtStakes(s, 0).value;
    ReassignKeepsStore(s, 0);
    ReassignEffect(s, 0, 1);
    ReassignedElsewhere(s, 0, 1);
    InPoolIsStaying(s'.cfg, s'.reg, 1);
  }

  lemma ReassignedElsewhere(s: Store, c: CourtId, k: CourtId)
    requires ReassignCourtStakes(s, c).Ok? && IsOpen(s, k)
    ensures var s' := ReassignCourtStakes(s, c).value;
            && IsOpen(s', k) && DrawsOf(s', k) == DrawsOf(s, k) && s'.reg.pool == s.reg.pool
            && s'.inflation == s.inflation && s'.cfg == s.cfg
  {}

  /** What two first rounds on a lone juror leave. */
  ghost predicate DrawnTwice(s: Store, amount: Balance) {
    && Setting(s, 2) && InPool(s.reg.pool, 1)
    && SlashableOf(DrawsOf(s, 0), 1) == amount && SlashableOf(DrawsOf(s, 1), 1) == amount
  }

  lemma ReassignedAtRisk(s: Store, amount: Balance)
    requires DrawnTwice(s, amount)
    ensures OpenCase(s, 0) && Apply(s, Resolve(0)) == Resolved(s) && ReassignCourtStakes(Resolved(s), 0).Ok?
    ensures ReleasedAtRisk(ReassignCourtStakes(Resolved(s), 0).value, amount)
  {
    CaseResolves(s, 2);
    LockedBySecond(s);
    ReassignedIsReleased(Resolved(s), amount);
  }

  lemma ReassignApplies(s: Store, c: CourtId)
    requires s.cfg.minJurorStake > 0 && ReassignCourtStakes(s, c).Ok?
    ensures Apply(s, ReassignStakes(c)) == ReassignCourtStakes(s, c).value
  {}

  lemma ThenReleased(s0: Store, steps: seq<Step>, amount: Balance)
    requires s0.cfg.minJurorStake > 0 && DrawnTwice(After(s0, steps), amount)
    ensures ReleasedAtRisk(After(s0, steps + [Resolve(0)] + [ReassignStakes(0)]), amount)
  {
    OneMoreStep(s0, steps, Resolve(0));
    OneMoreStep(s0, steps + [Resolve(0)], ReassignStakes(0));
    ReassignedAtRisk(After(s0, steps), amount);
    ReassignApplies(Resolved(After(s0, steps)), 0);
  }

  lemma ThenDrawnTwice(s0: Store, steps: seq<Step>, rng: Rng, rng': Rng)
    requires s0.cfg.minJurorStake > 0 && s0.cfg.cacheSize >= 2 && LoneJuror(After(s0, steps), 0, 62)
    ensures DrawnTwice(After(s0, steps + [Dispute(0, rng)] + [Dispute(1, rng')]), 31 * s0.cfg.minJurorStake)
  {
    ThenDispute(s0, steps, 0, 62, rng);
    ThenDispute(s0, steps + [Dispute(0, rng)], 1, 31, rng');
  }

  /** Account 1 has left for good, with this amount at risk in the open second court and nothing locked. */
  ghost predicate GoneAtRisk(s: Store, amount: Balance) {
    && IsOpen(s, 1) && SlashableOf(DrawsOf(s, 1), 1) == amount
    && 1 !in s.reg.participants && GetOr(s.reg.locks, 1) == 0
  }

  lemma ThenGoneAtRisk(s0: Store, steps: seq<Step>, rng: Rng, rng': Rng)
    requires s0.cfg.minJurorStake > 0 && s0.cfg.cacheSize >= 2 && LoneJuror(After(s0, steps), 0, 62)
    ensures var all := steps + [Dispute(0, rng)] + [Dispute(1, rng')] + [Resolve(0)] + [ReassignStakes(0)];
            GoneAtRisk(After(s0, Leaving(s0.cfg, all, 1)), 31 * s0.cfg.minJurorStake)
  {
    ThenDrawnTwice(s0, steps, rng, rng');
    var drawn := steps + [Dispute(0, rng)] + [Dispute(1, rng')];
    ThenReleased(s0, drawn, 31 * s0.cfg.minJurorStake);
    LeavesForGood(s0, drawn + [Resolve(0)] + [ReassignStakes(0)], 1);
  }

  /** The second release by `reassign_court_stakes` lets a juror walk out of an open court with a whole round at risk
      and nothing locked. */
  lemma JurorLeavesAtRisk(cfg: Config, rng: Rng, rng': Rng)
    requires cfg.Sound() && cfg.cacheSize >= 2
    ensures var m := cfg.minJurorStake;
            var all := [Join(1, 62 * m), Dispute(0, rng), Dispute(1, rng'), Resolve(0), ReassignStakes(0)];
            GoneAtRisk(After(Genesis(cfg, map[1 := 62 * m], TwoCases(), 0), Leaving(cfg, all, 1)), 31 * m)
  {
    var m := cfg.minJurorStake;
    FirstJoin(cfg, map[1 := 62 * m], 62);
    ThenGoneAtRisk(Genesis(cfg, map[1 := 62 * m], TwoCases(), 0), [Join(1, 62 * m)], rng, rng');
    FiveSteps(Join(1, 62 * m), Dispute(0, rng), Dispute(1, rng'), Resolve(0), ReassignStakes(0));
  }

  // ---------- drawn through a delegator only ----------

  /** Juror 1 without sections left and its delegator 2 with 31 of them; the first case is open. */
  ghost predicate SpentAndBacked(s: Store) {
    && Setting(s, 1) && |s.reg.pool| == 2
    && (exists stake: Balance :: Holds(s.reg.pool, 1, stake, stake))
    && Holds(s.reg.pool, 2, 31 * s.cfg.minJurorStake, 0)
    && 1 in s.reg.participants && 2 in s.reg.participants && (forall a :: a in s.reg.participants ==> a == 1 || a == 2)
    && s.reg.participants[1].delegations.None? && s.reg.participants[2].delegations == Some([1])
  }

  lemma SpentPosition(s: Store) returns (p: nat)
    requires SpentAndBacked(s)
    ensures var pool := s.reg.pool;
            && p < 2 && pool[p].who == 1 && Unconsumed(pool[p]) == 0
            && pool[1 - p].who == 2 && Unconsumed(pool[1 - p]) == 31 * s.cfg.minJurorStake
  {
    var pool := s.reg.pool;
    var stake: Balance :| Holds(pool, 1, stake, stake);
    var i :| 0 <= i < |pool| && pool[i].who == 1 && pool[i].stake == stake && pool[i].consumed == stake;
    var j :| 0 <= j < |pool| && pool[j].who == 2 && pool[j].stake == 31 * s.cfg.minJurorStake && pool[j].consumed == 0;
    assert j == 1 - i;
    p := i;
  }

  lemma SpentCanDraw(s: Store)
    requires SpentAndBacked(s)
    ensures CanDraw(s, 0)
  {
    var p := SpentPosition(s);
    PairPool(s.reg.pool, s.cfg.minJurorStake, if p == 0 then 0 else 31, if p == 0 then 31 else 0);
    LookupMatchesScan(s.cfg, s.reg, 1);
    assert ActiveJuror(s.reg.pool, s.reg.participants, 1);
    assert 1 in s.reg.participants[2].delegations.value;
  }

  /** Somebody has weight in draws with a positive total weight. */
  lemma {:induction false} SomebodyHasWeight(draws: seq<Draw>) returns (i: nat)
    requires SumWeights(draws) > 0
    ensures i < |draws| && draws[i].weight > 0
  {
    if draws[0].weight > 0 {
      i := 0;
    } else {
      i := SomebodyHasWeight(draws[1..]);
      i := i + 1;
    }
  }

  /** Account 1 votes with all the weight and has nothing at risk. */
  predicate IdleJuror(draws: seq<Draw>) {
    SlashableOf(draws, 1) == 0 && exists i :: 0 <= i < |draws| && draws[i].who == 1 && draws[i].weight > 0
  }

  lemma SpentIsNotCharged(s: Store, p: nat, rng: Rng)
    requires SpentAndBacked(s) && p < 2 && Unconsumed(s.reg.pool[p]) == 0
    requires NecessaryDrawsWeight(0) * s.cfg.minJurorStake <= TotalUnconsumed(s.reg.pool, s.cfg.minJurorStake)
    ensures var slots := DrawnSlots(s.cfg, s.reg, NecessaryDrawsWeight(0), rng);
            Charged(s.cfg.minJurorStake, slots, |slots|, p) == 0
  {
    DrawnSlotsInBounds(s.cfg, s.reg, NecessaryDrawsWeight(0), rng);
  }

  lemma SpentChoice(s: Store, rng: Rng)
    requires SpentAndBacked(s)
    ensures SelectParticipants(s.cfg, s.reg, 0, rng).Ok?
    ensures var c := SelectParticipants(s.cfg, s.reg, 0, rng).value;
            InPool(c.reg.pool, 1) && SlashableOf(c.draws, 1) == 0
  {
    SpentCanDraw(s);
    var p := SpentPosition(s);
    RoundIsDrawn(s, 0, rng);
    NobodyStrandedDrawSucceeds(s.cfg, s.reg, NecessaryDrawsWeight(0), rng);
    SpentIsNotCharged(s, p, rng);
    PoolOfDraw(s.cfg, s.reg, NecessaryDrawsWeight(0), rng);
    SlashableOfDraw(s.cfg, s.reg, NecessaryDrawsWeight(0), rng, p);
  }

  /** All weight of a choice among juror 1 and delegator 2 falls on the juror. */
  lemma JurorHasTheWeight(cfg: Config, reg: Registry, c: Choice)
    requires ChoiceOk(cfg, reg, NecessaryDrawsWeight(0), c) && c.lost == 0
    requires forall a :: a in reg.participants ==> a == 1 || (a == 2 && reg.participants[2].delegations.Some?)
    ensures exists i :: 0 <= i < |c.draws| && c.draws[i].who == 1 && c.draws[i].weight > 0
  {
    var i := SomebodyHasWeight(c.draws);
    assert DrawOk(c.draws[i]);
    assert c.draws[i].who in c.reg.participants;
    assert DiffersInLockOnly(reg.participants[c.draws[i].who], c.reg.participants[c.draws[i].who]);
  }

  lemma SpentIsDrawn(s: Store, rng: Rng)
    requires SpentAndBacked(s) && s.cfg.cacheSize >= 2
    ensures var s' := Apply(s, Dispute(1, rng));
            Setting(s', 2) && InPool(s'.reg.pool, 1) && IdleJuror(DrawsOf(s', 1))
  {
    SpentCanDraw(s);
    var s', choice := NextCase(s, 1, rng);
    SpentChoice(s, rng);
    IdleChoice(s, rng);
  }

  lemma IdleChoice(s: Store, rng: Rng)
    requires SpentAndBacked(s) && CanDraw(s, 0) && SelectParticipants(s.cfg, s.reg, 0, rng).Ok?
    ensures var draws := SelectParticipants(s.cfg, s.reg, 0, rng).value.draws;
            exists i :: 0 <= i < |draws| && draws[i].who == 1 && draws[i].weight > 0
  {
    RoundIsDrawn(s, 0, rng);
    NobodyStrandedDrawSucceeds(s.cfg, s.reg, NecessaryDrawsWeight(0), rng);
    JurorHasTheWeight(s.cfg, s.reg, SelectParticipants(s.cfg, s.reg, 0, rng).value);
  }

  lemma ThenSpentIsDrawn(s0: Store, steps: seq<Step>, rng: Rng)
    requires s0.cfg.minJurorStake > 0 && SpentAndBacked(After(s0, steps)) && s0.cfg.cacheSize >= 2
    ensures var s' := After(s0, steps + [Dispute(1, rng)]);
            Setting(s', 2) && InPool(s'.reg.pool, 1) && IdleJuror(DrawsOf(s', 1))
  {
    OneMoreStep(s0, steps, Dispute(1, rng));
    SpentIsDrawn(After(s0, steps), rng);
  }

  lemma SpentHolds(s: Store)
    requires LoneJuror(s, 1, 0)
    ensures InPool(s.reg.pool, 1) && exists stake: Balance :: Holds(s.reg.pool, 1, stake, stake)
  {
    assert Agrees(s.cfg, s.reg.pool[0], s.reg.participants[1]);
    assert Holds(s.reg.pool, 1, s.reg.pool[0].stake, s.reg.pool[0].stake);
  }

  lemma ThenSpent(s0: Store, steps: seq<Step>, amount: Balance)
    requires s0.cfg.minJurorStake > 0 && LoneJuror(After(s0, steps), 1, 0) && amount == 31 * s0.cfg.minJurorStake
    requires s0.cfg.maxCourtParticipants >= 2 && s0.cfg.maxDelegations >= 1 && amount <= GetOr(After(s0, steps).free, 2)
    ensures SpentAndBacked(After(s0, steps + [JoinAsDelegator(2, amount, [1])]))
  {
    SpentHolds(After(s0, steps));
    ThenDelegates(s0, steps, 1, 2, amount, 1);
  }

  /** Account 1 has left for good, and yet votes in the open second court. */
  ghost predicate GoneButDrawn(s: Store) {
    && Tight(s) && IsOpen(s, 1) && 1 !in s.reg.participants && IdleJuror(DrawsOf(s, 1))
  }

  lemma ThenIdleAndGone(s0: Store, steps: seq<Step>)
    requires s0.cfg.minJurorStake > 0
    requires var s := After(s0, steps); Setting(s, 2) && InPool(s.reg.pool, 1) && IdleJuror(DrawsOf(s, 1))
    ensures GoneButDrawn(After(s0, Leaving(s0.cfg, steps + [Resolve(0)], 1)))
  {
    ThenSetFree(s0, steps, 2, 1);
    assert IsOpen(After(s0, steps + [Resolve(0)]), 1);
    LeavesForGood(s0, steps + [Resolve(0)], 1);
  }

  lemma ThenGoneButDrawn(s0: Store, steps: seq<Step>, amount: Balance, rng: Rng, rng': Rng)
    requires s0.cfg.minJurorStake > 0 && LoneJuror(After(s0, steps), 0, 31) && amount == 31 * s0.cfg.minJurorStake
    requires s0.cfg.cacheSize >= 2 && s0.cfg.maxCourtParticipants >= 2 && s0.cfg.maxDelegations >= 1
    requires amount <= GetOr(After(s0, steps).free, 2)
    ensures var all := steps + [Dispute(0, rng)] + [JoinAsDelegator(2, amount, [1])] +
                       [Dispute(1, rng')] + [Resolve(0)];
            GoneButDrawn(After(s0, Leaving(s0.cfg, all, 1)))
  {
    ThenDispute(s0, steps, 0, 31, rng);
    var disputed := steps + [Dispute(0, rng)];
    ThenSpent(s0, disputed, amount);
    var backed := disputed + [JoinAsDelegator(2, amount, [1])];
    ThenSpentIsDrawn(s0, backed, rng');
    ThenIdleAndGone(s0, backed + [Dispute(1, rng')]);
  }

  lemma FiveSteps(a: Step, b: Step, c: Step, d: Step, e: Step)
    ensures [a] + [b] + [c] + [d] + [e] == [a, b, c, d, e]
  {}

  /** A juror who is drawn only through a delegator has nothing at risk, and so can leave while the court is open: the
      release of the court's draws then meets an account that is not registered. */
  lemma DrawnJurorLeavesOpenCourt(cfg: Config, rng: Rng, rng': Rng)
    requires cfg.Sound() && cfg.cacheSize >= 2 && cfg.maxCourtParticipants >= 2 && cfg.maxDelegations >= 1
    ensures var m := cfg.minJurorStake;
            var all := [Join(1, 31 * m), Dispute(0, rng), JoinAsDelegator(2, 31 * m, [1]), Dispute(1, rng'),
                        Resolve(0)];
            GoneButDrawn(After(Genesis(cfg, map[1 := 31 * m, 2 := 31 * m], TwoCases(), 0), Leaving(cfg, all, 1)))
  {
    var m := cfg.minJurorStake;
    var free := map[1 := 31 * m, 2 := 31 * m];
    FirstJoin(cfg, free, 31);
    ThenGoneButDrawn(Genesis(cfg, free, TwoCases(), 0), [Join(1, 31 * m)], 31 * m, rng, rng');
    FiveSteps(Join(1, 31 * m), Dispute(0, rng), JoinAsDelegator(2, 31 * m, [1]), Dispute(1, rng'), Resolve(0));
  }
}
