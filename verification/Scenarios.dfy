/** Building blocks for concrete runs from the first block on. */
module Scenarios {
  import opened Collections
  import opened AutoResolve
  import opened CourtTypes
  import opened JurorPool
  import opened Selection
  import opened SelectionProofs
  import opened DrawTheorem
  import opened StrandedDelegators
  import opened CourtMachine
  import opened CourtSafety
  import opened CourtLocks
  import SectionDraw
  import Verdict

  // ---------- runs, one step at a time ----------

  /** The state after all steps. */
  function After(s: Store, steps: seq<Step>): Store
    requires s.cfg.minJurorStake > 0
  {
    Run(s, steps, |steps|)
  }

  lemma {:induction false} RunPrefix(s: Store, steps: seq<Step>, more: seq<Step>, n: nat)
    requires s.cfg.minJurorStake > 0 && n <= |steps|
    ensures Run(s, steps + more, n) == Run(s, steps, n)
  {
    if n > 0 {
      RunPrefix(s, steps, more, n - 1);
    }
  }

  lemma OneMoreStep(s: Store, steps: seq<Step>, step: Step)
    requires s.cfg.minJurorStake > 0
    ensures After(s, steps + [step]) == Apply(After(s, steps), step)
  {
    RunPrefix(s, steps, [step], |steps|);
  }

  /** Blocks that only let time pass. */
  function Blocks(k: nat): seq<Step> {
    if k == 0 then [] else Blocks(k - 1) + [NextBlock]
  }

  lemma {:induction false} BlocksPass(s: Store, steps: seq<Step>, k: nat)
    requires s.cfg.minJurorStake > 0 && After(s, steps).inflation == 0
    ensures var s', was := After(s, steps + Blocks(k)), After(s, steps);
            && s' == was.(now := was.now + k, requestBlock := s'.requestBlock)
            && (was.now < was.requestBlock && s.cfg.requestInterval > 0 ==> s'.now < s'.requestBlock)
  {
    if k == 0 {
      assert steps + Blocks(0) == steps;
    } else {
      BlocksPass(s, steps, k - 1);
      assert steps + Blocks(k) == (steps + Blocks(k - 1)) + [NextBlock];
      OneMoreStep(s, steps + Blocks(k - 1), NextBlock);
      var was := After(s, steps + Blocks(k - 1));
      assert Apply(was, NextBlock) == OnInitialize(was);
    }
  }

  // ---------- the setting ----------

  /** A disputed market that the court resolves. */
  function CourtCase(): Market {
    Market(CategoricalMarket(2), true, true, Some(Categorical(0)), 0, 0)
  }

  function TwoCases(): map<MarketId, Market> {
    map[0 := CourtCase(), 1 := CourtCase()]
  }

  /** Court `c` was opened for market `c`, is still open, and nobody has voted. */
  predicate OpenCase(s: Store, c: CourtId) {
    && IsOpen(s, c) && s.courts[c].appeals == []
    && c in s.courtOf && s.courtOf[c] == c && c in s.marketOf && s.marketOf[c] == c
    && c in s.draws && Fresh(s.draws[c])
  }

  /** A sound state with exact locks in which the first `cases` cases are open and nothing else is scheduled. */
  ghost predicate Setting(s: Store, cases: nat) {
    && Tight(s) && s.markets == TwoCases() && s.inflation == 0
    && s.nextCourtId == cases <= 2
    && (forall b :: |IdsAt(s.schedule, b)| <= cases)
    && (forall c :: 0 <= c < cases ==> OpenCase(s, c))
  }

  lemma GenesisIsSetting(cfg: Config, free: map<AccountId, Balance>)
    requires cfg.Sound()
    ensures var s := Genesis(cfg, free, TwoCases(), 0);
            Setting(s, 0) && s.free == free && s.reg == Registry([], map[], map[]) && s.cfg == cfg
  {
    GenesisIsSafe(cfg, free, TwoCases(), 0);
    GenesisIsExact(cfg, free, TwoCases(), 0);
  }

  lemma RegistryKeepsSetting(s: Store, cases: nat, reg: Registry)
    requires Setting(s, cases) && Tight(s.(reg := reg))
    ensures Setting(s.(reg := reg), cases)
  {
    forall c | 0 <= c < cases ensures OpenCase(s.(reg := reg), c) {
      assert OpenCase(s, c);
    }
  }

  // ---------- joining and leaving ----------

  /** The pool holds an item of this account with this stake and consumed stake. */
  predicate Holds(pool: seq<PoolItem>, who: AccountId, stake: Balance, consumed: Balance) {
    exists i :: 0 <= i < |pool| && pool[i].who == who && pool[i].stake == stake && pool[i].consumed == consumed
  }

  lemma InsertKeeps(pool: seq<PoolItem>, i: nat, item: PoolItem, who: AccountId, stake: Balance, consumed: Balance)
    requires i <= |pool| && Holds(pool, who, stake, consumed)
    ensures Holds(InsertAt(pool, i, item), who, stake, consumed)
  {
    var k :| 0 <= k < |pool| && pool[k].who == who && pool[k].stake == stake && pool[k].consumed == consumed;
    var pool' := InsertAt(pool, i, item);
    assert pool'[if k < i then k else k + 1] == pool[k];
  }

  lemma InsertAdds(pool: seq<PoolItem>, i: nat, item: PoolItem)
    requires i <= |pool|
    ensures Holds(InsertAt(pool, i, item), item.who, item.stake, item.consumed)
  {
    assert InsertAt(pool, i, item)[i] == item;
  }

  lemma RemoveKeeps(pool: seq<PoolItem>, i: nat, who: AccountId, stake: Balance, consumed: Balance)
    requires i < |pool| && Holds(pool, who, stake, consumed) && pool[i].who != who
    ensures Holds(RemoveAt(pool, i), who, stake, consumed)
  {
    var k :| 0 <= k < |pool| && pool[k].who == who && pool[k].stake == stake && pool[k].consumed == consumed;
    var pool' := RemoveAt(pool, i);
    assert pool'[if k < i then k else k - 1] == pool[k];
  }

  /** What a newcomer's join leaves: one item more, all others as they were. */
  ghost predicate Grown(reg: Registry, reg': Registry, who: AccountId, stake: Balance,
                        delegations: Option<seq<AccountId>>) {
    && |reg'.pool| == |reg.pool| + 1 && Holds(reg'.pool, who, stake, 0)
    && (forall a, b, c :: Holds(reg.pool, a, b, c) ==> Holds(reg'.pool, a, b, c))
    && reg'.participants == reg.participants[who := Participant(stake, 0, None, delegations)]
  }

  lemma NewcomerGrows(cfg: Config, reg: Registry, who: AccountId, amount: Balance, delegations: Option<seq<AccountId>>,
                      free: Balance, now: Block)
    requires cfg.Sound() && RegistryOk(cfg, reg)
    requires who !in reg.participants && |reg.pool| < cfg.maxCourtParticipants && cfg.minJurorStake <= amount <= free
    ensures var r := DoJoinCourt(cfg, reg, who, amount, delegations, free, now);
            r.Ok? && Grown(reg, r.value, who, amount, delegations)
  {
    var i, item := NewcomerJoins(cfg, reg, who, amount, delegations, free, now);
    InsertAdds(reg.pool, i, item);
    forall a, b, c | Holds(reg.pool, a, b, c) ensures Holds(InsertAt(reg.pool, i, item), a, b, c) {
      InsertKeeps(reg.pool, i, item, a, b, c);
    }
  }

  lemma NewcomerJoinsCourt(s: Store, cases: nat, who: AccountId, amount: Balance)
    requires Setting(s, cases) && who !in s.reg.participants && |s.reg.pool| < s.cfg.maxCourtParticipants
    requires s.cfg.minJurorStake <= amount <= GetOr(s.free, who)
    ensures var s' := Apply(s, Join(who, amount));
            && Setting(s', cases) && s' == s.(reg := s'.reg)
            && Grown(s.reg, s'.reg, who, amount, None)
  {
    NewcomerGrows(s.cfg, s.reg, who, amount, None, GetOr(s.free, who), s.now);
    StepKeepsTight(s, Join(who, amount));
    RegistryKeepsSetting(s, cases, Apply(s, Join(who, amount)).reg);
  }

  /** Delegating to one juror of the pool. */
  lemma OneDelegate(cfg: Config, reg: Registry, who: AccountId, amount: Balance, juror: AccountId, free: Balance,
                    now: Block)
    requires RegistryOk(cfg, reg) && cfg.maxDelegations >= 1 && juror != who
    requires juror in reg.participants && InPool(reg.pool, juror) && reg.participants[juror].delegations.None?
    ensures DoDelegate(cfg, reg, who, amount, [juror], free, now) ==
            DoJoinCourt(cfg, reg, who, amount, Some([juror]), free, now)
  {
    LookupMatchesScan(cfg, reg, juror);
    OneElement(juror);
  }

  lemma OneElement(a: AccountId)
    ensures SortedSeq(Elements([a])) == [a]
  {
    var r := SortedSeq(Elements([a]));
    assert Elements([a]) == {a};
    assert |r| == 1 && r[0] in r;
  }

  lemma NewcomerDelegates(s: Store, cases: nat, who: AccountId, amount: Balance, juror: AccountId)
    requires Setting(s, cases) && who !in s.reg.participants && |s.reg.pool| < s.cfg.maxCourtParticipants
    requires s.cfg.minJurorStake <= amount <= GetOr(s.free, who) && s.cfg.maxDelegations >= 1
    requires juror in s.reg.participants && InPool(s.reg.pool, juror) && s.reg.participants[juror].delegations.None?
    ensures var s' := Apply(s, JoinAsDelegator(who, amount, [juror]));
            && Setting(s', cases) && s' == s.(reg := s'.reg)
            && Grown(s.reg, s'.reg, who, amount, Some([juror]))
  {
    OneDelegate(s.cfg, s.reg, who, amount, juror, GetOr(s.free, who), s.now);
    NewcomerGrows(s.cfg, s.reg, who, amount, Some([juror]), GetOr(s.free, who), s.now);
    StepKeepsTight(s, JoinAsDelegator(who, amount, [juror]));
    RegistryKeepsSetting(s, cases, Apply(s, JoinAsDelegator(who, amount, [juror])).reg);
  }

  /** What preparing to exit leaves: one item less, all others as they were. */
  ghost predicate Shrunk(reg: Registry, reg': Registry, who: AccountId, now: Block)
    requires who in reg.participants
  {
    && |reg'.pool| == |reg.pool| - 1 && !InPool(reg'.pool, who)
    && (forall a, b, c :: a != who && Holds(reg.pool, a, b, c) ==> Holds(reg'.pool, a, b, c))
    && reg'.participants == reg.participants[who := reg.participants[who].(prepareExitAt := Some(now))]
  }

  lemma MemberLeaves(cfg: Config, reg: Registry, who: AccountId, now: Block)
    requires RegistryOk(cfg, reg) && who in reg.participants && InPool(reg.pool, who)
    ensures DoPrepareExit(reg, who, now).Ok? && Shrunk(reg, DoPrepareExit(reg, who, now).value, who, now)
  {
    LookupMatchesScan(cfg, reg, who);
    var i := GetPoolItem(reg.pool, reg.participants[who].stake, who).value;
    assert Agrees(cfg, reg.pool[i], reg.participants[who]);
    PrepareExitKeepsRegistry(cfg, reg, who, now);
    forall a, b, c | a != who && Holds(reg.pool, a, b, c) ensures Holds(RemoveAt(reg.pool, i), a, b, c) {
      RemoveKeeps(reg.pool, i, a, b, c);
    }
  }

  lemma MemberLeavesPool(s: Store, cases: nat, who: AccountId)
    requires Setting(s, cases) && who in s.reg.participants && InPool(s.reg.pool, who)
    ensures var s' := Apply(s, PrepareExit(who));
            && Setting(s', cases) && s' == s.(reg := s'.reg)
            && Shrunk(s.reg, s'.reg, who, s.now)
  {
    MemberLeaves(s.cfg, s.reg, who, s.now);
    StepKeepsTight(s, PrepareExit(who));
    RegistryKeepsSetting(s, cases, Apply(s, PrepareExit(who)).reg);
  }

  // ---------- the same along a run ----------

  lemma ThenJoins(s0: Store, steps: seq<Step>, cases: nat, who: AccountId, amount: Balance)
    requires s0.cfg.minJurorStake > 0
    requires var s := After(s0, steps);
             && Setting(s, cases) && who !in s.reg.participants && |s.reg.pool| < s.cfg.maxCourtParticipants
             && s.cfg.minJurorStake <= amount <= GetOr(s.free, who)
    ensures var s, s' := After(s0, steps), After(s0, steps + [Join(who, amount)]);
            Setting(s', cases) && s' == s.(reg := s'.reg) && Grown(s.reg, s'.reg, who, amount, None)
  {
    OneMoreStep(s0, steps, Join(who, amount));
    NewcomerJoinsCourt(After(s0, steps), cases, who, amount);
  }

  lemma ThenDelegates(s0: Store, steps: seq<Step>, cases: nat, who: AccountId, amount: Balance, juror: AccountId)
    requires s0.cfg.minJurorStake > 0
    requires var s := After(s0, steps);
             && Setting(s, cases) && who !in s.reg.participants && |s.reg.pool| < s.cfg.maxCourtParticipants
             && s.cfg.minJurorStake <= amount <= GetOr(s.free, who) && s.cfg.maxDelegations >= 1
             && juror in s.reg.participants && InPool(s.reg.pool, juror) && s.reg.participants[juror].delegations.None?
    ensures var s, s' := After(s0, steps), After(s0, steps + [JoinAsDelegator(who, amount, [juror])]);
            Setting(s', cases) && s' == s.(reg := s'.reg) && Grown(s.reg, s'.reg, who, amount, Some([juror]))
  {
    OneMoreStep(s0, steps, JoinAsDelegator(who, amount, [juror]));
    NewcomerDelegates(After(s0, steps), cases, who, amount, juror);
  }

  lemma ThenLeaves(s0: Store, steps: seq<Step>, cases: nat, who: AccountId)
    requires s0.cfg.minJurorStake > 0
    requires var s := After(s0, steps);
             Setting(s, cases) && who in s.reg.participants && InPool(s.reg.pool, who)
    ensures var s, s' := After(s0, steps), After(s0, steps + [PrepareExit(who)]);
            Setting(s', cases) && s' == s.(reg := s'.reg) && Shrunk(s.reg, s'.reg, who, s.now)
  {
    OneMoreStep(s0, steps, PrepareExit(who));
    MemberLeavesPool(After(s0, steps), cases, who);
  }

  // ---------- opening courts ----------

  /** Enough stake for the draw after this many appeals and nobody stranded. */
  ghost predicate CanDraw(s: Store, appeals: nat)
    requires s.cfg.minJurorStake > 0
  {
    && NecessaryDrawsWeight(appeals) * s.cfg.minJurorStake <= TotalUnconsumed(s.reg.pool, s.cfg.minJurorStake)
    && forall i :: 0 <= i < |s.reg.pool| ==> !Stranded(s.reg, s.reg.pool[i].who)
  }

  lemma RoundIsDrawn(s: Store, appeals: nat, rng: Rng)
    requires StoreOk(s) && CanDraw(s, appeals) && appeals < s.cfg.maxAppeals
    ensures SelectParticipants(s.cfg, s.reg, appeals, rng).Ok? && LosesNothing(s, appeals, rng)
    ensures SelectParticipants(s.cfg, s.reg, appeals, rng) ==
            ChooseMultipleWeighted(s.cfg, s.reg, NecessaryDrawsWeight(appeals), rng)
    ensures ChoiceOk(s.cfg, s.reg, NecessaryDrawsWeight(appeals), SelectParticipants(s.cfg, s.reg, appeals, rng).value)
  {
    NobodyStrandedDrawSucceeds(s.cfg, s.reg, NecessaryDrawsWeight(appeals), rng);
    NothingIsTruncated(s.cfg, s.reg, appeals, rng);
  }

  lemma AddLengthens(cacheSize: nat, schedule: Schedule, m: MarketId, at: Block, n: nat)
    requires AddEntry(cacheSize, schedule, m, at).Some? && forall b :: |IdsAt(schedule, b)| <= n
    ensures forall b :: |IdsAt(AddEntry(cacheSize, schedule, m, at).value, b)| <= n + 1
  {
    forall b ensures |IdsAt(AddEntry(cacheSize, schedule, m, at).value, b)| <= n + 1 {
      assert |IdsAt(schedule, b)| <= n;
    }
  }

  lemma DisputeIs(s: Store, m: MarketId, rng: Rng, schedule: Schedule)
    requires s.cfg.minJurorStake > 0 && m in s.markets && s.markets[m].usesCourt
             && SelectParticipants(s.cfg, s.reg, 0, rng).Ok?
    requires AddEntry(s.cfg.cacheSize, s.schedule, m, NewCourt(s.cfg, s.requestBlock).roundEnds.appeal) ==
             Some(schedule)
    ensures OnDispute(s, m, rng) ==
            Ok(CourtOpened(s, m, NewCourt(s.cfg, s.requestBlock), SelectParticipants(s.cfg, s.reg, 0, rng).value,
                           schedule))
  {
    assert AddAutoResolve(s.cfg, s.schedule, m, NewCourt(s.cfg, s.requestBlock).roundEnds.appeal) == Ok(schedule);
  }

  /** The schedule once one more case is open. */
  function CaseSchedule(s: Store, m: MarketId): Schedule {
    match AddEntry(s.cfg.cacheSize, s.schedule, m, NewCourt(s.cfg, s.requestBlock).roundEnds.appeal)
    case None => map[]
    case Some(schedule) => schedule
  }

  lemma CaseFits(s: Store, cases: nat)
    requires cases < s.cfg.cacheSize && forall b :: |IdsAt(s.schedule, b)| <= cases
    ensures AddEntry(s.cfg.cacheSize, s.schedule, cases, NewCourt(s.cfg, s.requestBlock).roundEnds.appeal)
            == Some(CaseSchedule(s, cases))
    ensures forall b :: |IdsAt(CaseSchedule(s, cases), b)| <= cases + 1
  {
    var at := NewCourt(s.cfg, s.requestBlock).roundEnds.appeal;
    assert |IdsAt(s.schedule, at)| <= cases;
    AddLengthens(s.cfg.cacheSize, s.schedule, cases, at, cases);
  }

  /** The state once one more case is open. */
  function CaseOpened(s: Store, m: MarketId, rng: Rng): Store
    requires s.cfg.minJurorStake > 0 && SelectParticipants(s.cfg, s.reg, 0, rng).Ok?
  {
    CourtOpened(s, m, NewCourt(s.cfg, s.requestBlock), SelectParticipants(s.cfg, s.reg, 0, rng).value,
                CaseSchedule(s, m))
  }

  lemma CaseIsAccepted(s: Store, cases: nat, rng: Rng)
    requires s.cfg.minJurorStake > 0 && cases in s.markets && s.markets[cases].usesCourt
    requires SelectParticipants(s.cfg, s.reg, 0, rng).Ok?
    requires cases < s.cfg.cacheSize && forall b :: |IdsAt(s.schedule, b)| <= cases
    ensures OnDispute(s, cases, rng) == Ok(CaseOpened(s, cases, rng))
  {
    CaseFits(s, cases);
    DisputeIs(s, cases, rng, CaseSchedule(s, cases));
  }

  lemma CaseIsTight(s: Store, cases: nat, rng: Rng)
    requires Tight(s) && CanDraw(s, 0) && cases in s.markets && s.markets[cases].usesCourt
    requires cases < s.cfg.cacheSize && forall b :: |IdsAt(s.schedule, b)| <= cases
    ensures SelectParticipants(s.cfg, s.reg, 0, rng).Ok?
    ensures OnDispute(s, cases, rng) == Ok(CaseOpened(s, cases, rng)) && Tight(CaseOpened(s, cases, rng))
    ensures Fresh(SelectParticipants(s.cfg, s.reg, 0, rng).value.draws)
  {
    RoundIsDrawn(s, 0, rng);
    CaseIsAccepted(s, cases, rng);
    DisputeKeepsExact(s, cases, rng);
    DisputeKeepsStore(s, cases, rng);
  }

  lemma CaseOpens(s: Store, cases: nat, rng: Rng)
    requires Setting(s, cases) && cases < 2 && cases < s.cfg.cacheSize && CanDraw(s, 0)
    ensures SelectParticipants(s.cfg, s.reg, 0, rng).Ok?
    ensures OnDispute(s, cases, rng) == Ok(CaseOpened(s, cases, rng)) && Setting(CaseOpened(s, cases, rng), cases + 1)
  {
    CaseIsTight(s, cases, rng);
    CaseFits(s, cases);
    OpenedSetting(s, cases, NewCourt(s.cfg, s.requestBlock), SelectParticipants(s.cfg, s.reg, 0, rng).value,
                  CaseSchedule(s, cases));
  }

  /** What opening a court with this choice leaves. */
  ghost predicate OpenedWith(s: Store, m: MarketId, choice: Choice, s': Store) {
    && s'.reg == choice.reg && s'.draws == s.draws[m := choice.draws]
    && s'.free == s.free && s'.now == s.now && s'.cfg == s.cfg
    && m in s'.courts && s'.courts[m] == NewCourt(s.cfg, s.requestBlock)
    && s'.requestBlock == s.requestBlock && s'.schedule == CaseSchedule(s, m)
  }

  lemma OpenedFrame(s: Store, m: MarketId, court: Court, choice: Choice, schedule: Schedule)
    requires m == s.nextCourtId && court == NewCourt(s.cfg, s.requestBlock) && schedule == CaseSchedule(s, m)
    ensures OpenedWith(s, m, choice, CourtOpened(s, m, court, choice, schedule))
  {}

  lemma OpensWith(s: Store, m: MarketId, rng: Rng, choice: Choice) returns (s': Store)
    requires s.cfg.minJurorStake > 0 && m in s.markets && s.markets[m].usesCourt && m == s.nextCourtId
    requires SelectParticipants(s.cfg, s.reg, 0, rng) == Ok(choice)
    requires m < s.cfg.cacheSize && forall b :: |IdsAt(s.schedule, b)| <= m
    ensures OnDispute(s, m, rng) == Ok(s') && OpenedWith(s, m, choice, s')
  {
    CaseIsAccepted(s, m, rng);
    s' := CaseOpened(s, m, rng);
    OpenedFrame(s, m, NewCourt(s.cfg, s.requestBlock), choice, CaseSchedule(s, m));
  }

  lemma OpensFirst(s: Store, rng: Rng, choice: Choice) returns (s': Store)
    requires Setting(s, 0) && s.cfg.cacheSize >= 1 && SelectParticipants(s.cfg, s.reg, 0, rng) == Ok(choice)
    ensures OnDispute(s, 0, rng) == Ok(s') && s'.reg == choice.reg
  {
    s' := OpensWith(s, 0, rng, choice);
  }

  lemma TakesEffect(s: Store, step: Step, s': Store)
    requires s.cfg.minJurorStake > 0 && Try(s, step) == Ok(s')
    ensures Apply(s, step) == s'
  {}

  lemma DisputeIsTried(s: Store, step: Step)
    requires s.cfg.minJurorStake > 0 && step.Dispute?
    ensures Try(s, step) == OnDispute(s, step.market, step.rng)
  {
    match step
    case Dispute(m, rng) =>
  }

  /** The next case opens, with whatever the selection chooses. */
  lemma NextCase(s: Store, cases: nat, rng: Rng) returns (s': Store, choice: Choice)
    requires Setting(s, cases) && cases < 2 && cases < s.cfg.cacheSize && CanDraw(s, 0)
    ensures Apply(s, Dispute(cases, rng)) == s' && Setting(s', cases + 1) && OpenedWith(s, cases, choice, s')
    ensures SelectParticipants(s.cfg, s.reg, 0, rng) == Ok(choice)
  {
    CaseOpens(s, cases, rng);
    s', choice := CaseOpened(s, cases, rng), SelectParticipants(s.cfg, s.reg, 0, rng).value;
    DisputeIsTried(s, Dispute(cases, rng));
    TakesEffect(s, Dispute(cases, rng), s');
    OpenedFrame(s, cases, NewCourt(s.cfg, s.requestBlock), choice, CaseSchedule(s, cases));
  }

  lemma OpenedSetting(s: Store, cases: nat, court: Court, choice: Choice, schedule: Schedule)
    requires Setting(s, cases) && cases < 2 && court.status.Open? && court.appeals == [] && Fresh(choice.draws)
    requires (forall b :: |IdsAt(schedule, b)| <= cases + 1) && Tight(CourtOpened(s, cases, court, choice, schedule))
    ensures Setting(CourtOpened(s, cases, court, choice, schedule), cases + 1)
  {
    OpenedCases(s, cases, court, choice, schedule);
  }

  lemma OpenedCases(s: Store, cases: nat, court: Court, choice: Choice, schedule: Schedule)
    requires Setting(s, cases) && court.status.Open? && court.appeals == [] && Fresh(choice.draws)
    ensures forall c :: 0 <= c < cases + 1 ==> OpenCase(CourtOpened(s, cases, court, choice, schedule), c)
  {
    forall c | 0 <= c < cases + 1 ensures OpenCase(CourtOpened(s, cases, court, choice, schedule), c) {
      if c < cases {
        assert OpenCase(s, c);
      }
    }
  }

  // ---------- draws from one or two items ----------

  lemma WholeSections(item: PoolItem, k: nat, m: nat)
    requires m > 0 && Unconsumed(item) == k * m
    ensures Usable(item, m) == k * m
  {
    SectionDraw.MultipleHasNoRemainder(k, m);
  }

  lemma {:induction false} AllHits(slots: seq<nat>, n: nat, i: nat)
    requires n <= |slots| && forall k :: 0 <= k < n ==> slots[k] == i
    ensures Hits(slots, n, i) == n
  {
    if n > 0 {
      AllHits(slots, n - 1, i);
    }
  }

  lemma LonePool(pool: seq<PoolItem>, k: nat, m: nat)
    requires m > 0 && |pool| == 1 && Unconsumed(pool[0]) == k * m
    ensures TotalUnconsumed(pool, m) == k * m
  {
    WholeSections(pool[0], k, m);
    assert Prefix(pool, m, 1) == Prefix(pool, m, 0) + Usable(pool[0], m);
  }

  /** All sections of a draw from a pool of one fall on that one. */
  lemma LoneSlots(cfg: Config, reg: Registry, weight: nat, rng: Rng)
    requires cfg.minJurorStake > 0 && RegistryOk(cfg, reg) && |reg.pool| == 1
    requires weight * cfg.minJurorStake <= TotalUnconsumed(reg.pool, cfg.minJurorStake)
    ensures var slots := DrawnSlots(cfg, reg, weight, rng);
            |slots| == weight && forall i :: 0 <= i < weight ==> slots[i] == 0
  {
    DrawnSlotsInBounds(cfg, reg, weight, rng);
  }

  /** The lone item has been charged the whole cost, and all of it is at risk. */
  predicate ChargedAlone(item: PoolItem, cost: nat, c: Choice) {
    && |c.reg.pool| == 1 && c.reg.pool[0] == item.(consumed := item.consumed + cost)
    && SlashableOf(c.draws, item.who) == cost
  }

  /** A draw from a lone juror charges that juror for everything. */
  lemma LoneDraw(cfg: Config, reg: Registry, weight: nat, cost: nat, rng: Rng)
    requires cfg.minJurorStake > 0 && RegistryOk(cfg, reg) && |reg.pool| == 1
    requires weight * cfg.minJurorStake <= TotalUnconsumed(reg.pool, cfg.minJurorStake)
    requires !Stranded(reg, reg.pool[0].who) && cost == cfg.minJurorStake * weight
    ensures ChooseMultipleWeighted(cfg, reg, weight, rng).Ok?
    ensures ChargedAlone(reg.pool[0], cost, ChooseMultipleWeighted(cfg, reg, weight, rng).value)
  {
    NobodyStrandedDrawSucceeds(cfg, reg, weight, rng);
    LoneDrawCharge(cfg, reg, weight, cost, rng);
    PoolOfDraw(cfg, reg, weight, rng);
    SlashableOfDraw(cfg, reg, weight, rng, 0);
  }

  lemma LoneDrawCharge(cfg: Config, reg: Registry, weight: nat, cost: nat, rng: Rng)
    requires cfg.minJurorStake > 0 && RegistryOk(cfg, reg) && |reg.pool| == 1
    requires weight * cfg.minJurorStake <= TotalUnconsumed(reg.pool, cfg.minJurorStake)
             && cost == cfg.minJurorStake * weight
    ensures var slots := DrawnSlots(cfg, reg, weight, rng);
            Charged(cfg.minJurorStake, slots, |slots|, 0) == cost
  {
    LoneSlots(cfg, reg, weight, rng);
    LoneCharge(cfg.minJurorStake, DrawnSlots(cfg, reg, weight, rng), cost);
  }

  lemma LoneCharge(m: nat, slots: seq<nat>, cost: nat)
    requires cost == m * |slots| && forall i :: 0 <= i < |slots| ==> slots[i] == 0
    ensures Charged(m, slots, |slots|, 0) == cost
  {
    AllHits(slots, |slots|, 0);
    ChargedIsHits(m, slots, |slots|, 0);
  }

  /** The pool after a draw that loses nothing. */
  lemma PoolOfDraw(cfg: Config, reg: Registry, weight: nat, rng: Rng)
    requires cfg.minJurorStake > 0 && RegistryOk(cfg, reg) && ChooseMultipleWeighted(cfg, reg, weight, rng).Ok?
    requires ChooseMultipleWeighted(cfg, reg, weight, rng).value.lost == 0
    ensures var slots := DrawnSlots(cfg, reg, weight, rng);
            PoolTracks(reg.pool, cfg.minJurorStake, slots, |slots|,
                       ChooseMultipleWeighted(cfg, reg, weight, rng).value.reg.pool)
  {
    DrawBySlots(cfg, reg, weight, rng);
    AccountedDraw(cfg, reg, weight, rng);
  }

  /** What a draw that loses nothing puts at risk. */
  lemma SlashableOfDraw(cfg: Config, reg: Registry, weight: nat, rng: Rng, i: nat)
    requires cfg.minJurorStake > 0 && RegistryOk(cfg, reg) && ChooseMultipleWeighted(cfg, reg, weight, rng).Ok?
    requires i < |reg.pool| && ChooseMultipleWeighted(cfg, reg, weight, rng).value.lost == 0
    ensures var slots, c := DrawnSlots(cfg, reg, weight, rng), ChooseMultipleWeighted(cfg, reg, weight, rng).value;
            SlashableOf(c.draws, reg.pool[i].who) == Charged(cfg.minJurorStake, slots, |slots|, i)
  {
    LocksOfDraw(cfg, reg, weight, rng, i);
    ChooseMultipleWeightedGuarantees(cfg, reg, weight, rng);
    ChoiceLocks(cfg, reg, weight, ChooseMultipleWeighted(cfg, reg, weight, rng).value, reg.pool[i].who);
  }

  lemma {:induction false} HitsOfTwo(slots: seq<nat>, n: nat)
    requires n <= |slots| && forall k :: 0 <= k < n ==> slots[k] < 2
    ensures Hits(slots, n, 0) + Hits(slots, n, 1) == n
  {
    if n > 0 {
      HitsOfTwo(slots, n - 1);
    }
  }

  lemma HitsFit(hits: nat, k: nat, m: nat)
    requires m > 0 && m * hits <= k * m
    ensures hits <= k
  {
    if hits > k {
      MoreSections(k, hits, m);
    }
  }

  lemma MoreSections(k: nat, n: nat, m: nat)
    requires m > 0 && k < n
    ensures k * m < m * n
  {
    assert m * n - k * m == m * (n - k);
  }

  /** A draw of all sections of a pool of two hits each item as often as it has sections. */
  lemma PairHits(pool: seq<PoolItem>, m: nat, slots: seq<nat>, k0: nat, k1: nat)
    requires m > 0 && |pool| == 2 && Affordable(pool, m, slots) && |slots| == k0 + k1
    requires Unconsumed(pool[0]) == k0 * m && Unconsumed(pool[1]) == k1 * m
    ensures Hits(slots, |slots|, 0) == k0 && Hits(slots, |slots|, 1) == k1
  {
    HitsOfTwo(slots, |slots|);
    ChargedIsHits(m, slots, |slots|, 0);
    ChargedIsHits(m, slots, |slots|, 1);
    HitsFit(Hits(slots, |slots|, 0), k0, m);
    HitsFit(Hits(slots, |slots|, 1), k1, m);
  }

  lemma PairPool(pool: seq<PoolItem>, m: nat, k0: nat, k1: nat)
    requires m > 0 && |pool| == 2 && Unconsumed(pool[0]) == k0 * m && Unconsumed(pool[1]) == k1 * m
    ensures TotalUnconsumed(pool, m) == (k0 + k1) * m
  {
    WholeSections(pool[0], k0, m);
    WholeSections(pool[1], k1, m);
    assert Prefix(pool, m, 1) == Prefix(pool, m, 0) + Usable(pool[0], m);
    assert Prefix(pool, m, 2) == Prefix(pool, m, 1) + Usable(pool[1], m);
  }

  // ---------- closing a court ----------

  /** The state once the first case is resolved, on the oracle's report as nobody has voted. */
  function Resolved(s: Store): Store
    requires 0 in s.courts
  {
    s.(reg := UnlockAll(s.reg, DrawsOf(s, 0)),
       courts := s.courts[0 := s.courts[0].(status := Closed(Outcome(Categorical(0))))])
  }

  lemma CaseIsResolved(s: Store)
    requires s.markets == TwoCases() && OpenCase(s, 0)
    ensures OnResolution(s, 0) == Ok(Resolved(s))
  {
    assert Verdict.RevealedItems(DrawsOf(s, 0)) == {};
  }

  lemma CaseResolves(s: Store, cases: nat)
    requires Setting(s, cases) && cases > 0
    ensures OpenCase(s, 0) && Apply(s, Resolve(0)) == Resolved(s) && Tight(Resolved(s))
  {
    assert OpenCase(s, 0);
    CaseIsResolved(s);
    StepKeepsTight(s, Resolve(0));
  }
}
