/** Runs from the first block on that reach states the pallet takes for impossible. */
module FailingRuns {
  import opened Collections
  import opened SortedSearch
  import opened CourtTypes
  import opened JurorPool
  import opened Selection
  import opened SelectionProofs
  import opened DrawTheorem
  import opened PoolCleanup
  import opened StrandedDelegators
  import opened Reassignment
  import opened CourtMachine
  import opened CourtSafety
  import opened CourtLocks
  import opened Scenarios

  // ---------- a juror alone ----------

  /** Account 1 is the whole pool and the only participant, a juror with this many sections left. */
  ghost predicate Lone(reg: Registry, left: nat, m: Balance) {
    && |reg.pool| == 1 && reg.pool[0].who == 1 && Unconsumed(reg.pool[0]) == left * m
    && 1 in reg.participants && (forall a :: a in reg.participants ==> a == 1)
    && reg.participants[1].delegations.None?
  }

  ghost predicate LoneJuror(s: Store, cases: nat, left: nat) {
    Setting(s, cases) && Lone(s.reg, left, s.cfg.minJurorStake)
  }

  /** Account 1 is drawn once, with this amount at risk, and has not voted. */
  predicate LoneDrawn(draws: seq<Draw>, amount: Balance) {
    && |draws| == 1 && draws[0].who == 1 && draws[0].vote.Drawn? && draws[0].slashable == amount
    && SlashableOf(draws, 1) == amount
  }

  lemma LoneJurorJoins(cfg: Config, free: Free, k: nat)
    requires cfg.Sound() && k > 0 && GetOr(free, 1) >= k * cfg.minJurorStake
    ensures var s0 := Genesis(cfg, free, TwoCases(), 0);
            var s := Apply(s0, Join(1, k * cfg.minJurorStake));
            LoneJuror(s, 0, k) && s == s0.(reg := s.reg)
  {
    GenesisIsSetting(cfg, free);
    assert k * cfg.minJurorStake >= cfg.minJurorStake;
    NewcomerJoinsCourt(Genesis(cfg, free, TwoCases(), 0), 0, 1, k * cfg.minJurorStake);
  }

  lemma SectionsLeft(k: nat, n: nat, m: nat)
    requires n <= k
    ensures n * m <= k * m && k * m - m * n == (k - n) * m
  {}

  /** What a case opened on a lone juror leaves: a first round less, all of it at risk there. */
  ghost predicate DrewLoneJuror(s: Store, s': Store, cases: nat) {
    && s'.free == s.free && s'.now == s.now && s'.cfg == s.cfg
    && cases in s'.courts && s'.courts[cases] == NewCourt(s.cfg, s.requestBlock)
    && s'.requestBlock == s.requestBlock && s'.schedule == CaseSchedule(s, cases)
    && LoneDrawn(DrawsOf(s', cases), 31 * s.cfg.minJurorStake)
    && forall c :: c != cases ==> DrawsOf(s', c) == DrawsOf(s, c)
  }

  lemma LoneJurorCanDraw(s: Store, appeals: nat, left: nat)
    requires StoreOk(s) && Lone(s.reg, left, s.cfg.minJurorStake) && left >= NecessaryDrawsWeight(appeals)
    ensures CanDraw(s, appeals)
  {
    LonePool(s.reg.pool, left, s.cfg.minJurorStake);
    SectionsLeft(left, NecessaryDrawsWeight(appeals), s.cfg.minJurorStake);
  }

  /** A choice from account 1 alone. */
  ghost predicate LoneChoice(c: Choice, left: nat, m: nat, amount: Balance) {
    Lone(c.reg, left, m) && LoneDrawn(c.draws, amount)
  }

  lemma LoneDraws(cfg: Config, reg: Registry, weight: nat, c: Choice)
    requires ChoiceOk(cfg, reg, weight, c) && c.lost == 0 && weight > 0
    requires (forall a :: a in reg.participants ==> a == 1 && reg.participants[a].delegations.None?)
    ensures |c.draws| == 1 && c.draws[0].who == 1 && c.draws[0].vote.Drawn?
    ensures SlashableOf(c.draws, 1) == c.draws[0].slashable
  {
    assert |c.draws| > 0;
    forall i | 0 <= i < |c.draws| ensures c.draws[i].who == 1 && c.draws[i].vote.Drawn? {
      assert c.draws[i].who in c.reg.participants;
      assert DiffersInLockOnly(reg.participants[c.draws[i].who], c.reg.participants[c.draws[i].who]);
    }
    SlashableOfSorted(c.draws, 0);
  }

  lemma LoneRegistry(cfg: Config, reg: Registry, weight: nat, c: Choice, left: nat, rest: nat, cost: nat)
    requires ChoiceOk(cfg, reg, weight, c) && Lone(reg, left, cfg.minJurorStake) && left == weight + rest
    requires ChargedAlone(reg.pool[0], cost, c) && cost == cfg.minJurorStake * weight
    ensures Lone(c.reg, rest, cfg.minJurorStake)
  {
    SectionsLeft(left, weight, cfg.minJurorStake);
    assert DiffersInLockOnly(reg.participants[1], c.reg.participants[1]);
  }

  lemma LoneJurorDraw(s: Store, appeals: nat, weight: nat, cost: nat, left: nat, rng: Rng) returns (c: Choice)
    requires StoreOk(s) && CanDraw(s, appeals) && appeals < s.cfg.maxAppeals && Lone(s.reg, left, s.cfg.minJurorStake)
    requires weight == NecessaryDrawsWeight(appeals) && cost == s.cfg.minJurorStake * weight
    ensures SelectParticipants(s.cfg, s.reg, appeals, rng) == Ok(c)
    ensures ChoiceOk(s.cfg, s.reg, weight, c) && c.lost == 0 && ChargedAlone(s.reg.pool[0], cost, c)
  {
    RoundIsDrawn(s, appeals, rng);
    LoneDraw(s.cfg, s.reg, weight, cost, rng);
    NobodyStrandedDrawSucceeds(s.cfg, s.reg, weight, rng);
    c := SelectParticipants(s.cfg, s.reg, appeals, rng).value;
  }

  /** Any round drawn from account 1 alone. */
  lemma LoneJurorChoice(s: Store, appeals: nat, weight: nat, cost: nat, left: nat, rest: nat, rng: Rng)
    returns (c: Choice)
    requires StoreOk(s) && appeals < s.cfg.maxAppeals && Lone(s.reg, left, s.cfg.minJurorStake) && left == weight + rest
    requires weight == NecessaryDrawsWeight(appeals) && cost == s.cfg.minJurorStake * weight
    ensures CanDraw(s, appeals) && SelectParticipants(s.cfg, s.reg, appeals, rng) == Ok(c)
    ensures LoneChoice(c, rest, s.cfg.minJurorStake, cost)
  {
    LoneJurorCanDraw(s, appeals, left);
    c := LoneJurorDraw(s, appeals, weight, cost, left, rng);
    LoneRegistry(s.cfg, s.reg, weight, c, left, rest, cost);
    LoneDraws(s.cfg, s.reg, weight, c);
  }

  /** The first round and the number of its draws. */
  lemma FirstRound() returns (first: nat, weight: nat)
    ensures first == 0 && weight == NecessaryDrawsWeight(first) && weight == 31
  {
    first, weight := 0, 31;
  }

  lemma OpensAs(s: Store, cases: nat, first: nat, rng: Rng, choice: Choice) returns (s': Store)
    requires Setting(s, cases) && cases < 2 && cases < s.cfg.cacheSize && first == 0 && CanDraw(s, first)
    requires SelectParticipants(s.cfg, s.reg, first, rng) == Ok(choice)
    ensures Apply(s, Dispute(cases, rng)) == s' && Setting(s', cases + 1) && OpenedWith(s, cases, choice, s')
  {
    var chosen;
    s', chosen := NextCase(s, cases, rng);
  }

  lemma LoneJurorIsChosen(s: Store, cases: nat, left: nat, rest: nat, first: nat, weight: nat, cost: nat, rng: Rng)
    returns (s': Store, choice: Choice)
    requires LoneJuror(s, cases, left) && cases < 2 && cases < s.cfg.cacheSize && first == 0 && left == weight + rest
    requires weight == NecessaryDrawsWeight(first) && cost == s.cfg.minJurorStake * weight
    ensures Apply(s, Dispute(cases, rng)) == s' && Setting(s', cases + 1) && OpenedWith(s, cases, choice, s')
    ensures LoneChoice(choice, rest, s.cfg.minJurorStake, cost)
  {
    choice := LoneJurorChoice(s, first, weight, cost, left, rest, rng);
    s' := OpensAs(s, cases, first, rng, choice);
  }

  lemma LoneJurorStays(s: Store, s': Store, cases: nat, left: nat, cost: nat, choice: Choice)
    requires Setting(s', cases + 1) && OpenedWith(s, cases, choice, s')
    requires LoneChoice(choice, left, s.cfg.minJurorStake, cost) && cost == 31 * s.cfg.minJurorStake
    ensures LoneJuror(s', cases + 1, left) && DrewLoneJuror(s, s', cases)
  {}

  // ---------- stakes are released twice ----------

  /** One juror with stake for two first rounds, two disputes, the first one resolved. */
  function ResolvedAndOpen(m: Balance, rng: Rng, rng': Rng): seq<Step> {
    [Join(1, 62 * m), Dispute(0, rng), Dispute(1, rng'), Resolve(0)]
  }

  /** Reassigning a closed court breaks exact locks if an account at risk there is at risk in an open court too. */
  lemma ReassignWhileAtRisk(s: Store, closed: CourtId, open: CourtId, a: AccountId)
    requires Exact(s) && closed in s.courts && s.courts[closed].status.Closed? && IsOpen(s, open)
    requires SlashableOf(DrawsOf(s, closed), a) > 0 && SlashableOf(DrawsOf(s, open), a) > 0
    ensures ReassignCourtStakes(s, closed).Ok? && !Exact(ReassignCourtStakes(s, closed).value)
  {
    TableBound(s, open, a);
    assert Lock(s.reg.participants, a) == OpenSlashable(s, a);
    HarmlessIff(s, closed);
    ReassignKeepsExactIff(s, closed);
  }

  lemma ResolvedWhileOpen(s: Store)
    requires LoneJuror(s, 2, 0) && SlashableOf(DrawsOf(s, 0), 1) > 0 && SlashableOf(DrawsOf(s, 1), 1) > 0
    ensures var s' := Apply(s, Resolve(0));
            Tight(s') && ReassignCourtStakes(s', 0).Ok? && !Exact(ReassignCourtStakes(s', 0).value)
  {
    CaseResolves(s, 2);
    assert OpenCase(s, 1);
    ReassignWhileAtRisk(Resolved(s), 0, 1, 1);
  }

  lemma ThenChosen(s0: Store, steps: seq<Step>, cases: nat, left: nat, rest: nat, first: nat, weight: nat, cost: nat,
                   rng: Rng) returns (choice: Choice)
    requires s0.cfg.minJurorStake > 0 && cost == s0.cfg.minJurorStake * weight && left == weight + rest
    requires first == 0 && weight == NecessaryDrawsWeight(first)
    requires LoneJuror(After(s0, steps), cases, left) && cases < 2 && cases < s0.cfg.cacheSize
    ensures var s, s' := After(s0, steps), After(s0, steps + [Dispute(cases, rng)]);
            && Setting(s', cases + 1) && OpenedWith(s, cases, choice, s')
            && LoneChoice(choice, rest, s.cfg.minJurorStake, cost)
  {
    OneMoreStep(s0, steps, Dispute(cases, rng));
    var s';
    s', choice := LoneJurorIsChosen(After(s0, steps), cases, left, rest, first, weight, cost, rng);
  }

  lemma ThenDispute(s0: Store, steps: seq<Step>, cases: nat, left: nat, rng: Rng)
    requires s0.cfg.minJurorStake > 0
    requires LoneJuror(After(s0, steps), cases, left) && left >= 31 && cases < 2 && cases < s0.cfg.cacheSize
    ensures var s, s' := After(s0, steps), After(s0, steps + [Dispute(cases, rng)]);
            LoneJuror(s', cases + 1, left - 31) && DrewLoneJuror(s, s', cases)
  {
    var first, weight := FirstRound();
    var rest, cost := left - 31, s0.cfg.minJurorStake * 31;
    var choice := ThenChosen(s0, steps, cases, left, rest, first, weight, cost, rng);
    LoneJurorStays(After(s0, steps), After(s0, steps + [Dispute(cases, rng)]), cases, rest, cost, choice);
  }

  lemma ThenResolve(s0: Store, steps: seq<Step>)
    requires s0.cfg.minJurorStake > 0
    requires var s := After(s0, steps);
             LoneJuror(s, 2, 0) && SlashableOf(DrawsOf(s, 0), 1) > 0 && SlashableOf(DrawsOf(s, 1), 1) > 0
    ensures var s := After(s0, steps + [Resolve(0)]);
            Tight(s) && ReassignCourtStakes(s, 0).Ok? && !Exact(ReassignCourtStakes(s, 0).value)
  {
    OneMoreStep(s0, steps, Resolve(0));
    ResolvedWhileOpen(After(s0, steps));
  }

  lemma TwoTrials(s0: Store, steps: seq<Step>, rng: Rng, rng': Rng)
    requires s0.cfg.minJurorStake > 0 && s0.cfg.cacheSize >= 2 && LoneJuror(After(s0, steps), 0, 62)
    ensures var s := After(s0, steps + [Dispute(0, rng)] + [Dispute(1, rng')] + [Resolve(0)]);
            Tight(s) && ReassignCourtStakes(s, 0).Ok? && !Exact(ReassignCourtStakes(s, 0).value)
  {
    ThenDispute(s0, steps, 0, 62, rng);
    ThenDispute(s0, steps + [Dispute(0, rng)], 1, 31, rng');
    ThenResolve(s0, steps + [Dispute(0, rng)] + [Dispute(1, rng')]);
  }

  lemma FourSteps(a: Step, b: Step, c: Step, d: Step)
    ensures [a] + [b] + [c] + [d] == [a, b, c, d]
  {}

  lemma FirstJoin(cfg: Config, free: Free, k: nat)
    requires cfg.Sound() && k > 0 && GetOr(free, 1) >= k * cfg.minJurorStake
    ensures var s := After(Genesis(cfg, free, TwoCases(), 0), [Join(1, k * cfg.minJurorStake)]);
            LoneJuror(s, 0, k) && s.free == free && s.now == 1 && s.requestBlock == 1 + cfg.requestInterval
  {
    LoneJurorJoins(cfg, free, k);
    OneMoreStep(Genesis(cfg, free, TwoCases(), 0), [], Join(1, k * cfg.minJurorStake));
    assert [] + [Join(1, k * cfg.minJurorStake)] == [Join(1, k * cfg.minJurorStake)];
  }

  /** Exact locks do not survive `reassign_court_stakes`: in this run they are exact until the first court is
      reassigned, and no longer exact after. */
  lemma ReassignReleasesTwice(cfg: Config, rng: Rng, rng': Rng)
    requires cfg.Sound() && cfg.cacheSize >= 2
    ensures var m := cfg.minJurorStake;
            var s := After(Genesis(cfg, map[1 := 62 * m], TwoCases(), 0), ResolvedAndOpen(m, rng, rng'));
            Tight(s) && ReassignCourtStakes(s, 0).Ok? && !Exact(ReassignCourtStakes(s, 0).value)
  {
    var m := cfg.minJurorStake;
    var s0 := Genesis(cfg, map[1 := 62 * m], TwoCases(), 0);
    var steps := [Join(1, 62 * m)];
    FirstJoin(cfg, map[1 := 62 * m], 62);
    TwoTrials(s0, steps, rng, rng');
    FourSteps(steps[0], Dispute(0, rng), Dispute(1, rng'), Resolve(0));
  }

  // ---------- stranded delegators ----------

  lemma OutOfPoolIsStranding(reg: Registry, who: AccountId, juror: AccountId)
    requires who in reg.participants && reg.participants[who].delegations == Some([juror]) && !InPool(reg.pool, juror)
    ensures Stranded(reg, who)
  {}

  lemma {:induction false} AllStranded(reg: Registry, slots: seq<nat>, n: nat)
    requires n <= |slots| && forall k :: 0 <= k < n ==> StrandedAt(reg, slots[k])
    ensures StrandedSlots(reg, slots, n) == slots[..n]
  {
    if n > 0 {
      AllStranded(reg, slots, n - 1);
      assert slots[..n] == slots[..n - 1] + [slots[n - 1]];
    }
  }

  /** Two or more sections drawn from a stranded delegator alone in the pool make the clean-up leave the range. */
  lemma StrandedAloneFails(cfg: Config, reg: Registry, weight: nat, rng: Rng)
    requires cfg.minJurorStake > 0 && RegistryOk(cfg, reg) && |reg.pool| == 1 && weight >= 2
    requires weight * cfg.minJurorStake <= TotalUnconsumed(reg.pool, cfg.minJurorStake)
    requires Stranded(reg, reg.pool[0].who)
    ensures ChooseMultipleWeighted(cfg, reg, weight, rng) == Err(IndexOutOfRange)
  {
    var slots := DrawnSlots(cfg, reg, weight, rng);
    LoneSlots(cfg, reg, weight, rng);
    AllStranded(reg, slots, weight);
    assert slots[..weight][1] == 0;
    DrawSucceedsIff(cfg, reg, weight, rng);
  }

  /** Account 2 is the whole pool and delegated to account 1, which is not in the pool. */
  ghost predicate StrandedAlone(s: Store, k: nat) {
    && Setting(s, 0) && |s.reg.pool| == 1 && Holds(s.reg.pool, 2, k * s.cfg.minJurorStake, 0) && !InPool(s.reg.pool, 1)
    && 2 in s.reg.participants && s.reg.participants[2].delegations == Some([1])
  }

  lemma StrandedAloneCannotBeDrawn(s: Store, rng: Rng)
    requires StrandedAlone(s, 31)
    ensures OnDispute(s, 0, rng) == Err(IndexOutOfRange)
  {
    LonePool(s.reg.pool, 31, s.cfg.minJurorStake);
    OutOfPoolIsStranding(s.reg, 2, 1);
    StrandedAloneFails(s.cfg, s.reg, NecessaryDrawsWeight(0), rng);
  }

  function Backers(m: Balance, k: nat): map<AccountId, Participant> {
    map[1 := Participant(m, 0, None, None), 2 := Participant(k * m, 0, None, Some([1]))]
  }

  /** Juror 1 with one section and delegator 2 of juror 1 with `k` sections. */
  ghost predicate Backed(cfg: Config, free: Free, k: nat, s: Store) {
    && Setting(s, 0) && s.cfg == cfg && s.free == free && |s.reg.pool| == 2
    && Holds(s.reg.pool, 1, cfg.minJurorStake, 0) && Holds(s.reg.pool, 2, k * cfg.minJurorStake, 0)
    && s.reg.participants == Backers(cfg.minJurorStake, k)
  }

  function JoinAndBack(m: Balance, k: nat): seq<Step> {
    [Join(1, m)] + [JoinAsDelegator(2, k * m, [1])]
  }

  /** Juror 1 with one section, alone. */
  ghost predicate Unbacked(cfg: Config, free: Free, s: Store) {
    && Setting(s, 0) && s.cfg == cfg && s.free == free && |s.reg.pool| == 1
       && Holds(s.reg.pool, 1, cfg.minJurorStake, 0)
    && s.reg.participants == map[1 := Participant(cfg.minJurorStake, 0, None, None)]
  }

  lemma OneJuror(cfg: Config, free: Free)
    requires cfg.Sound() && GetOr(free, 1) >= cfg.minJurorStake
    ensures Unbacked(cfg, free, After(Genesis(cfg, free, TwoCases(), 0), [Join(1, cfg.minJurorStake)]))
  {
    var s0 := Genesis(cfg, free, TwoCases(), 0);
    GenesisIsSetting(cfg, free);
    assert After(s0, []) == s0;
    ThenJoins(s0, [], 0, 1, cfg.minJurorStake);
    assert [] + [Join(1, cfg.minJurorStake)] == [Join(1, cfg.minJurorStake)];
  }

  lemma ThenBacked(s0: Store, steps: seq<Step>, cfg: Config, free: Free, amount: Balance, k: nat)
    requires s0.cfg.minJurorStake > 0 && Unbacked(cfg, free, After(s0, steps)) && amount == k * cfg.minJurorStake
    requires cfg.maxCourtParticipants >= 2 && cfg.maxDelegations >= 1 && cfg.minJurorStake <= amount <= GetOr(free, 2)
    ensures Backed(cfg, free, k, After(s0, steps + [JoinAsDelegator(2, amount, [1])]))
  {
    assert InPool(After(s0, steps).reg.pool, 1);
    ThenDelegates(s0, steps, 0, 2, amount, 1);
  }

  lemma JurorIsBacked(cfg: Config, free: Free, k: nat)
    requires cfg.Sound() && cfg.maxCourtParticipants >= 2 && cfg.maxDelegations >= 1 && k > 0
    requires GetOr(free, 1) >= cfg.minJurorStake && GetOr(free, 2) >= k * cfg.minJurorStake
    ensures Backed(cfg, free, k, After(Genesis(cfg, free, TwoCases(), 0), JoinAndBack(cfg.minJurorStake, k)))
  {
    var m := cfg.minJurorStake;
    OneJuror(cfg, free);
    SectionsLeft(k, 1, m);
    ThenBacked(Genesis(cfg, free, TwoCases(), 0), [Join(1, m)], cfg, free, k * m, k);
  }

  // ---------- a draw that cannot be made ----------

  lemma ThenStranded(s0: Store, steps: seq<Step>, cfg: Config, free: Free, k: nat)
    requires s0.cfg.minJurorStake > 0 && Backed(cfg, free, k, After(s0, steps))
    ensures StrandedAlone(After(s0, steps + [PrepareExit(1)]), k)
  {
    assert InPool(After(s0, steps).reg.pool, 1);
    ThenLeaves(s0, steps, 0, 1);
  }

  lemma ThreeSteps(a: Step, b: Step, c: Step)
    ensures [a] + [b] + [c] == [a, b, c]
  {}

  /** There is stake for a first round, and yet no generator can draw one: the juror of the only delegator has left,
      so that the clean-up of the draw fails. */
  lemma DisputeGoesOutOfRange(cfg: Config, rng: Rng)
    requires cfg.Sound() && cfg.maxCourtParticipants >= 2 && cfg.maxDelegations >= 1
    ensures var m := cfg.minJurorStake;
            var steps := [Join(1, m), JoinAsDelegator(2, 31 * m, [1]), PrepareExit(1)];
            var s := After(Genesis(cfg, map[1 := m, 2 := 31 * m], TwoCases(), 0), steps);
            && Tight(s) && TotalUnconsumed(s.reg.pool, m) == NecessaryDrawsWeight(0) * m
            && OnDispute(s, 0, rng) == Err(IndexOutOfRange)
  {
    var m := cfg.minJurorStake;
    var free := map[1 := m, 2 := 31 * m];
    var s0 := Genesis(cfg, free, TwoCases(), 0);
    JurorIsBacked(cfg, free, 31);
    ThenStranded(s0, JoinAndBack(m, 31), cfg, free, 31);
    ThreeSteps(Join(1, m), JoinAsDelegator(2, 31 * m, [1]), PrepareExit(1));
    OutOfRange(After(s0, JoinAndBack(m, 31) + [PrepareExit(1)]), rng);
  }

  lemma OutOfRange(s: Store, rng: Rng)
    requires StrandedAlone(s, 31)
    ensures TotalUnconsumed(s.reg.pool, s.cfg.minJurorStake) == NecessaryDrawsWeight(0) * s.cfg.minJurorStake
    ensures OnDispute(s, 0, rng) == Err(IndexOutOfRange)
  {
    LonePool(s.reg.pool, 31, s.cfg.minJurorStake);
    StrandedAloneCannotBeDrawn(s, rng);
  }

  // ---------- a juror that the clean-up throws out ----------

  lemma {:induction false} StrandedAreHits(reg: Registry, slots: seq<nat>, n: nat)
    requires n <= |slots| && StrandedAt(reg, 0) && !StrandedAt(reg, 1) && forall k :: 0 <= k < n ==> slots[k] < 2
    ensures |StrandedSlots(reg, slots, n)| == Hits(slots, n, 0)
    ensures forall k :: 0 <= k < |StrandedSlots(reg, slots, n)| ==> StrandedSlots(reg, slots, n)[k] == 0
  {
    if n > 0 {
      StrandedAreHits(reg, slots, n - 1);
    }
  }

  predicate FirstTwice(stranded: seq<nat>) {
    |stranded| == 2 && stranded[0] == 0 && stranded[1] == 0
  }

  lemma StrandedTwice(cfg: Config, reg: Registry, weight: nat, k: nat, rng: Rng)
    requires cfg.minJurorStake > 0 && RegistryOk(cfg, reg) && |reg.pool| == 2 && weight == 2 + k
    requires StrandedAt(reg, 0) && !StrandedAt(reg, 1)
    requires Unconsumed(reg.pool[0]) == 2 * cfg.minJurorStake && Unconsumed(reg.pool[1]) == k * cfg.minJurorStake
    ensures weight * cfg.minJurorStake <= TotalUnconsumed(reg.pool, cfg.minJurorStake)
    ensures var slots := DrawnSlots(cfg, reg, weight, rng);
            FirstTwice(StrandedSlots(reg, slots, |slots|))
  {
    PairPool(reg.pool, cfg.minJurorStake, 2, k);
    DrawnSlotsInBounds(cfg, reg, weight, rng);
    var slots := DrawnSlots(cfg, reg, weight, rng);
    PairHits(reg.pool, cfg.minJurorStake, slots, 2, k);
    StrandedAreHits(reg, slots, |slots|);
  }

  /** A draw of every section of a stranded delegator with two of them and of a juror behind it empties the pool. */
  lemma CleanupEmptiesThePool(cfg: Config, reg: Registry, weight: nat, k: nat, rng: Rng)
    requires cfg.minJurorStake > 0 && RegistryOk(cfg, reg) && |reg.pool| == 2 && weight == 2 + k
    requires StrandedAt(reg, 0) && !StrandedAt(reg, 1)
    requires Unconsumed(reg.pool[0]) == 2 * cfg.minJurorStake && Unconsumed(reg.pool[1]) == k * cfg.minJurorStake
    ensures var r := ChooseMultipleWeighted(cfg, reg, weight, rng);
            r.Ok? && r.value.lost == 2 && |r.value.reg.pool| == 0
  {
    StrandedTwice(cfg, reg, weight, k, rng);
    PoolAfterCleanup(cfg, reg, weight, rng);
  }

  lemma PoolAfterCleanup(cfg: Config, reg: Registry, weight: nat, rng: Rng)
    requires cfg.minJurorStake > 0 && RegistryOk(cfg, reg) && |reg.pool| == 2
    requires weight * cfg.minJurorStake <= TotalUnconsumed(reg.pool, cfg.minJurorStake)
    requires var slots := DrawnSlots(cfg, reg, weight, rng);
             FirstTwice(StrandedSlots(reg, slots, |slots|))
    ensures var r := ChooseMultipleWeighted(cfg, reg, weight, rng);
            r.Ok? && r.value.lost == 2 && |r.value.reg.pool| == 0
  {
    DrawBySlots(cfg, reg, weight, rng);
    var slots := DrawnSlots(cfg, reg, weight, rng);
    var d := SelectFirst(cfg, reg, slots, rng.jurors, |slots|);
    RemovesBoth(d.pool, d.lost);
  }

  lemma RemovesBoth(pool: seq<PoolItem>, lost: seq<nat>)
    requires |pool| == 2 && FirstTwice(lost)
    ensures RemoveAll(pool, lost).Some? && |RemoveAll(pool, lost).value| == 0
  {
    RemoveAllInRange(pool, lost);
  }

  /** Account 2 with two sections is stranded, account 3 is a juror with 29 sections. */
  ghost predicate Innocent(s: Store) {
    && Setting(s, 0) && |s.reg.pool| == 2 && !InPool(s.reg.pool, 1)
    && Holds(s.reg.pool, 2, 2 * s.cfg.minJurorStake, 0) && Holds(s.reg.pool, 3, 29 * s.cfg.minJurorStake, 0)
    && 2 in s.reg.participants && s.reg.participants[2].delegations == Some([1])
    && 3 in s.reg.participants && s.reg.participants[3] == Participant(29 * s.cfg.minJurorStake, 0, None, None)
  }

  lemma SortedByKey(pool: seq<PoolItem>, a: AccountId, low: Balance, used: Balance, b: AccountId, high: Balance)
    requires StrictlySorted(pool) && |pool| == 2 && Holds(pool, a, low, used) && Holds(pool, b, high, 0)
    requires Less((low, a), (high, b))
    ensures pool[0].who == a && Unconsumed(pool[0]) == Minus(low, used) && pool[1].who == b
            && Unconsumed(pool[1]) == high
  {
    var i :| 0 <= i < |pool| && pool[i].who == a && pool[i].stake == low && pool[i].consumed == used;
    var j :| 0 <= j < |pool| && pool[j].who == b && pool[j].stake == high && pool[j].consumed == 0;
    assert i == 0 && j == 1;
  }

  lemma InnocentChoice(s: Store, rng: Rng)
    requires Innocent(s)
    ensures var r := ChooseMultipleWeighted(s.cfg, s.reg, NecessaryDrawsWeight(0), rng);
            r.Ok? && r.value.lost == 2 && |r.value.reg.pool| == 0
    ensures Stranded(s.reg, 2) && !Stranded(s.reg, 3)
  {
    SortedByKey(s.reg.pool, 2, 2 * s.cfg.minJurorStake, 0, 3, 29 * s.cfg.minJurorStake);
    OutOfPoolIsStranding(s.reg, 2, 1);
    CleanupEmptiesThePool(s.cfg, s.reg, NecessaryDrawsWeight(0), 29, rng);
  }

  /** A registered juror that is not about to leave and yet is not in the pool. */
  predicate ThrownOut(reg: Registry, a: AccountId) {
    !InPool(reg.pool, a) && a in reg.participants && reg.participants[a].prepareExitAt.None?
  }

  lemma InnocentSelection(s: Store, rng: Rng) returns (choice: Choice)
    requires Innocent(s)
    ensures SelectParticipants(s.cfg, s.reg, 0, rng) == Ok(choice) && !LosesNothing(s, 0, rng)
    ensures ThrownOut(choice.reg, 3)
  {
    InnocentChoice(s, rng);
    NothingIsTruncated(s.cfg, s.reg, 0, rng);
    LosesNothingIff(s, 0, rng);
    choice := SelectParticipants(s.cfg, s.reg, 0, rng).value;
  }

  lemma InnocentDispute(s: Store, rng: Rng) returns (s': Store)
    requires Innocent(s) && s.cfg.cacheSize >= 1
    ensures OnDispute(s, 0, rng) == Ok(s') && ThrownOut(s'.reg, 3)
  {
    var choice := InnocentSelection(s, rng);
    s' := OpensFirst(s, rng, choice);
  }

  lemma InnocentIsThrownOut(s: Store, rng: Rng)
    requires Innocent(s) && s.cfg.cacheSize >= 1
    ensures OnDispute(s, 0, rng).Ok?
    ensures var s' := OnDispute(s, 0, rng).value; !Exact(s') && ThrownOut(s'.reg, 3)
  {
    var s' := InnocentDispute(s, rng);
    var choice := InnocentSelection(s, rng);
    DisputeKeepsExactIff(s, 0, rng);
  }

  lemma ThenInnocent(s0: Store, steps: seq<Step>, cfg: Config, free: Free)
    requires s0.cfg.minJurorStake > 0 && Backed(cfg, free, 2, After(s0, steps))
    requires cfg.maxCourtParticipants >= 3 && 29 * cfg.minJurorStake <= GetOr(free, 3)
    ensures Innocent(After(s0, steps + [Join(3, 29 * cfg.minJurorStake)] + [PrepareExit(1)]))
    ensures After(s0, steps + [Join(3, 29 * cfg.minJurorStake)] + [PrepareExit(1)]).cfg == cfg
  {
    ThenJoins(s0, steps, 0, 3, 29 * cfg.minJurorStake);
    var more := steps + [Join(3, 29 * cfg.minJurorStake)];
    assert InPool(After(s0, more).reg.pool, 1);
    ThenLeaves(s0, more, 0, 1);
  }

  lemma FourthStep(steps: seq<Step>, a: Step, b: Step, c: Step, d: Step)
    requires steps == [a] + [b]
    ensures steps + [c] + [d] == [a, b, c, d]
  {}

  /** Account 3 is a juror with stake of its own and delegates to nobody. Opening a court throws it out of the pool,
      as the clean-up after the draw removes the stranded account 2 once per section and so meets account 3. */
  lemma DrawThrowsOutAJuror(cfg: Config, rng: Rng)
    requires cfg.Sound() && cfg.maxCourtParticipants >= 3 && cfg.maxDelegations >= 1 && cfg.cacheSize >= 1
    ensures var m := cfg.minJurorStake;
            var steps := [Join(1, m), JoinAsDelegator(2, 2 * m, [1]), Join(3, 29 * m), PrepareExit(1)];
            var s := After(Genesis(cfg, map[1 := m, 2 := 2 * m, 3 := 29 * m], TwoCases(), 0), steps);
            && Tight(s) && InPool(s.reg.pool, 3) && OnDispute(s, 0, rng).Ok?
            && var s' := OnDispute(s, 0, rng).value; !Exact(s') && ThrownOut(s'.reg, 3)
  {
    var m := cfg.minJurorStake;
    var free := map[1 := m, 2 := 2 * m, 3 := 29 * m];
    var s0 := Genesis(cfg, free, TwoCases(), 0);
    JurorIsBacked(cfg, free, 2);
    ThenInnocent(s0, JoinAndBack(m, 2), cfg, free);
    FourthStep(JoinAndBack(m, 2), Join(1, m), JoinAsDelegator(2, 2 * m, [1]), Join(3, 29 * m), PrepareExit(1));
    InnocentIsThrownOut(After(s0, JoinAndBack(m, 2) + [Join(3, 29 * m)] + [PrepareExit(1)]), rng);
  }
}
