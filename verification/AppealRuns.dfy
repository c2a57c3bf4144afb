/** A run through all appeals of a court, up to the last one, which draws nobody. */
module AppealRuns {
  import opened Collections
  import opened AutoResolve
  import opened CourtTypes
  import opened JurorPool
  import opened Selection
  import opened DrawTheorem
  import opened CourtMachine
  import opened CourtSafety
  import opened Scenarios
  import opened FailingRuns
  import Verdict

  /** Draws of `k` rounds, the first of them after `n` appeals. */
  function WeightFrom(n: nat, k: nat): nat
    decreases k
  {
    if k == 0 then 0 else NecessaryDrawsWeight(n) + WeightFrom(n + 1, k - 1)
  }

  /** The bonds of the `k` appeals from the `n`-th on. */
  function BondsFrom(cfg: Config, n: nat, k: nat): Balance
    decreases k
  {
    if k == 0 then 0 else AppealBondFor(cfg, n) + BondsFrom(cfg, n + 1, k - 1)
  }

  /** Market 0 at this block, and nothing else. */
  ghost predicate ScheduledOnly(schedule: Schedule, at: Block) {
    forall b :: IdsAt(schedule, b) == if b == at then [0] else []
  }

  /** The first case, open after `n` appeals and without votes, with stake for exactly `k` more rounds, all possible
      appeals but the last, and with account 2 able to pay for all of them. */
  ghost predicate Trial(s: Store, n: nat, k: nat) {
    && StoreOk(s) && s.inflation == 0 && s.markets == TwoCases() && s.now < s.requestBlock
    && n + 1 + k == s.cfg.maxAppeals && Lone(s.reg, WeightFrom(n + 1, k), s.cfg.minJurorStake)
    && GetOr(s.free, 2) >= BondsFrom(s.cfg, n + 1, k + 1)
    && CaseAfter(s, n) && ScheduledOnly(s.schedule, s.courts[0].roundEnds.appeal)
  }

  predicate CaseAfter(s: Store, n: nat) {
    && 0 in s.courts && s.courts[0].status.Open? && |s.courts[0].appeals| == n
    && s.courts[0].roundEnds == RoundFrom(s.cfg, s.courts[0].roundEnds.preVote)
    && 0 in s.courtOf && s.courtOf[0] == 0 && 0 in s.marketOf && s.marketOf[0] == 0
    && 0 in s.draws && Fresh(s.draws[0])
  }

  ghost predicate Early(s: Store, n: nat, k: nat) {
    Trial(s, n, k) && s.now <= s.courts[0].roundEnds.preVote
  }

  ghost predicate Due(s: Store, n: nat, k: nat) {
    Trial(s, n, k) && InAppealPeriod(s.courts[0].roundEnds, s.now)
  }

  /** Blocks until appeals are possible. */
  function Wait(s: Store): nat {
    if 0 in s.courts then Minus(s.courts[0].roundEnds.aggregation + 1, s.now) else 0
  }

  // ---------- waiting ----------

  lemma TrialWaits(s: Store, s': Store, n: nat, k: nat)
    requires Early(s, n, k) && s.cfg.appealPeriod >= 2
    requires s' == s.(now := s.now + Wait(s), requestBlock := s'.requestBlock) && s'.now < s'.requestBlock
    ensures Due(s', n, k)
  {}

  lemma ThenDue(s0: Store, steps: seq<Step>, n: nat, k: nat)
    requires s0.cfg.minJurorStake > 0 && Early(After(s0, steps), n, k) && s0.cfg.appealPeriod >= 2
    ensures Due(After(s0, steps + Blocks(Wait(After(s0, steps)))), n, k)
  {
    BlocksPass(s0, steps, Wait(After(s0, steps)));
    TrialWaits(After(s0, steps), After(s0, steps + Blocks(Wait(After(s0, steps)))), n, k);
  }

  // ---------- appealing ----------

  lemma Unregistered(s: Store, who: AccountId)
    requires StoreOk(s) && who !in s.reg.participants
    ensures GetOr(s.reg.locks, who) == 0
  {
    assert GetOr(s.reg.locks, who) == StakeOf(s.reg.participants, who);
  }

  lemma CanPay(s: Store, n: nat, k: nat)
    requires Trial(s, n, k)
    ensures CanReserve(s, 2, AppealBondFor(s.cfg, n + 1))
    ensures Minus(GetOr(s.free, 2), AppealBondFor(s.cfg, n + 1)) >= BondsFrom(s.cfg, n + 2, k)
  {
    Unregistered(s, 2);
  }

  lemma AppealIsAccepted(s: Store, n: nat, k: nat)
    requires Due(s, n, k)
    ensures CheckAppeal(s, 2, 0).None?
  {
    CanPay(s, n, k);
    assert Verdict.RevealedItems(DrawsOf(s, 0)) == {};
  }

  lemma EntryMoves(cacheSize: nat, schedule: Schedule, at: Block, next: Block)
    requires cacheSize >= 1 && ScheduledOnly(schedule, at) && next != at
    ensures AddEntry(cacheSize, schedule, 0, next).Some?
    ensures ScheduledOnly(RemoveEntry(AddEntry(cacheSize, schedule, 0, next).value, 0, at), next)
  {
    var added := AddEntry(cacheSize, schedule, 0, next).value;
    assert IdsAt(schedule, next) == [] && IdsAt(schedule, at) == [0];
    assert IdsAt(added, at) == [0];
    assert SwapRemove([0], 0) == [];
    forall b ensures IdsAt(RemoveEntry(added, 0, at), b) == if b == next then [0] else [] {
      assert IdsAt(schedule, b) == if b == at then [0] else [];
    }
  }

  lemma TrialIsRescheduled(s: Store, n: nat, k: nat) returns (schedule: Schedule)
    requires Due(s, n, k) && s.cfg.cacheSize >= 1
    ensures var next := RoundFrom(s.cfg, s.requestBlock).appeal;
            && Reschedule(s, 0, s.courts[0].roundEnds.appeal, next) == Ok(schedule)
            && ScheduledOnly(schedule, next)
  {
    var at, next := s.courts[0].roundEnds.appeal, RoundFrom(s.cfg, s.requestBlock).appeal;
    EntryMoves(s.cfg.cacheSize, s.schedule, at, next);
    schedule := RemoveEntry(AddEntry(s.cfg.cacheSize, s.schedule, 0, next).value, 0, at);
  }

  lemma NextWeight(n: nat, k: nat)
    requires k > 0
    ensures WeightFrom(n, k) == NecessaryDrawsWeight(n) + WeightFrom(n + 1, k - 1)
  {}

  lemma LoneIsDrawn(s: Store, appeals: nat, weight: nat, cost: nat, left: nat, rest: nat, rng: Rng) returns (c: Choice)
    requires StoreOk(s) && appeals < s.cfg.maxAppeals && Lone(s.reg, left, s.cfg.minJurorStake) && left == weight + rest
    requires weight == NecessaryDrawsWeight(appeals) && cost == s.cfg.minJurorStake * weight
    ensures SelectParticipants(s.cfg, s.reg, appeals, rng) == Ok(c)
    ensures Lone(c.reg, rest, s.cfg.minJurorStake) && Fresh(c.draws)
  {
    c := LoneJurorChoice(s, appeals, weight, cost, left, rest, rng);
  }

  lemma TrialIsDrawn(s: Store, n: nat, k: nat, rng: Rng) returns (c: Choice)
    requires Trial(s, n, k) && k > 0
    ensures SelectParticipants(s.cfg, s.reg, n + 1, rng) == Ok(c)
    ensures Lone(c.reg, WeightFrom(n + 2, k - 1), s.cfg.minJurorStake) && Fresh(c.draws)
  {
    var left, rest, weight := WeightFrom(n + 1, k), WeightFrom(n + 2, k - 1), NecessaryDrawsWeight(n + 1);
    NextWeight(n + 1, k);
    var cost := Cost(s.cfg.minJurorStake, weight);
    c := LoneIsDrawn(s, n + 1, weight, cost, left, rest, rng);
  }

  lemma Cost(m: nat, weight: nat) returns (cost: nat)
    ensures cost == m * weight
  {
    cost := m * weight;
  }

  /** A new round of the first case. */
  function NextRound(s: Store, appealed: Court, choice: Choice, schedule: Schedule): Store {
    ReserveBond(RoundStarted(s, 0, appealed.(roundEnds := RoundFrom(s.cfg, s.requestBlock)), choice, schedule), 2,
                AppealBondFor(s.cfg, |appealed.appeals|))
  }

  lemma AppealStartsRound(s: Store, rng: Rng, choice: Choice, schedule: Schedule)
    requires s.cfg.minJurorStake > 0 && CheckAppeal(s, 2, 0).None? && 0 in s.courts
    requires |s.courts[0].appeals| + 1 < s.cfg.maxAppeals
    requires SelectParticipants(s.cfg, s.reg, |s.courts[0].appeals| + 1, rng) == Ok(choice)
    requires Reschedule(s, 0, s.courts[0].roundEnds.appeal, RoundFrom(s.cfg, s.requestBlock).appeal) == Ok(schedule)
    ensures AppealCourt(s, 2, 0, rng) == Ok(NextRound(s, Appealed(s, 2, 0), choice, schedule))
  {
    var appealed := Appealed(s, 2, 0);
    assert StartRound(s, 0, appealed, rng) ==
           Ok(RoundStarted(s, 0, appealed.(roundEnds := RoundFrom(s.cfg, s.requestBlock)), choice, schedule));
  }

  lemma LoneAfterRelease(reg: Registry, draws: seq<Draw>, left: nat, m: Balance)
    requires Lone(reg, left, m)
    ensures Lone(UnlockAll(reg, draws), left, m)
  {
    UnlockAllReleases(reg, draws, 1);
  }

  lemma NextRoundIsTrial(s: Store, n: nat, k: nat, choice: Choice, schedule: Schedule)
    requires Due(s, n, k) && k > 0 && CheckAppeal(s, 2, 0).None? && Fresh(choice.draws)
    requires Lone(choice.reg, WeightFrom(n + 2, k - 1), s.cfg.minJurorStake)
    requires ScheduledOnly(schedule, RoundFrom(s.cfg, s.requestBlock).appeal)
    requires StoreOk(NextRound(s, Appealed(s, 2, 0), choice, schedule))
    ensures Early(NextRound(s, Appealed(s, 2, 0), choice, schedule), n + 1, k - 1)
  {
    LoneAfterRelease(choice.reg, DrawsOf(s, 0), WeightFrom(n + 2, k - 1), s.cfg.minJurorStake);
    CanPay(s, n, k);
  }

  lemma AppealIsTried(s: Store, step: Step)
    requires s.cfg.minJurorStake > 0 && step.AppealTo?
    ensures Try(s, step) == AppealCourt(s, step.who, step.court, step.rng)
  {
    match step
    case AppealTo(who, c, rng) =>
  }

  lemma TrialGoesOn(s: Store, n: nat, k: nat, rng: Rng)
    requires Due(s, n, k) && k > 0 && s.cfg.cacheSize >= 1
    ensures Early(Apply(s, AppealTo(2, 0, rng)), n + 1, k - 1)
  {
    AppealIsAccepted(s, n, k);
    var choice := TrialIsDrawn(s, n, k, rng);
    var schedule := TrialIsRescheduled(s, n, k);
    AppealStartsRound(s, rng, choice, schedule);
    var s' := NextRound(s, Appealed(s, 2, 0), choice, schedule);
    AppealIsTried(s, AppealTo(2, 0, rng));
    TakesEffect(s, AppealTo(2, 0, rng), s');
    StepKeepsStore(s, AppealTo(2, 0, rng));
    NextRoundIsTrial(s, n, k, choice, schedule);
  }

  // ---------- all appeals but the last ----------

  /** One more wait and appeal. */
  function OneMoreAppeal(s0: Store, steps: seq<Step>, rng: Rng): seq<Step>
    requires s0.cfg.minJurorStake > 0
  {
    steps + Blocks(Wait(After(s0, steps))) + [AppealTo(2, 0, rng)]
  }

  /** The steps, then the `k` appeals after the first `n`, each after a wait. */
  function Appeals(s0: Store, steps: seq<Step>, n: nat, k: nat, rng: nat -> Rng): seq<Step>
    requires s0.cfg.minJurorStake > 0
    decreases k
  {
    if k == 0 then steps else Appeals(s0, OneMoreAppeal(s0, steps, rng(n)), n + 1, k - 1, rng)
  }

  lemma ThenAppeal(s0: Store, steps: seq<Step>, n: nat, k: nat, rng: Rng)
    requires s0.cfg.minJurorStake > 0 && s0.cfg.appealPeriod >= 2 && s0.cfg.cacheSize >= 1
    requires Early(After(s0, steps), n, k) && k > 0
    ensures Early(After(s0, OneMoreAppeal(s0, steps, rng)), n + 1, k - 1)
  {
    var waited := steps + Blocks(Wait(After(s0, steps)));
    ThenDue(s0, steps, n, k);
    OneMoreStep(s0, waited, AppealTo(2, 0, rng));
    TrialGoesOn(After(s0, waited), n, k, rng);
  }

  lemma NoMoreAppeals(s0: Store, steps: seq<Step>, n: nat, all: nat, rng: nat -> Rng)
    requires s0.cfg.minJurorStake > 0 && Early(After(s0, steps), n, 0) && n == all
    ensures Early(After(s0, Appeals(s0, steps, n, 0, rng)), all, 0)
  {}

  lemma MoreAppeals(s0: Store, steps: seq<Step>, n: nat, k: nat, all: nat, rng: nat -> Rng)
    requires s0.cfg.minJurorStake > 0 && k > 0
    requires Early(After(s0, Appeals(s0, OneMoreAppeal(s0, steps, rng(n)), n + 1, k - 1, rng)), all, 0)
    ensures Early(After(s0, Appeals(s0, steps, n, k, rng)), all, 0)
  {}

  lemma {:induction false} ThenAppeals(s0: Store, steps: seq<Step>, n: nat, k: nat, all: nat, rng: nat -> Rng)
    requires s0.cfg.minJurorStake > 0 && s0.cfg.appealPeriod >= 2 && s0.cfg.cacheSize >= 1
    requires Early(After(s0, steps), n, k) && all == n + k
    ensures Early(After(s0, Appeals(s0, steps, n, k, rng)), all, 0)
    decreases k
  {
    if k == 0 {
      NoMoreAppeals(s0, steps, n, all, rng);
    } else {
      ThenAppeal(s0, steps, n, k, rng(n));
      ThenAppeals(s0, OneMoreAppeal(s0, steps, rng(n)), n + 1, k - 1, all, rng);
      MoreAppeals(s0, steps, n, k, all, rng);
    }
  }

  // ---------- the last appeal ----------

  lemma NoStakeLeft(s: Store, n: nat)
    requires Trial(s, n, 0)
    ensures !EnoughForAppeal(s, 0)
  {
    LonePool(s.reg.pool, 0, s.cfg.minJurorStake);
  }

  lemma FailureIsReported(s: Store, n: nat)
    requires Due(s, n, 0)
    ensures HasFailed(s, 0) == Ok(true)
  {
    NoStakeLeft(s, n);
  }

  lemma AppealSucceedsAnyway(s: Store, n: nat, rng: Rng)
    requires Due(s, n, 0)
    ensures HasFailed(s, 0) == Ok(true) && AppealCourt(s, 2, 0, rng).Ok?
  {
    FailureIsReported(s, n);
    AppealIsAccepted(s, n, 0);
    HasFailedForesees(s, 0, 2, rng);
  }

  lemma ThenRefuted(s0: Store, steps: seq<Step>, all: nat, rng: nat -> Rng, rng': Rng)
    requires s0.cfg.minJurorStake > 0 && s0.cfg.appealPeriod >= 2 && s0.cfg.cacheSize >= 1
    requires Early(After(s0, steps), 0, all)
    ensures var appealed := Appeals(s0, steps, 0, all, rng);
            var s := After(s0, appealed + Blocks(Wait(After(s0, appealed))));
            && CaseAfter(s, all) && all + 1 == s.cfg.maxAppeals
            && HasFailed(s, 0) == Ok(true) && AppealCourt(s, 2, 0, rng').Ok?
  {
    ThenAppeals(s0, steps, 0, all, all, rng);
    var appealed := Appeals(s0, steps, 0, all, rng);
    ThenDue(s0, appealed, all, 0);
    AppealSucceedsAnyway(After(s0, appealed + Blocks(Wait(After(s0, appealed)))), all, rng');
  }

  // ---------- the first round ----------

  lemma FirstEntry(s: Store)
    requires Setting(s, 0) && s.cfg.cacheSize >= 1
    ensures ScheduledOnly(CaseSchedule(s, 0), NewCourt(s.cfg, s.requestBlock).roundEnds.appeal)
  {
    var at := NewCourt(s.cfg, s.requestBlock).roundEnds.appeal;
    forall b ensures IdsAt(s.schedule, b) == [] {
      assert |IdsAt(s.schedule, b)| <= 0;
    }
    assert IdsAt(s.schedule, at) + [0] == [0];
    forall b ensures IdsAt(CaseSchedule(s, 0), b) == if b == at then [0] else [] {
      assert IdsAt(s.schedule, b) == [];
    }
  }

  lemma FirstTrial(s: Store, s': Store, all: nat)
    requires Setting(s, 0) && s.cfg.cacheSize >= 1 && all + 1 == s.cfg.maxAppeals && s.now < s.requestBlock
    requires LoneJuror(s', 1, WeightFrom(1, all)) && DrewLoneJuror(s, s', 0)
    requires GetOr(s.free, 2) >= BondsFrom(s.cfg, 1, all + 1)
    ensures Early(s', 0, all)
  {
    FirstEntry(s);
    assert OpenCase(s', 0);
  }

  lemma ThenTrial(s0: Store, steps: seq<Step>, left: nat, all: nat, rng: Rng)
    requires s0.cfg.minJurorStake > 0 && s0.cfg.cacheSize >= 1 && all + 1 == s0.cfg.maxAppeals
    requires LoneJuror(After(s0, steps), 0, left) && left == 31 + WeightFrom(1, all)
    requires var s := After(s0, steps); s.now < s.requestBlock && GetOr(s.free, 2) >= BondsFrom(s.cfg, 1, all + 1)
    ensures Early(After(s0, steps + [Dispute(0, rng)]), 0, all)
  {
    ThenDispute(s0, steps, 0, left, rng);
    FirstTrial(After(s0, steps), After(s0, steps + [Dispute(0, rng)]), all);
  }

  /** Stake of account 1 and bonds of account 2 for a trial through all appeals. */
  function TrialFunds(cfg: Config): map<AccountId, Balance> {
    map[1 := WeightFrom(0, cfg.maxAppeals) * cfg.minJurorStake, 2 := BondsFrom(cfg, 1, cfg.maxAppeals)]
  }

  lemma ThenAllRefuted(s0: Store, steps: seq<Step>, left: nat, all: nat, first: Rng, rng: nat -> Rng, rng': Rng)
    requires s0.cfg.minJurorStake > 0 && s0.cfg.appealPeriod >= 2 && s0.cfg.cacheSize >= 1
    requires all + 1 == s0.cfg.maxAppeals
    requires LoneJuror(After(s0, steps), 0, left) && left == 31 + WeightFrom(1, all)
    requires var s := After(s0, steps); s.now < s.requestBlock && GetOr(s.free, 2) >= BondsFrom(s.cfg, 1, all + 1)
    ensures var appealed := Appeals(s0, steps + [Dispute(0, first)], 0, all, rng);
            var s := After(s0, appealed + Blocks(Wait(After(s0, appealed))));
            && CaseAfter(s, all) && HasFailed(s, 0) == Ok(true) && AppealCourt(s, 2, 0, rng').Ok?
  {
    ThenTrial(s0, steps, left, all, first);
    ThenRefuted(s0, steps + [Dispute(0, first)], all, rng, rng');
  }

  /** A lone juror is drawn for every round and every appeal but the last is made. Then the mechanism is reported as
      failed, and yet the last appeal succeeds, whatever the generators: it draws nobody. */
  lemma LastAppealRefutesFailure(cfg: Config, first: Rng, rng: nat -> Rng, rng': Rng)
    requires cfg.Sound() && cfg.cacheSize >= 1 && cfg.appealPeriod >= 2
    ensures var s0, all := Genesis(cfg, TrialFunds(cfg), TwoCases(), 0), cfg.maxAppeals - 1;
            var join := Join(1, WeightFrom(0, cfg.maxAppeals) * cfg.minJurorStake);
            var appealed := Appeals(s0, [join] + [Dispute(0, first)], 0, all, rng);
            var s := After(s0, appealed + Blocks(Wait(After(s0, appealed))));
            && CaseAfter(s, all) && HasFailed(s, 0) == Ok(true) && AppealCourt(s, 2, 0, rng').Ok?
  {
    var s0 := Genesis(cfg, TrialFunds(cfg), TwoCases(), 0);
    var left := WeightFrom(0, cfg.maxAppeals);
    NextWeight(0, cfg.maxAppeals);
    FirstJoin(cfg, TrialFunds(cfg), left);
    ThenAllRefuted(s0, [Join(1, left * cfg.minJurorStake)], left, cfg.maxAppeals - 1, first, rng, rng');
  }
}
