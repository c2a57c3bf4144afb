/** Appeal bonds stay fully reserved until they are settled, so that settling them never comes up short. */
module AppealBonds {
  import opened Collections
  import opened CourtTypes
  import opened Selection
  import opened Reassignment
  import opened CourtMachine
  import opened CourtFrames
  import opened CourtSafety

  /** The bonds an account put up for the first `n` appeals. */
  function BondsOf(appeals: seq<Appeal>, n: nat, a: AccountId): Balance
    requires n <= |appeals|
  {
    if n == 0 then 0 else BondsOf(appeals, n - 1, a) + if appeals[n - 1].backer == a then appeals[n - 1].bond else 0
  }

  predicate Upheld(appeal: Appeal, resolved: OutcomeReport) {
    appeal.appealed != Outcome(resolved)
  }

  /** The bonds of an account whose appeals turned out justified. */
  function UpheldBondsOf(appeals: seq<Appeal>, n: nat, a: AccountId, resolved: OutcomeReport): Balance
    requires n <= |appeals|
  {
    if n == 0 then 0 else
      UpheldBondsOf(appeals, n - 1, a, resolved) +
      if appeals[n - 1].backer == a && Upheld(appeals[n - 1], resolved) then appeals[n - 1].bond else 0
  }

  /** All bonds of appeals against what was resolved on. */
  function LostBonds(appeals: seq<Appeal>, n: nat, resolved: OutcomeReport): Balance
    requires n <= |appeals|
  {
    if n == 0 then 0 else
      LostBonds(appeals, n - 1, resolved) + if Upheld(appeals[n - 1], resolved) then 0 else appeals[n - 1].bond
  }

  // ---------- settling one court ----------

  lemma {:induction false} BondsGrow(appeals: seq<Appeal>, n: nat, k: nat, a: AccountId)
    requires n <= k <= |appeals|
    ensures BondsOf(appeals, n, a) <= BondsOf(appeals, k, a)
    decreases k
  {
    if n < k {
      BondsGrow(appeals, n, k - 1, a);
    }
  }

  /** If all bonds are reserved, nothing is missing: each reserve shrinks by exactly the account's bonds, justified
      ones are given back, and the others are what is taken. */
  lemma {:induction false} BondsAreSettled(b: Bonds, appeals: seq<Appeal>, n: nat, resolved: OutcomeReport,
                                           a: AccountId)
    requires n <= |appeals| && SettleBonds(b, appeals, n, resolved).Ok?
    requires forall x :: BondsOf(appeals, |appeals|, x) <= GetOr(b.reserved, x)
    ensures var r := SettleBonds(b, appeals, n, resolved).value;
            && GetOr(r.reserved, a) == GetOr(b.reserved, a) - BondsOf(appeals, n, a)
            && GetOr(r.free, a) == GetOr(b.free, a) + UpheldBondsOf(appeals, n, a, resolved)
            && r.taken == b.taken + LostBonds(appeals, n, resolved)
  {
    if n > 0 {
      BondsAreSettled(b, appeals, n - 1, resolved, a);
      var backer := appeals[n - 1].backer;
      BondsAreSettled(b, appeals, n - 1, resolved, backer);
      BondsGrow(appeals, n, |appeals|, backer);
    }
  }

  // ---------- all unsettled courts ----------

  ghost function BondTable(courts: map<CourtId, Court>, settled: set<CourtId>, a: AccountId): map<CourtId, nat> {
    map c | c in courts && c !in settled :: BondsOf(courts[c].appeals, |courts[c].appeals|, a)
  }

  ghost function Unsettled(courts: map<CourtId, Court>, settled: set<CourtId>, a: AccountId): nat {
    MapSum(BondTable(courts, settled, a))
  }

  /** Everybody's reserve covers the bonds of all courts that are not settled. */
  ghost predicate Backed(s: Store, settled: set<CourtId>) {
    forall a :: Unsettled(s.courts, settled, a) <= GetOr(s.reserved, a)
  }

  lemma {:induction false} BondsOfPrefix(appeals: seq<Appeal>, appeal: Appeal, n: nat, a: AccountId)
    requires n <= |appeals|
    ensures BondsOf(appeals + [appeal], n, a) == BondsOf(appeals, n, a)
  {
    if n > 0 {
      BondsOfPrefix(appeals, appeal, n - 1, a);
    }
  }

  lemma BondsOfPush(appeals: seq<Appeal>, appeal: Appeal, a: AccountId)
    ensures BondsOf(appeals + [appeal], |appeals| + 1, a) ==
            BondsOf(appeals, |appeals|, a) + if appeal.backer == a then appeal.bond else 0
  {
    BondsOfPrefix(appeals, appeal, |appeals|, a);
  }

  /** Replacing one court. */
  lemma UnsettledPut(courts: map<CourtId, Court>, settled: set<CourtId>, c: CourtId, court: Court, a: AccountId)
    requires c in courts && c !in settled
    ensures Unsettled(courts[c := court], settled, a) ==
            Unsettled(courts, settled, a) - BondsOf(courts[c].appeals, |courts[c].appeals|, a)
              + BondsOf(court.appeals, |court.appeals|, a)
  {
    var table, bonds := BondTable(courts, settled, a), BondsOf(court.appeals, |court.appeals|, a);
    assert BondTable(courts[c := court], settled, a) == table[c := bonds];
    MapSumUpdate(table, c, bonds);
  }

  lemma UnsettledSettle(courts: map<CourtId, Court>, settled: set<CourtId>, c: CourtId, a: AccountId)
    requires c in courts && c !in settled
    ensures Unsettled(courts, settled + {c}, a) ==
            Unsettled(courts, settled, a) - BondsOf(courts[c].appeals, |courts[c].appeals|, a)
  {
    assert BondTable(courts, settled + {c}, a) == BondTable(courts, settled, a) - {c};
    MapSumRemove(BondTable(courts, settled, a), c);
  }

  /** Settling a court for the first time takes and gives back exactly its bonds, and the rest stays backed. */
  lemma ExchangeSettlesBonds(s: Store, settled: set<CourtId>, m: MarketId, resolved: OutcomeReport, a: AccountId)
    requires Backed(s, settled) && Exchange(s, m, resolved).Ok? && s.courtOf[m] !in settled
    ensures var appeals, s' := s.courts[s.courtOf[m]].appeals, Exchange(s, m, resolved).value;
            && GetOr(s'.reserved, a) == GetOr(s.reserved, a) - BondsOf(appeals, |appeals|, a)
            && GetOr(s'.free, a) == GetOr(s.free, a) + UpheldBondsOf(appeals, |appeals|, a, resolved)
            && ExchangeBonds(s, m, resolved).value.taken == LostBonds(appeals, |appeals|, resolved)
  {
    var c := s.courtOf[m];
    var appeals := s.courts[c].appeals;
    forall x ensures BondsOf(appeals, |appeals|, x) <= GetOr(s.reserved, x) {
      UnsettledSettle(s.courts, settled, c, x);
    }
    BondsAreSettled(Bonds(s.free, s.reserved, 0), appeals, |appeals|, resolved, a);
  }

  // ---------- steps ----------

  lemma ExchangeKeepsBacked(s: Store, settled: set<CourtId>, m: MarketId, resolved: OutcomeReport)
    requires Backed(s, settled) && Exchange(s, m, resolved).Ok? && s.courtOf[m] !in settled
    ensures Backed(Exchange(s, m, resolved).value, settled + {s.courtOf[m]})
  {
    var s' := Exchange(s, m, resolved).value;
    forall a ensures Unsettled(s'.courts, settled + {s.courtOf[m]}, a) <= GetOr(s'.reserved, a) {
      ExchangeSettlesBonds(s, settled, m, resolved, a);
      UnsettledSettle(s.courts, settled, s.courtOf[m], a);
    }
  }

  /** A court with one more appeal, and the backer's reserve raised by the bond. */
  lemma OneMoreAppeal(s: Store, s': Store, settled: set<CourtId>, c: CourtId, court: Court, appeal: Appeal)
    requires Backed(s, settled) && c in s.courts && s'.courts == s.courts[c := court]
    requires court.appeals == s.courts[c].appeals + [appeal]
             && s'.reserved == Deposit(s.reserved, appeal.backer, appeal.bond)
    ensures Backed(s', settled)
  {
    forall a ensures Unsettled(s'.courts, settled, a) <= GetOr(s'.reserved, a) {
      BondsOfPush(s.courts[c].appeals, appeal, a);
      assert Unsettled(s.courts, settled, a) <= GetOr(s.reserved, a);
      if c in settled {
        assert BondTable(s'.courts, settled, a) == BondTable(s.courts, settled, a);
      } else {
        UnsettledPut(s.courts, settled, c, court, a);
      }
    }
  }

  lemma AppealKeepsBacked(s: Store, settled: set<CourtId>, who: AccountId, c: CourtId, rng: Rng)
    requires s.cfg.minJurorStake > 0 && Backed(s, settled) && AppealCourt(s, who, c, rng).Ok?
    ensures Backed(AppealCourt(s, who, c, rng).value, settled)
  {
    AppealFrame(s, who, c, rng);
    AppealReserves(s, who, c, rng);
    var appealed := Appealed(s, who, c);
    OneMoreAppeal(s, AppealCourt(s, who, c, rng).value, settled, c, AfterAppeal(s, appealed),
                  appealed.appeals[|s.courts[c].appeals|]);
  }

  lemma AppealReserves(s: Store, who: AccountId, c: CourtId, rng: Rng)
    requires s.cfg.minJurorStake > 0 && AppealCourt(s, who, c, rng).Ok?
    ensures AppealCourt(s, who, c, rng).value.reserved ==
            Deposit(s.reserved, who, AppealBondFor(s.cfg, |s.courts[c].appeals| + 1))
  {
    assert Advance(s, c, Appealed(s, who, c), rng).value.reserved == s.reserved;
  }

  lemma OpeningKeepsBacked(s: Store, s': Store, settled: set<CourtId>, c: CourtId, court: Court)
    requires Backed(s, settled) && c !in s.courts && |court.appeals| == 0
    requires s'.courts == s.courts[c := court] && s'.reserved == s.reserved
    ensures Backed(s', settled)
  {
    forall a ensures Unsettled(s'.courts, settled, a) <= GetOr(s'.reserved, a) {
      var table := BondTable(s.courts, settled, a);
      if c in settled {
        assert BondTable(s'.courts, settled, a) == table;
      } else {
        assert BondTable(s'.courts, settled, a) == table[c := 0];
        MapSumUpdate(table, c, 0);
      }
    }
  }

  /** Courts that remain keep their appeals. */
  lemma ClosingKeepsBacked(s: Store, s': Store, settled: set<CourtId>)
    requires Backed(s, settled) && SameButStatus(s.courts, s'.courts) && s'.reserved == s.reserved
    ensures Backed(s', settled)
  {
    forall a ensures Unsettled(s'.courts, settled, a) <= GetOr(s'.reserved, a) {
      SubtableSum(BondTable(s.courts, settled, a), BondTable(s'.courts, settled, a));
    }
  }

  lemma {:induction false} SubtableSum(table: map<CourtId, nat>, part: map<CourtId, nat>)
    requires forall c :: c in part ==> c in table && table[c] == part[c]
    ensures MapSum(part) <= MapSum(table)
    decreases table.Keys
  {
    if table.Keys == {} {
      assert part == map[];
    } else {
      var c :| c in table.Keys;
      MapSumSplit(table, c);
      MapSumRemove(part, c);
      SubtableSum(table - {c}, part - {c});
    }
  }

  lemma QuietLeavesReserves(s: Store, step: Step)
    requires s.cfg.minJurorStake > 0 && Quiet(step) && !step.ExchangeFor?
    ensures Apply(s, step).reserved == s.reserved
  {
    if Votes(step) {
      VoteFrame(s, step);
    } else if Membership(step) {
      MembershipFrame(s, step);
    }
  }

  // ---------- runs ----------

  function NextSettled(s: Store, step: Step, settled: set<CourtId>): set<CourtId> {
    if step.ExchangeFor? && Exchange(s, step.market, step.outcome).Ok?
    then settled + {s.courtOf[step.market]}
    else settled
  }

  function SettledAfter(s: Store, steps: seq<Step>, n: nat): set<CourtId>
    requires s.cfg.minJurorStake > 0 && n <= |steps|
  {
    if n == 0 then {} else NextSettled(Run(s, steps, n - 1), steps[n - 1], SettledAfter(s, steps, n - 1))
  }

  /** No court's bonds are settled twice. */
  predicate SettlesOnce(s: Store, steps: seq<Step>, n: nat)
    requires s.cfg.minJurorStake > 0 && n <= |steps|
  {
    n == 0 ||
    (SettlesOnce(s, steps, n - 1) && FirstSettlement(Run(s, steps, n - 1), steps[n - 1], SettledAfter(s, steps, n - 1)))
  }

  predicate FirstSettlement(s: Store, step: Step, settled: set<CourtId>) {
    step.ExchangeFor? && step.market in s.courtOf ==> s.courtOf[step.market] !in settled
  }

  lemma StepKeepsBacked(s: Store, step: Step, settled: set<CourtId>)
    requires s.cfg.minJurorStake > 0 && Backed(s, settled) && FirstSettlement(s, step, settled)
    requires forall c :: c in s.courts ==> c < s.nextCourtId
    ensures Backed(Apply(s, step), NextSettled(s, step, settled))
  {
    if step.ExchangeFor? {
      if Exchange(s, step.market, step.outcome).Ok? {
        ExchangeKeepsBacked(s, settled, step.market, step.outcome);
      }
    } else if Quiet(step) {
      QuietStepFrame(s, step);
      QuietLeavesReserves(s, step);
    } else if Closing(step) {
      ClosingFrame(s, step);
      ClosingKeepsBacked(s, Apply(s, step), settled);
    } else if Try(s, step).Ok? {
      match step
      case AppealTo(who, c, rng) => AppealKeepsBacked(s, settled, who, c, rng);
      case Dispute(m, rng) =>
        DisputeFrame(s, m, rng);
        OpeningKeepsBacked(s, OnDispute(s, m, rng).value, settled, s.nextCourtId, NewCourt(s.cfg, s.requestBlock));
    }
  }

  /** Over any run that settles no court twice, reserves cover all unsettled bonds; so whenever a court is settled,
      nothing is missing. */
  lemma {:induction false} BondsStayBacked(s: Store, steps: seq<Step>, n: nat)
    requires StoreOk(s) && Backed(s, {}) && n <= |steps| && SettlesOnce(s, steps, n)
    ensures Backed(Run(s, steps, n), SettledAfter(s, steps, n))
  {
    if n > 0 {
      BondsStayBacked(s, steps, n - 1);
      EveryRunIsSafe(s, steps, n - 1);
      StepKeepsBacked(Run(s, steps, n - 1), steps[n - 1], SettledAfter(s, steps, n - 1));
    }
  }

  lemma GenesisIsBacked(cfg: Config, free: Free, markets: map<MarketId, Market>, issuance: Balance)
    ensures Backed(Genesis(cfg, free, markets, issuance), {})
  {
    var s := Genesis(cfg, free, markets, issuance);
    forall a ensures Unsettled(s.courts, {}, a) == 0 {
      assert BondTable(s.courts, {}, a) == map[];
    }
  }
}
