/** The stake that counts for inflation is the stake held throughout the period. */
module CourtEligibility {
  import opened Collections
  import opened SortedSearch
  import opened CourtTypes
  import opened JurorPool
  import opened Selection
  import opened DrawTheorem
  import opened Inflation
  import opened CourtMachine
  import opened CourtFrames
  import opened CourtSafety
  import SectionDraw

  // ---------- the reference: stake held throughout a list of snapshots ----------

  function StakeIn(pool: seq<PoolItem>, who: AccountId): Balance {
    if |pool| == 0 then 0 else if pool[0].who == who then pool[0].stake else StakeIn(pool[1..], who)
  }

  /** The least stake of an account over all snapshots; absence counts as zero. */
  function Held(snapshots: seq<seq<PoolItem>>, who: AccountId): Balance
    requires |snapshots| > 0
  {
    var last := StakeIn(snapshots[|snapshots| - 1], who);
    if |snapshots| == 1 then last else Min(Held(snapshots[..|snapshots| - 1], who), last)
  }

  lemma {:induction false} StakeInAt(pool: seq<PoolItem>, i: nat)
    requires OncePerAccount(pool) && i < |pool|
    ensures StakeIn(pool, pool[i].who) == pool[i].stake
  {
    if i > 0 {
      StakeInAt(pool[1..], i - 1);
    }
  }

  lemma {:induction false} StakeInAbsent(pool: seq<PoolItem>, who: AccountId)
    requires forall x :: x in pool ==> x.who != who
    ensures StakeIn(pool, who) == 0
  {
    if |pool| > 0 {
      StakeInAbsent(pool[1..], who);
    }
  }

  lemma HeldPush(snapshots: seq<seq<PoolItem>>, pool: seq<PoolItem>, who: AccountId)
    requires |snapshots| > 0
    ensures Held(snapshots + [pool], who) == Min(Held(snapshots, who), StakeIn(pool, who))
    ensures Held(snapshots, who) <= StakeIn(snapshots[|snapshots| - 1], who)
  {
    assert (snapshots + [pool])[..|snapshots|] == snapshots;
  }

  function Period(s: Store): nat
    requires s.cfg.inflationPeriod > 0
  {
    s.now / s.cfg.inflationPeriod
  }

  /** The pool at the start of the current period and after every step since. */
  function Snapshots(s: Store, steps: seq<Step>, n: nat): (r: seq<seq<PoolItem>>)
    requires s.cfg.minJurorStake > 0 && s.cfg.inflationPeriod > 0 && n <= |steps|
    ensures |r| > 0 && r[|r| - 1] == Run(s, steps, n).reg.pool
  {
    var pool := Run(s, steps, n).reg.pool;
    if n == 0 || (steps[n - 1].NextBlock? && Run(s, steps, n).now % s.cfg.inflationPeriod == 0) then [pool]
    else Snapshots(s, steps, n - 1) + [pool]
  }

  // ---------- the invariant ----------

  /** What a pool item counts for in this period is what its account held throughout the period so far. */
  ghost predicate ItemEligible(snapshots: seq<seq<PoolItem>>, period: nat, item: PoolItem)
    requires |snapshots| > 0
  {
    && item.uneligibleIndex <= period
    && (item.uneligibleIndex == period ==> item.uneligibleStake <= item.stake)
    && EligibleStake(item, period) == Held(snapshots, item.who)
  }

  ghost predicate AllEligible(snapshots: seq<seq<PoolItem>>, period: nat, pool: seq<PoolItem>)
    requires |snapshots| > 0
  {
    forall x :: x in pool ==> ItemEligible(snapshots, period, x)
  }

  // ---------- what a step does to a pool item ----------

  predicate SameEntry(x: PoolItem, x': PoolItem) {
    x'.who == x.who && x'.stake == x.stake && x'.uneligibleIndex == x.uneligibleIndex
      && x'.uneligibleStake == x.uneligibleStake
  }

  /** The item of a (re)join: only what is added in this period is uneligible. */
  predicate Joined(pool: seq<PoolItem>, period: nat, x': PoolItem) {
    && x'.uneligibleIndex == period
    && ((x'.uneligibleStake == x'.stake && forall x :: x in pool ==> x.who != x'.who) ||
        (exists x :: x in pool && Rejoined(period, x, x')))
  }

  predicate Rejoined(period: nat, x: PoolItem, x': PoolItem) {
    && x'.who == x.who && x'.stake >= x.stake
    && x'.uneligibleStake == (if period == x.uneligibleIndex then x.uneligibleStake else 0) + (x'.stake - x.stake)
  }

  ghost predicate PoolMoves(period: nat, pool: seq<PoolItem>, pool': seq<PoolItem>) {
    forall x' :: x' in pool' ==> (exists x :: x in pool && SameEntry(x, x')) || Joined(pool, period, x')
  }

  lemma StakeOfItem(pool: seq<PoolItem>, x: PoolItem)
    requires OncePerAccount(pool) && x in pool
    ensures StakeIn(pool, x.who) == x.stake
  {
    var i :| 0 <= i < |pool| && pool[i] == x;
    StakeInAt(pool, i);
  }

  lemma SnapshotKeepsItem(snapshots: seq<seq<PoolItem>>, period: nat, pool: seq<PoolItem>, pool': seq<PoolItem>,
                          x': PoolItem)
    requires |snapshots| > 0 && snapshots[|snapshots| - 1] == pool
    requires OncePerAccount(pool) && OncePerAccount(pool') && x' in pool'
    requires AllEligible(snapshots, period, pool) && PoolMoves(period, pool, pool')
    ensures ItemEligible(snapshots + [pool'], period, x')
  {
    HeldPush(snapshots, pool', x'.who);
    StakeOfItem(pool', x');
    if Joined(pool, period, x') && forall x :: x in pool ==> x.who != x'.who {
      StakeInAbsent(pool, x'.who);
    } else if exists x :: x in pool && SameEntry(x, x') {
      var x :| x in pool && SameEntry(x, x');
      StakeOfItem(pool, x);
      assert ItemEligible(snapshots, period, x);
    } else {
      var x :| x in pool && Rejoined(period, x, x');
      StakeOfItem(pool, x);
      assert ItemEligible(snapshots, period, x);
    }
  }

  // ---------- moves of the membership calls ----------

  lemma VacatedItems(cfg: Config, reg: Registry, who: AccountId, amount: Balance)
    requires RegistryOk(cfg, reg) && Vacate(cfg, reg, who, amount).Ok?
    ensures var v := Vacate(cfg, reg, who, amount).value;
            && (forall x :: x in v.pool ==> x in reg.pool)
            && (v.previous.Some? ==> v.previous.value in reg.pool && v.previous.value.who == who)
            && (v.previous.None? ==> forall x :: x in reg.pool ==> x.who != who)
  {
    if who in reg.participants {
      LookupMatchesScan(cfg, reg, who);
    }
    forall x | x in reg.pool && x.who == who ensures who in reg.participants && InPool(reg.pool, who) {
      var i :| 0 <= i < |reg.pool| && reg.pool[i] == x;
    }
  }

  /** The item of a caller that joins or joins again. */
  lemma NewItemIsJoined(cfg: Config, reg: Registry, who: AccountId, amount: Balance, now: Block)
    requires cfg.Sound() && RegistryOk(cfg, reg) && Vacate(cfg, reg, who, amount).Ok?
    requires NewItem(cfg, Vacate(cfg, reg, who, amount).value, who, amount, now).Ok?
    ensures Joined(reg.pool, now / cfg.inflationPeriod,
                   NewItem(cfg, Vacate(cfg, reg, who, amount).value, who, amount, now).value)
  {
    VacatedItems(cfg, reg, who, amount);
    var v := Vacate(cfg, reg, who, amount).value;
    if v.previous.Some? {
      assert Rejoined(now / cfg.inflationPeriod, v.previous.value, NewItem(cfg, v, who, amount, now).value);
    }
  }

  lemma InsertionMoves(period: nat, pool: seq<PoolItem>, rest: seq<PoolItem>, i: nat, item: PoolItem)
    requires i <= |rest| && (forall x :: x in rest ==> x in pool) && Joined(pool, period, item)
    ensures PoolMoves(period, pool, InsertAt(rest, i, item))
  {
    var pool' := InsertAt(rest, i, item);
    forall x' | x' in pool' ensures (exists x :: x in pool && SameEntry(x, x')) || Joined(pool, period, x') {
      if x' != item {
        assert x' in rest;
        assert x' in pool && SameEntry(x', x');
      }
    }
  }

  lemma JoinMoves(cfg: Config, reg: Registry, who: AccountId, amount: Balance, delegations: Option<seq<AccountId>>,
                  free: Balance, now: Block)
    requires cfg.Sound() && RegistryOk(cfg, reg)
    requires DoJoinCourt(cfg, reg, who, amount, delegations, free, now).Ok?
    ensures PoolMoves(now / cfg.inflationPeriod, reg.pool,
                      DoJoinCourt(cfg, reg, who, amount, delegations, free, now).value.pool)
  {
    VacatedItems(cfg, reg, who, amount);
    NewItemIsJoined(cfg, reg, who, amount, now);
    var v := Vacate(cfg, reg, who, amount).value;
    var item := NewItem(cfg, v, who, amount, now).value;
    InsertionMoves(now / cfg.inflationPeriod, reg.pool, v.pool, Search(Keys(v.pool), KeyOf(item)).at, item);
  }

  lemma SubpoolMoves(period: nat, pool: seq<PoolItem>, pool': seq<PoolItem>)
    requires forall x :: x in pool' ==> x in pool
    ensures PoolMoves(period, pool, pool')
  {
    forall x' | x' in pool' ensures exists x :: x in pool && SameEntry(x, x') {
      assert SameEntry(x', x');
    }
  }

  lemma KeptItemsMove(period: nat, pool: seq<PoolItem>, pool': seq<PoolItem>)
    requires ItemsKept(pool, pool')
    ensures PoolMoves(period, pool, pool')
  {
    forall x' | x' in pool' ensures exists x :: x in pool && SameEntry(x, x') {
      var x :| x in pool && x' == x.(consumed := x'.consumed);
      assert SameEntry(x, x');
    }
  }

  lemma JoinCourtMoves(s: Store, who: AccountId, amount: Balance)
    requires StoreOk(s) && JoinCourt(s, who, amount).Ok?
    ensures PoolMoves(Period(s), s.reg.pool, JoinCourt(s, who, amount).value.reg.pool)
  {
    JoinMoves(s.cfg, s.reg, who, amount, None, GetOr(s.free, who), s.now);
  }

  lemma DelegateMoves(s: Store, who: AccountId, amount: Balance, ds: seq<AccountId>)
    requires StoreOk(s) && Delegate(s, who, amount, ds).Ok?
    ensures PoolMoves(Period(s), s.reg.pool, Delegate(s, who, amount, ds).value.reg.pool)
  {
    DelegateIsJoin(s.cfg, s.reg, who, amount, ds, GetOr(s.free, who), s.now);
    JoinMoves(s.cfg, s.reg, who, amount, Some(SortedSeq(Elements(ds))), GetOr(s.free, who), s.now);
  }

  lemma RemovedIsSubpool(pool: seq<PoolItem>, i: nat)
    requires i < |pool|
    ensures forall x :: x in RemoveAt(pool, i) ==> x in pool
  {}

  lemma PrepareExitMoves(s: Store, who: AccountId)
    requires s.cfg.inflationPeriod > 0 && PrepareExitCourt(s, who).Ok?
    ensures PoolMoves(Period(s), s.reg.pool, PrepareExitCourt(s, who).value.reg.pool)
  {
    var found := GetPoolItem(s.reg.pool, s.reg.participants[who].stake, who);
    if found.Some? {
      RemovedIsSubpool(s.reg.pool, found.value);
    }
    SubpoolMoves(Period(s), s.reg.pool, PrepareExitCourt(s, who).value.reg.pool);
  }

  lemma ExitMoves(s: Store, who: AccountId)
    requires s.cfg.inflationPeriod > 0 && ExitCourt(s, who).Ok?
    ensures PoolMoves(Period(s), s.reg.pool, ExitCourt(s, who).value.reg.pool)
  {
    SubpoolMoves(Period(s), s.reg.pool, ExitCourt(s, who).value.reg.pool);
  }

  lemma MembershipStepMoves(s: Store, step: Step)
    requires StoreOk(s) && Membership(step)
    ensures PoolMoves(Period(s), s.reg.pool, Apply(s, step).reg.pool)
  {
    SubpoolMoves(Period(s), s.reg.pool, s.reg.pool);
    if Try(s, step).Ok? {
      match step
      case Join(who, amount) => JoinCourtMoves(s, who, amount);
      case JoinAsDelegator(who, amount, ds) => DelegateMoves(s, who, amount, ds);
      case PrepareExit(who) => PrepareExitMoves(s, who);
      case Exit(who) => ExitMoves(s, who);
    }
  }

  lemma ClosingKeepsPool(s: Store, step: Step)
    requires s.cfg.minJurorStake > 0 && Closing(step)
    ensures Apply(s, step).reg.pool == s.reg.pool
  {}

  /** Which steps leave the pool as it is. */
  lemma SamePool(s: Store, step: Step)
    requires s.cfg.minJurorStake > 0 &&
             (Votes(step) || Closing(step) || step.NextBlock? || step.ExchangeFor? || step.SetInflation? ||
              step.SetBalance? || step.SetMarket?)
    ensures Apply(s, step).reg.pool == s.reg.pool
  {
    if Closing(step) {
      ClosingKeepsPool(s, step);
    } else if Votes(step) && Try(s, step).Ok? {
      var _, _ := VoteStepFrame(s, step);
    }
  }

  lemma AppealMoves(s: Store, who: AccountId, c: CourtId, rng: Rng)
    requires StoreOk(s) && AppealCourt(s, who, c, rng).Ok?
    ensures PoolMoves(Period(s), s.reg.pool, AppealCourt(s, who, c, rng).value.reg.pool)
  {
    var appealed := Appealed(s, who, c);
    if |appealed.appeals| < s.cfg.maxAppeals {
      NothingIsTruncated(s.cfg, s.reg, |appealed.appeals|, rng);
      KeptItemsMove(Period(s), s.reg.pool, SelectParticipants(s.cfg, s.reg, |appealed.appeals|, rng).value.reg.pool);
    } else {
      SubpoolMoves(Period(s), s.reg.pool, s.reg.pool);
    }
  }

  lemma StepMoves(s: Store, step: Step)
    requires StoreOk(s)
    ensures PoolMoves(Period(s), s.reg.pool, Apply(s, step).reg.pool)
  {
    if Membership(step) {
      MembershipStepMoves(s, step);
    } else if step.AppealTo? && Try(s, step).Ok? {
      AppealMoves(s, step.who, step.court, step.rng);
    } else if step.Dispute? && Try(s, step).Ok? {
      NothingIsTruncated(s.cfg, s.reg, 0, step.rng);
      KeptItemsMove(Period(s), s.reg.pool, SelectParticipants(s.cfg, s.reg, 0, step.rng).value.reg.pool);
    } else {
      if !step.AppealTo? && !step.Dispute? { SamePool(s, step); }
      SubpoolMoves(Period(s), s.reg.pool, s.reg.pool);
    }
  }

  // ---------- runs ----------

  lemma PeriodOfNextBlock(now: nat, p: nat)
    requires p > 0
    ensures (now + 1) % p == 0 ==> (now + 1) / p == now / p + 1
    ensures (now + 1) % p != 0 ==> (now + 1) / p == now / p
  {
    var q, r := now / p, now % p;
    assert now + 1 == q * p + (r + 1);
    if r + 1 == p {
      assert now + 1 == (q + 1) * p;
      SectionDraw.QuotientIsUnique(now + 1, q + 1, 0, p);
    } else {
      SectionDraw.QuotientIsUnique(now + 1, q, r + 1, p);
    }
  }

  lemma NewPeriodIsEligible(snapshots: seq<seq<PoolItem>>, period: nat, pool: seq<PoolItem>)
    requires |snapshots| > 0 && OncePerAccount(pool) && AllEligible(snapshots, period, pool)
    ensures AllEligible([pool], period + 1, pool)
  {
    forall x | x in pool ensures ItemEligible([pool], period + 1, x) {
      assert ItemEligible(snapshots, period, x);
      StakeOfItem(pool, x);
    }
  }

  lemma StepClock(s: Store, step: Step)
    requires s.cfg.minJurorStake > 0
    ensures Apply(s, step).now == if step.NextBlock? then s.now + 1 else s.now
  {
    if Quiet(step) {
      QuietStepFrame(s, step);
    } else if Closing(step) {
      ClosingFrame(s, step);
    } else if Try(s, step).Ok? {
      match step
      case AppealTo(who, c, rng) => AppealFrame(s, who, c, rng);
      case Dispute(m, rng) => DisputeFrame(s, m, rng);
    }
  }

  /** The invariant of eligibility after one step, with the snapshots that go with it. */
  lemma EligibilityStep(s: Store, step: Step, snapshots: seq<seq<PoolItem>>)
    requires StoreOk(s) && |snapshots| > 0 && snapshots[|snapshots| - 1] == s.reg.pool
    requires AllEligible(snapshots, Period(s), s.reg.pool)
    ensures Apply(s, step).cfg == s.cfg
    ensures var s' := Apply(s, step);
            if step.NextBlock? && s'.now % s.cfg.inflationPeriod == 0
            then AllEligible([s'.reg.pool], Period(s'), s'.reg.pool)
            else AllEligible(snapshots + [s'.reg.pool], Period(s'), s'.reg.pool)
  {
    var s' := Apply(s, step);
    ConfigIsConstant(s, step);
    StepKeepsStore(s, step);
    StepClock(s, step);
    PeriodOfNextBlock(s.now, s.cfg.inflationPeriod);
    if step.NextBlock? && s'.now % s.cfg.inflationPeriod == 0 {
      SamePool(s, step);
      NewPeriodIsEligible(snapshots, Period(s), s.reg.pool);
    } else {
      StepMoves(s, step);
      forall x | x in s'.reg.pool ensures ItemEligible(snapshots + [s'.reg.pool], Period(s'), x) {
        SnapshotKeepsItem(snapshots, Period(s), s.reg.pool, s'.reg.pool, x);
      }
    }
  }

  lemma {:induction false} EligibilityHolds(s: Store, steps: seq<Step>, n: nat)
    requires StoreOk(s) && s.reg.pool == [] && n <= |steps|
    ensures AllEligible(Snapshots(s, steps, n), Period(Run(s, steps, n)), Run(s, steps, n).reg.pool)
  {
    if n > 0 {
      EligibilityHolds(s, steps, n - 1);
      EveryRunIsSafe(s, steps, n - 1);
      EligibilityStep(Run(s, steps, n - 1), steps[n - 1], Snapshots(s, steps, n - 1));
    }
  }

  lemma NextBlockClock(s: Store, steps: seq<Step>, n: nat)
    requires s.cfg.minJurorStake > 0 && n < |steps| && steps[n].NextBlock?
    ensures Run(s, steps, n + 1).now == Run(s, steps, n).now + 1
  {}

  lemma EligibleSoFar(s: Store, steps: seq<Step>, n: nat, x: PoolItem)
    requires StoreOk(s) && s.reg.pool == [] && n <= |steps| && x in Run(s, steps, n).reg.pool
    ensures EligibleStake(x, Period(Run(s, steps, n))) == Held(Snapshots(s, steps, n), x.who)
  {
    EligibilityHolds(s, steps, n);
    assert ItemEligible(Snapshots(s, steps, n), Period(Run(s, steps, n)), x);
  }

  lemma EndedPeriod(s: Store, steps: seq<Step>, n: nat)
    requires s.cfg.minJurorStake > 0 && s.cfg.inflationPeriod > 0 && n < |steps| && steps[n].NextBlock?
    requires Run(s, steps, n + 1).now % s.cfg.inflationPeriod == 0
    ensures Minus(Run(s, steps, n + 1).now / s.cfg.inflationPeriod, 1) == Period(Run(s, steps, n))
  {
    NextBlockClock(s, steps, n);
    PeriodOfNextBlock(Run(s, steps, n).now, s.cfg.inflationPeriod);
  }

  /** When a block starts a new inflation period, the stake that each pool item is paid for is the stake its
      account held in every pool snapshot of the period just ended, from its start on. */
  lemma EligibleStakeIsHeldThroughout(s: Store, steps: seq<Step>, n: nat, x: PoolItem)
    requires StoreOk(s) && s.reg.pool == [] && n < |steps| && steps[n].NextBlock?
    requires Run(s, steps, n + 1).now % s.cfg.inflationPeriod == 0
    requires x in Run(s, steps, n).reg.pool
    ensures var ended := Minus(Run(s, steps, n + 1).now / s.cfg.inflationPeriod, 1);
            EligibleStake(x, ended) == Held(Snapshots(s, steps, n), x.who)
  {
    EligibleSoFar(s, steps, n, x);
    EndedPeriod(s, steps, n);
  }
}
