/** Which sections a draw loses: exactly those of drawn delegators none of whose jurors can be drawn. */
module StrandedDelegators {
  import opened Collections
  import opened CourtTypes
  import opened JurorPool
  import opened Selection
  import opened SelectionProofs
  import opened SelectionTotals
  import opened DrawTheorem
  import opened PoolCleanup

  /** A delegator whose delegated jurors have all left the pool or become delegators themselves. */
  predicate Stranded(reg: Registry, who: AccountId) {
    && who in reg.participants && reg.participants[who].delegations.Some?
    && forall j :: j in reg.participants[who].delegations.value ==> !ActiveJuror(reg.pool, reg.participants, j)
  }

  /** The positions that the section ends of a draw fall on, in the order they are visited; none without the stake. */
  function DrawnSlots(cfg: Config, reg: Registry, weight: nat, rng: Rng): seq<nat>
    requires cfg.minJurorStake > 0
  {
    var m := cfg.minJurorStake;
    if TotalUnconsumed(reg.pool, m) < weight * m then [] else
      assert weight <= TotalUnconsumed(reg.pool, m) / m by {
        EnoughStakeMeansEnoughSections(weight, TotalUnconsumed(reg.pool, m), m);
      }
      Slots(reg.pool, m, SectionEnds(cfg, reg.pool, weight, rng))
  }

  predicate InBounds(reg: Registry, slots: seq<nat>) {
    forall k :: 0 <= k < |slots| ==> slots[k] < |reg.pool|
  }

  predicate StrandedAt(reg: Registry, i: nat) {
    i < |reg.pool| && Stranded(reg, reg.pool[i].who)
  }

  /** The positions among the first `n` drawn ones that hold a stranded delegator. */
  function StrandedSlots(reg: Registry, slots: seq<nat>, n: nat): seq<nat>
    requires n <= |slots|
  {
    if n == 0 then []
    else if StrandedAt(reg, slots[n - 1]) then StrandedSlots(reg, slots, n - 1) + [slots[n - 1]]
    else StrandedSlots(reg, slots, n - 1)
  }

  /** No drawn position holds a stranded delegator. */
  predicate Covered(cfg: Config, reg: Registry, weight: nat, rng: Rng)
    requires cfg.minJurorStake > 0
  {
    var slots := DrawnSlots(cfg, reg, weight, rng);
    forall k :: 0 <= k < |slots| ==> !StrandedAt(reg, slots[k])
  }

  /** How many drawn sections belong to stranded delegators. */
  function StrandedCount(cfg: Config, reg: Registry, weight: nat, rng: Rng): nat
    requires cfg.minJurorStake > 0
  {
    var slots := DrawnSlots(cfg, reg, weight, rng);
    |StrandedSlots(reg, slots, |slots|)|
  }

  lemma {:induction false} NoStrandedSlotsIff(reg: Registry, slots: seq<nat>, n: nat)
    requires n <= |slots|
    ensures |StrandedSlots(reg, slots, n)| == 0 <==> forall k :: 0 <= k < n ==> !StrandedAt(reg, slots[k])
  {
    if n > 0 {
      NoStrandedSlotsIff(reg, slots, n - 1);
    }
  }

  /** Only active locks differ. */
  ghost predicate OnlyLocksDiffer(p: map<AccountId, Participant>, p': map<AccountId, Participant>) {
    p'.Keys == p.Keys && forall a :: a in p ==> p'[a] == p[a].(activeLock := p'[a].activeLock)
  }

  lemma JurorsKeepTheirRoles(pool: seq<PoolItem>, p: map<AccountId, Participant>, p': map<AccountId, Participant>,
                             j: AccountId)
    requires OnlyLocksDiffer(p, p')
    ensures ActiveJuror(pool, p', j) <==> ActiveJuror(pool, p, j)
  {}

  ghost predicate LostSoFar(reg: Registry, slots: seq<nat>, d: Draft, n: nat) {
    && n <= |slots| && InBounds(reg, slots)
    && |d.pool| == |reg.pool| && (forall i :: 0 <= i < |d.pool| ==> d.pool[i].who == reg.pool[i].who)
    && OnlyLocksDiffer(reg.participants, d.participants)
    && d.lost == StrandedSlots(reg, slots, n)
  }

  /** The section of an account is lost iff the account is a stranded delegator. */
  lemma AddFailsIffStranded(cfg: Config, reg: Registry, d: Draft, who: AccountId, lock: Balance, pick: nat)
    requires OnlyLocksDiffer(reg.participants, d.participants)
    ensures AddToSelections(cfg, reg.pool, d.participants, d.selections, who, lock, pick).None? <==> Stranded(reg, who)
  {
    forall j ensures ActiveJuror(reg.pool, d.participants, j) <==> ActiveJuror(reg.pool, reg.participants, j) {
      JurorsKeepTheirRoles(reg.pool, reg.participants, d.participants, j);
    }
  }

  lemma LostStep(cfg: Config, reg: Registry, slots: seq<nat>, d: Draft, n: nat, pick: nat)
    requires n < |slots| && LostSoFar(reg, slots, d, n)
    ensures LostSoFar(reg, slots, SelectOne(cfg, reg.pool, d, slots[n], pick), n + 1)
  {
    var item := d.pool[slots[n]];
    AddFailsIffStranded(cfg, reg, d, item.who, Min(Unconsumed(item), cfg.minJurorStake), pick);
  }

  lemma LostAreTheStranded(cfg: Config, reg: Registry, slots: seq<nat>, picks: nat -> nat)
    requires InBounds(reg, slots)
    ensures SelectFirst(cfg, reg, slots, picks, |slots|).lost == StrandedSlots(reg, slots, |slots|)
    ensures |SelectFirst(cfg, reg, slots, picks, |slots|).pool| == |reg.pool|
  {
    var step := Stepper(cfg, reg.pool, slots, picks);
    var inv := (d: Draft, k: nat) => LostSoFar(reg, slots, d, k);
    forall d, k: nat | k < |slots| && inv(d, k) ensures inv(step(d, k), k + 1) {
      LostStep(cfg, reg, slots, d, k, picks(k));
    }
    FoldInvariant(step, Start(reg), |slots|, inv);
  }

  /** With enough stake: one position per wanted section, all of them in the pool. */
  lemma DrawnSlotsInBounds(cfg: Config, reg: Registry, weight: nat, rng: Rng)
    requires cfg.minJurorStake > 0 && RegistryOk(cfg, reg)
    requires weight * cfg.minJurorStake <= TotalUnconsumed(reg.pool, cfg.minJurorStake)
    ensures var slots := DrawnSlots(cfg, reg, weight, rng);
            |slots| == weight && InBounds(reg, slots) && Ready(cfg, reg, slots)
  {
    EnoughStakeMeansEnoughSections(weight, TotalUnconsumed(reg.pool, cfg.minJurorStake), cfg.minJurorStake);
    DrawIsReady(cfg, reg, weight, rng);
  }

  /** A draw with enough stake, in terms of its positions: the draft of all of them, then the removals. */
  lemma DrawBySlots(cfg: Config, reg: Registry, weight: nat, rng: Rng)
    requires cfg.minJurorStake > 0 && RegistryOk(cfg, reg)
    requires weight * cfg.minJurorStake <= TotalUnconsumed(reg.pool, cfg.minJurorStake)
    ensures var slots := DrawnSlots(cfg, reg, weight, rng);
            var d := SelectFirst(cfg, reg, slots, rng.jurors, |slots|);
            var pool := RemoveAll(d.pool, d.lost);
            && d.lost == StrandedSlots(reg, slots, |slots|) && |d.pool| == |reg.pool|
            && ChooseMultipleWeighted(cfg, reg, weight, rng) ==
               (if pool.None? then Err(IndexOutOfRange)
                else Ok(Choice(Registry(pool.value, d.participants, reg.locks), ConvertSelectionsToDraws(d.selections),
                               |d.lost|)))
  {
    DrawnSlotsInBounds(cfg, reg, weight, rng);
    LostAreTheStranded(cfg, reg, DrawnSlots(cfg, reg, weight, rng), rng.jurors);
  }

  /** A draw loses exactly the sections it draws from stranded delegators. */
  lemma LostIsStrandedCount(cfg: Config, reg: Registry, weight: nat, rng: Rng)
    requires cfg.minJurorStake > 0 && RegistryOk(cfg, reg) && ChooseMultipleWeighted(cfg, reg, weight, rng).Ok?
    ensures ChooseMultipleWeighted(cfg, reg, weight, rng).value.lost == StrandedCount(cfg, reg, weight, rng)
  {
    DrawBySlots(cfg, reg, weight, rng);
  }

  /** A draw loses no section iff it hits no stranded delegator. */
  lemma NothingIsLostIff(cfg: Config, reg: Registry, weight: nat, rng: Rng)
    requires cfg.minJurorStake > 0 && RegistryOk(cfg, reg) && ChooseMultipleWeighted(cfg, reg, weight, rng).Ok?
    ensures ChooseMultipleWeighted(cfg, reg, weight, rng).value.lost == 0 <==> Covered(cfg, reg, weight, rng)
  {
    LostIsStrandedCount(cfg, reg, weight, rng);
    var slots := DrawnSlots(cfg, reg, weight, rng);
    NoStrandedSlotsIff(reg, slots, |slots|);
  }

  /** With enough stake a draw succeeds iff the removal of the drawn stranded delegators, each one place short per
      earlier removal, stays within the pool. */
  lemma DrawSucceedsIff(cfg: Config, reg: Registry, weight: nat, rng: Rng)
    requires cfg.minJurorStake > 0 && RegistryOk(cfg, reg)
    requires weight * cfg.minJurorStake <= TotalUnconsumed(reg.pool, cfg.minJurorStake)
    ensures var slots := DrawnSlots(cfg, reg, weight, rng);
            var stranded := StrandedSlots(reg, slots, |slots|);
            ChooseMultipleWeighted(cfg, reg, weight, rng).Ok? <==>
            forall k :: 0 <= k < |stranded| ==> stranded[k] < |reg.pool| - k
    ensures ChooseMultipleWeighted(cfg, reg, weight, rng).Err? ==>
              ChooseMultipleWeighted(cfg, reg, weight, rng).error == IndexOutOfRange
  {
    DrawBySlots(cfg, reg, weight, rng);
    var slots := DrawnSlots(cfg, reg, weight, rng);
    var d := SelectFirst(cfg, reg, slots, rng.jurors, |slots|);
    RemoveAllInRange(d.pool, d.lost);
  }

  /** With enough stake and no stranded delegator in the pool, every draw succeeds and loses nothing, whatever the
      generator. */
  lemma NobodyStrandedDrawSucceeds(cfg: Config, reg: Registry, weight: nat, rng: Rng)
    requires cfg.minJurorStake > 0 && RegistryOk(cfg, reg)
    requires weight * cfg.minJurorStake <= TotalUnconsumed(reg.pool, cfg.minJurorStake)
    requires forall i :: 0 <= i < |reg.pool| ==> !Stranded(reg, reg.pool[i].who)
    ensures ChooseMultipleWeighted(cfg, reg, weight, rng).Ok?
    ensures ChooseMultipleWeighted(cfg, reg, weight, rng).value.lost == 0
  {
    var slots := DrawnSlots(cfg, reg, weight, rng);
    NoStrandedSlotsIff(reg, slots, |slots|);
    DrawSucceedsIff(cfg, reg, weight, rng);
    LostIsStrandedCount(cfg, reg, weight, rng);
  }

  // ---------- locks after a draw ----------

  lemma AccountedDraw(cfg: Config, reg: Registry, weight: nat, rng: Rng)
    requires cfg.minJurorStake > 0 && RegistryOk(cfg, reg)
    requires weight * cfg.minJurorStake <= TotalUnconsumed(reg.pool, cfg.minJurorStake)
    ensures var slots := DrawnSlots(cfg, reg, weight, rng);
            Accounted(cfg, reg, slots, SelectFirst(cfg, reg, slots, rng.jurors, |slots|), |slots|)
  {
    DrawnSlotsInBounds(cfg, reg, weight, rng);
    SelectionIsAccounted(cfg, reg, DrawnSlots(cfg, reg, weight, rng), rng.jurors);
  }

  lemma LocksOfDraw(cfg: Config, reg: Registry, weight: nat, rng: Rng, i: nat)
    requires cfg.minJurorStake > 0 && RegistryOk(cfg, reg) && ChooseMultipleWeighted(cfg, reg, weight, rng).Ok?
    requires i < |reg.pool|
    ensures var slots, c := DrawnSlots(cfg, reg, weight, rng), ChooseMultipleWeighted(cfg, reg, weight, rng).value;
            Lock(c.reg.participants, reg.pool[i].who) ==
            Lock(reg.participants, reg.pool[i].who) + Charged(cfg.minJurorStake, slots, |slots|, i)
  {
    DrawBySlots(cfg, reg, weight, rng);
    AccountedDraw(cfg, reg, weight, rng);
    assert reg.pool[i].who in reg.participants;
  }

  /** What the first `n` positions take from an account: one minimum stake per hit of its item. */
  function DrawnFrom(reg: Registry, m: Balance, slots: seq<nat>, n: nat, a: AccountId): Balance
    requires n <= |slots|
  {
    if n == 0 then 0 else
      DrawnFrom(reg, m, slots, n - 1, a) +
      if slots[n - 1] < |reg.pool| && reg.pool[slots[n - 1]].who == a then m else 0
  }

  /** What a draw takes from an account. */
  function DrawnStake(cfg: Config, reg: Registry, weight: nat, rng: Rng, a: AccountId): Balance
    requires cfg.minJurorStake > 0
  {
    var slots := DrawnSlots(cfg, reg, weight, rng);
    DrawnFrom(reg, cfg.minJurorStake, slots, |slots|, a)
  }

  lemma {:induction false} DrawnFromItem(reg: Registry, m: Balance, slots: seq<nat>, n: nat, i: nat)
    requires n <= |slots| && OncePerAccount(reg.pool) && i < |reg.pool|
    ensures DrawnFrom(reg, m, slots, n, reg.pool[i].who) == Charged(m, slots, n, i)
  {
    if n > 0 {
      DrawnFromItem(reg, m, slots, n - 1, i);
    }
  }

  lemma {:induction false} DrawnFromNobody(reg: Registry, m: Balance, slots: seq<nat>, n: nat, a: AccountId)
    requires n <= |slots| && !InPool(reg.pool, a)
    ensures DrawnFrom(reg, m, slots, n, a) == 0
  {
    if n > 0 {
      DrawnFromNobody(reg, m, slots, n - 1, a);
    }
  }

  /** A draw raises every active lock by exactly what it takes from the account, whether drawn or lost. */
  lemma LockAfterDraw(cfg: Config, reg: Registry, weight: nat, rng: Rng, a: AccountId)
    requires cfg.minJurorStake > 0 && RegistryOk(cfg, reg) && ChooseMultipleWeighted(cfg, reg, weight, rng).Ok?
    ensures Lock(ChooseMultipleWeighted(cfg, reg, weight, rng).value.reg.participants, a) ==
            Lock(reg.participants, a) + DrawnStake(cfg, reg, weight, rng, a)
  {
    var slots := DrawnSlots(cfg, reg, weight, rng);
    if InPool(reg.pool, a) {
      var i :| 0 <= i < |reg.pool| && reg.pool[i].who == a;
      LocksOfDraw(cfg, reg, weight, rng, i);
      DrawnFromItem(reg, cfg.minJurorStake, slots, |slots|, i);
    } else {
      DrawBySlots(cfg, reg, weight, rng);
      AccountedDraw(cfg, reg, weight, rng);
      DrawnFromNobody(reg, cfg.minJurorStake, slots, |slots|, a);
    }
  }

  // ---------- the clean-up after a draw ----------

  lemma DrawnSlotsAscend(cfg: Config, reg: Registry, weight: nat, rng: Rng)
    requires cfg.minJurorStake > 0
    ensures NonDecreasing(DrawnSlots(cfg, reg, weight, rng))
  {
    var m := cfg.minJurorStake;
    if TotalUnconsumed(reg.pool, m) >= weight * m {
      EnoughStakeMeansEnoughSections(weight, TotalUnconsumed(reg.pool, m), m);
      SectionEndsAreGood(cfg, reg.pool, weight, rng);
      SlotsAscend(reg.pool, m, SectionEnds(cfg, reg.pool, weight, rng));
    }
  }

  /** The clean-up of a draw takes exactly the stranded delegators it drew out of the pool iff it drew at most one
      section of them; with more, it also takes out items further on. */
  lemma DrawCleanupIsExactIff(cfg: Config, reg: Registry, weight: nat, rng: Rng)
    requires cfg.minJurorStake > 0 && RegistryOk(cfg, reg)
    requires ChooseMultipleWeighted(cfg, reg, weight, rng).Ok?
    ensures var slots := DrawnSlots(cfg, reg, weight, rng);
            var d := SelectFirst(cfg, reg, slots, rng.jurors, |slots|);
            var pool := ChooseMultipleWeighted(cfg, reg, weight, rng).value.reg.pool;
            (forall p :: 0 <= p < |d.pool| ==> (d.pool[p] in pool <==> p !in StrandedSlots(reg, slots, |slots|))) <==>
            StrandedCount(cfg, reg, weight, rng) <= 1
  {
    var slots := DrawnSlots(cfg, reg, weight, rng);
    DrawBySlots(cfg, reg, weight, rng);
    DrawnSlotsInBounds(cfg, reg, weight, rng);
    DrawnSlotsAscend(cfg, reg, weight, rng);
    SelectionIsAccounted(cfg, reg, slots, rng.jurors);
    var d := SelectFirst(cfg, reg, slots, rng.jurors, |slots|);
    LostPositionsAscend(cfg, reg, slots, rng.jurors);
    PoolAfterDraw(cfg, reg, slots, d);
    CleanupIsExactIffAtMostOne(d.pool, d.lost);
  }
}
