/** What every selection guarantees, for every pool and every random generator. */
module SelectionProofs {
  import opened Collections
  import opened CourtTypes
  import opened JurorPool
  import opened Selection
  import SectionDraw

  // ---------- multiples of the minimum stake ----------

  lemma MultiplesApart(a: nat, b: nat, m: nat)
    requires m > 0 && a % m == 0 && b % m == 0 && a < b
    ensures a + m <= b
  {
    assert a == a / m * m && b == b / m * m;
    if b / m <= a / m {
      SectionDraw.MulMonotone(b / m, a / m, m);
    } else {
      SectionDraw.MulMonotone(a / m + 1, b / m, m);
    }
  }

  lemma SumOfMultiples(a: nat, b: nat, m: nat)
    requires m > 0 && a % m == 0 && b % m == 0
    ensures (a + b) % m == 0
  {
    assert a + b == (a / m + b / m) * m;
    SectionDraw.MultipleHasNoRemainder(a / m + b / m, m);
  }

  lemma UsableIsMultiple(item: PoolItem, m: Balance)
    requires m > 0
    ensures Usable(item, m) % m == 0
    ensures Usable(item, m) <= Unconsumed(item) < Usable(item, m) + m
  {
    var u := Unconsumed(item);
    assert u - u % m == u / m * m;
    SectionDraw.MultipleHasNoRemainder(u / m, m);
  }

  lemma {:induction false} PrefixIsMultiple(pool: seq<PoolItem>, m: Balance, i: nat)
    requires m > 0 && i <= |pool|
    ensures Prefix(pool, m, i) % m == 0
    decreases i
  {
    if i > 0 {
      PrefixIsMultiple(pool, m, i - 1);
      UsableIsMultiple(pool[i - 1], m);
      SumOfMultiples(Prefix(pool, m, i - 1), Usable(pool[i - 1], m), m);
    }
  }

  // ---------- what has been charged to an account so far ----------

  predicate GoodEnds(pool: seq<PoolItem>, m: Balance, es: seq<nat>)
    requires m > 0
  {
    && Increasing(es)
    && forall k :: 0 <= k < |es| ==> 0 < es[k] <= TotalUnconsumed(pool, m) && es[k] % m == 0
  }

  /** How many of the first `n` positions are `i`. */
  function Hits(slots: seq<nat>, n: nat, i: nat): nat
    requires n <= |slots|
  {
    if n == 0 then 0 else Hits(slots, n - 1, i) + if slots[n - 1] == i then 1 else 0
  }

  /** One minimum stake per hit. */
  function Charged(m: Balance, slots: seq<nat>, n: nat, i: nat): Balance
    requires n <= |slots|
  {
    if n == 0 then 0 else Charged(m, slots, n - 1, i) + if slots[n - 1] == i then m else 0
  }

  lemma OneMore(m: nat, k: nat)
    ensures m * (k + 1) == m * k + m
  {}

  lemma {:induction false} ChargedIsHits(m: Balance, slots: seq<nat>, n: nat, i: nat)
    requires n <= |slots|
    ensures Charged(m, slots, n, i) == m * Hits(slots, n, i)
  {
    if n > 0 {
      ChargedIsHits(m, slots, n - 1, i);
      OneMore(m, Hits(slots, n - 1, i));
    }
  }

  /** The part of an item's section that lies at or below `last`. */
  function Room(pool: seq<PoolItem>, m: Balance, i: nat, last: nat): nat
    requires m > 0 && i < |pool|
  {
    Min(Usable(pool[i], m), Minus(last, Prefix(pool, m, i)))
  }

  function LastEnd(es: seq<nat>, n: nat): nat
    requires n <= |es|
  {
    if n == 0 then 0 else es[n - 1]
  }

  /** An end in a section, one minimum stake or more after the previous end and after the section's start. */
  lemma RoomGrows(charged: nat, usable: nat, start: nat, last: nat, e: nat, m: nat)
    requires charged <= Min(usable, Minus(last, start)) && last + m <= e && start + m <= e <= start + usable
    ensures charged + m <= Min(usable, Minus(e, start))
  {}

  lemma EndIsMultiple(pool: seq<PoolItem>, m: Balance, es: seq<nat>, n: nat)
    requires m > 0 && GoodEnds(pool, m, es) && n <= |es|
    ensures LastEnd(es, n) % m == 0
    ensures n > 0 ==> LastEnd(es, n - 1) < LastEnd(es, n)
  {}

  lemma EndsAreApart(pool: seq<PoolItem>, m: Balance, es: seq<nat>, n: nat, i: nat)
    requires m > 0 && GoodEnds(pool, m, es) && 0 < n <= |es| && i < |pool|
    ensures LastEnd(es, n - 1) + m <= es[n - 1]
    ensures Prefix(pool, m, i) < es[n - 1] ==> Prefix(pool, m, i) + m <= es[n - 1]
  {
    EndIsMultiple(pool, m, es, n);
    EndIsMultiple(pool, m, es, n - 1);
    MultiplesApart(LastEnd(es, n - 1), LastEnd(es, n), m);
    PrefixIsMultiple(pool, m, i);
    if Prefix(pool, m, i) < es[n - 1] {
      MultiplesApart(Prefix(pool, m, i), LastEnd(es, n), m);
    }
  }

  /** Visited in ascending order, no item is charged more than the part of its section passed so far. */
  lemma {:induction false} ChargesFit(pool: seq<PoolItem>, m: Balance, es: seq<nat>, n: nat, i: nat)
    requires m > 0 && GoodEnds(pool, m, es) && n <= |es| && i < |pool|
    ensures Charged(m, Slots(pool, m, es), n, i) <= Room(pool, m, i, LastEnd(es, n))
    decreases n
  {
    if n > 0 {
      ChargesFit(pool, m, es, n - 1, i);
      var e, last := es[n - 1], LastEnd(es, n - 1);
      EndsAreApart(pool, m, es, n, i);
      if Slots(pool, m, es)[n - 1] == i {
        SlotIsInSection(pool, m, e);
        RoomGrows(Charged(m, Slots(pool, m, es), n - 1, i), Usable(pool[i], m), Prefix(pool, m, i), last, e, m);
      }
    }
  }

  /** No item is hit more often than its unconsumed stake holds the minimum stake. */
  lemma HitsAreBounded(pool: seq<PoolItem>, m: Balance, es: seq<nat>, i: nat)
    requires m > 0 && GoodEnds(pool, m, es) && i < |pool|
    ensures Hits(Slots(pool, m, es), |es|, i) <= Unconsumed(pool[i]) / m
  {
    ChargesFit(pool, m, es, |es|, i);
    ChargedIsHits(m, Slots(pool, m, es), |es|, i);
    EnoughStakeMeansEnoughSections(Hits(Slots(pool, m, es), |es|, i), Unconsumed(pool[i]), m);
  }

  /** All positions exist and the items there can pay a whole minimum stake per hit. */
  predicate Affordable(pool: seq<PoolItem>, m: Balance, slots: seq<nat>) {
    && (forall k :: 0 <= k < |slots| ==> slots[k] < |pool|)
    && (forall i :: 0 <= i < |pool| ==> Charged(m, slots, |slots|, i) <= Unconsumed(pool[i]))
  }

  lemma {:induction false} ChargedGrows(m: Balance, slots: seq<nat>, n: nat, k: nat, i: nat)
    requires n <= k <= |slots|
    ensures Charged(m, slots, n, i) <= Charged(m, slots, k, i)
    decreases k
  {
    if n < k {
      ChargedGrows(m, slots, n, k - 1, i);
    }
  }

  /** Before its `n`-th position the item there still has a whole minimum stake left. */
  lemma StillAffordable(pool: seq<PoolItem>, m: Balance, slots: seq<nat>, n: nat, pool': seq<PoolItem>)
    requires Affordable(pool, m, slots) && n < |slots| && PoolTracks(pool, m, slots, n, pool')
    ensures Unconsumed(pool'[slots[n]]) >= m
  {
    ChargedGrows(m, slots, n + 1, |slots|, slots[n]);
  }

  lemma DrawnSlotsAreAffordable(pool: seq<PoolItem>, m: Balance, es: seq<nat>)
    requires m > 0 && GoodEnds(pool, m, es)
    ensures Affordable(pool, m, Slots(pool, m, es))
  {
    var slots := Slots(pool, m, es);
    forall k | 0 <= k < |slots| ensures slots[k] < |pool| {
      SlotIsTheOnlySection(pool, m, es[k]);
    }
    forall i | 0 <= i < |pool| ensures Charged(m, slots, |slots|, i) <= Unconsumed(pool[i]) {
      ChargesFit(pool, m, es, |slots|, i);
    }
  }

  // ---------- pool and locks during the loop ----------

  /** What the selection needs of the registry. */
  predicate Drawable(reg: Registry) {
    && OncePerAccount(reg.pool)
    && forall i :: 0 <= i < |reg.pool| ==>
         reg.pool[i].who in reg.participants && reg.pool[i].consumed <= reg.pool[i].stake
  }

  predicate PoolTracks(pool: seq<PoolItem>, m: Balance, slots: seq<nat>, n: nat, pool': seq<PoolItem>)
    requires n <= |slots|
  {
    && |pool'| == |pool|
    && forall i :: 0 <= i < |pool| ==> pool'[i] == pool[i].(consumed := pool[i].consumed + Charged(m, slots, n, i))
  }

  predicate LocksTrack(reg: Registry, m: Balance, slots: seq<nat>, n: nat, participants: map<AccountId, Participant>)
    requires n <= |slots|
  {
    && participants.Keys == reg.participants.Keys
    && (forall i :: 0 <= i < |reg.pool| && reg.pool[i].who in participants ==>
          participants[reg.pool[i].who] == reg.participants[reg.pool[i].who].(
            activeLock := reg.participants[reg.pool[i].who].activeLock + Charged(m, slots, n, i)))
    && (forall a :: a in participants && !InPool(reg.pool, a) ==> participants[a] == reg.participants[a])
  }

  /** What one position does to pool and locks when its item has a minimum stake left. */
  lemma SelectOneEffect(cfg: Config, stored: seq<PoolItem>, d: Draft, i: nat, pick: nat)
    requires i < |d.pool| && Unconsumed(d.pool[i]) >= cfg.minJurorStake
    ensures var d' := SelectOne(cfg, stored, d, i, pick);
            && d'.pool == d.pool[i := d.pool[i].(consumed := d.pool[i].consumed + cfg.minJurorStake)]
            && d'.participants == AddActiveLock(d.participants, d.pool[i].who, cfg.minJurorStake)
  {}

  ghost predicate Tracks(cfg: Config, reg: Registry, slots: seq<nat>, d: Draft, n: nat) {
    && n <= |slots|
    && PoolTracks(reg.pool, cfg.minJurorStake, slots, n, d.pool)
    && LocksTrack(reg, cfg.minJurorStake, slots, n, d.participants)
  }

  /** Each position adds exactly one minimum stake, to the consumed stake and to the active lock alike. */
  lemma TrackStep(cfg: Config, reg: Registry, slots: seq<nat>, d: Draft, n: nat, pick: nat)
    requires Drawable(reg) && Affordable(reg.pool, cfg.minJurorStake, slots)
    requires n < |slots| && Tracks(cfg, reg, slots, d, n)
    ensures Tracks(cfg, reg, slots, SelectOne(cfg, reg.pool, d, slots[n], pick), n + 1)
  {
    StillAffordable(reg.pool, cfg.minJurorStake, slots, n, d.pool);
    SelectOneEffect(cfg, reg.pool, d, slots[n], pick);
  }
}
