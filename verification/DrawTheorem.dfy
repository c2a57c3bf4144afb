/** What every random draw of jurors and delegators guarantees. */
module DrawTheorem {
  import opened Collections
  import opened CourtTypes
  import opened JurorPool
  import opened Selection
  import opened SelectionProofs
  import opened SelectionTotals
  import opened PoolCleanup
  import SectionDraw

  // ---------- draws ----------

  function SumWeights(draws: seq<Draw>): nat {
    if |draws| == 0 then 0 else draws[0].weight + SumWeights(draws[1..])
  }

  function SumSlashable(draws: seq<Draw>): nat {
    if |draws| == 0 then 0 else draws[0].slashable + SumSlashable(draws[1..])
  }

  /** The slashable amount of an account over a list of draws. */
  function SlashableOf(draws: seq<Draw>, who: AccountId): Balance {
    if |draws| == 0 then 0
    else (if draws[0].who == who then draws[0].slashable else 0) + SlashableOf(draws[1..], who)
  }

  predicate SortedDraws(draws: seq<Draw>) {
    forall i, j :: 0 <= i < j < |draws| ==> draws[i].who < draws[j].who
  }

  /** A delegator has no weight and its delegated stakes add up to its slashable amount. */
  predicate DrawOk(d: Draw) {
    d.vote.Delegated? ==>
      d.weight == 0 && |d.vote.stakes| > 0 && SortedByAccount(d.vote.stakes) && SumStakes(d.vote.stakes) == d.slashable
  }

  predicate DrawsOk(draws: seq<Draw>) {
    && SortedDraws(draws)
    && forall i :: 0 <= i < |draws| ==> DrawOk(draws[i])
  }

  /** Nobody has voted yet. */
  predicate Fresh(draws: seq<Draw>) {
    forall i :: 0 <= i < |draws| ==> draws[i].vote.Drawn? || draws[i].vote.Delegated?
  }

  // ---------- from selections to draws ----------

  /** `draws` lists the selections in ascending order of accounts. */
  ghost predicate Lists(sel: Selections, order: seq<AccountId>, draws: seq<Draw>) {
    && Increasing(order)
    && (forall a :: a in order <==> a in sel)
    && |draws| == |order|
    && forall i :: 0 <= i < |order| ==> order[i] in sel && draws[i] == ToDraw(order[i], sel[order[i]])
  }

  lemma ConvertLists(sel: Selections)
    ensures Lists(sel, SortedSeq(sel.Keys), ConvertSelectionsToDraws(sel))
    ensures |ConvertSelectionsToDraws(sel)| == |sel|
  {
    assert |sel.Keys| == |sel|;
  }

  lemma {:induction false} SumsAlongOrder(sel: Selections, order: seq<AccountId>, draws: seq<Draw>)
    requires |draws| == |order|
    requires forall i :: 0 <= i < |order| ==> order[i] in sel && draws[i] == ToDraw(order[i], sel[order[i]])
    ensures SumWeights(draws) == SumAt(Weights(sel), order)
    ensures SumSlashable(draws) == SumAt(Slashables(sel), order)
  {
    if |order| > 0 {
      SumsAlongOrder(sel, order[1..], draws[1..]);
      assert draws[0] == ToDraw(order[0], sel[order[0]]);
    }
  }

  lemma {:induction false} SlashableOfAbsent(draws: seq<Draw>, a: AccountId)
    requires forall i :: 0 <= i < |draws| ==> draws[i].who != a
    ensures SlashableOf(draws, a) == 0
  {
    if |draws| > 0 {
      SlashableOfAbsent(draws[1..], a);
    }
  }

  /** In sorted draws an account is drawn at most once. */
  lemma {:induction false} SlashableOfSorted(draws: seq<Draw>, i: nat)
    requires SortedDraws(draws) && i < |draws|
    ensures SlashableOf(draws, draws[i].who) == draws[i].slashable
  {
    if i == 0 {
      SlashableOfAbsent(draws[1..], draws[0].who);
    } else {
      SlashableOfSorted(draws[1..], i - 1);
      assert draws[1..][i - 1] == draws[i];
    }
  }

  lemma SlashableOfListed(sel: Selections, order: seq<AccountId>, draws: seq<Draw>, a: AccountId)
    requires Lists(sel, order, draws)
    ensures SlashableOf(draws, a) == Entry(sel, a).slashable
  {
    assert forall i :: 0 <= i < |draws| ==> draws[i].who == order[i];
    if a in sel {
      var i :| 0 <= i < |order| && order[i] == a;
      SlashableOfSorted(draws, i);
    } else {
      forall i | 0 <= i < |draws| ensures draws[i].who != a { assert order[i] in order; }
      SlashableOfAbsent(draws, a);
    }
  }

  /** Registered delegators are drawn as such, jurors with a vote of their own. */
  predicate RolesKept(participants: map<AccountId, Participant>, draws: seq<Draw>) {
    forall i :: 0 <= i < |draws| ==>
      draws[i].who in participants && (draws[i].vote.Delegated? <==> participants[draws[i].who].delegations.Some?)
  }

  lemma ListedDrawsOk(participants: map<AccountId, Participant>, sel: Selections, order: seq<AccountId>,
                      draws: seq<Draw>)
    requires SelectionsOk(participants, sel) && Lists(sel, order, draws)
    ensures DrawsOk(draws) && Fresh(draws)
    ensures RolesKept(participants, draws)
  {
    forall i | 0 <= i < |draws| ensures DrawOk(draws[i]) {
      assert ChosenOk(participants[order[i]], sel[order[i]]);
    }
  }

  lemma ListedSums(sel: Selections, order: seq<AccountId>, draws: seq<Draw>)
    requires Lists(sel, order, draws)
    ensures SumWeights(draws) == TotalWeight(sel) && SumSlashable(draws) == TotalSlashable(sel)
  {
    SumsAlongOrder(sel, order, draws);
    MapSumInAnyOrder(Weights(sel), order);
    MapSumInAnyOrder(Slashables(sel), order);
  }

  lemma DrawsOfSelections(participants: map<AccountId, Participant>, sel: Selections)
    requires SelectionsOk(participants, sel)
    ensures var draws := ConvertSelectionsToDraws(sel);
            && DrawsOk(draws) && Fresh(draws)
            && SumWeights(draws) == TotalWeight(sel) && SumSlashable(draws) == TotalSlashable(sel)
            && RolesKept(participants, draws)
            && (forall a :: SlashableOf(draws, a) == Entry(sel, a).slashable)
  {
    var draws, order := ConvertSelectionsToDraws(sel), SortedSeq(sel.Keys);
    ConvertLists(sel);
    ListedDrawsOk(participants, sel, order, draws);
    ListedSums(sel, order, draws);
    forall a ensures SlashableOf(draws, a) == Entry(sel, a).slashable {
      SlashableOfListed(sel, order, draws, a);
    }
  }

  // ---------- the drawn section ends ----------

  lemma SectionEndsAreGood(cfg: Config, pool: seq<PoolItem>, weight: nat, rng: Rng)
    requires cfg.minJurorStake > 0
    requires weight <= TotalUnconsumed(pool, cfg.minJurorStake) / cfg.minJurorStake
    ensures var es := SectionEnds(cfg, pool, weight, rng);
            |es| == weight && GoodEnds(pool, cfg.minJurorStake, es)
  {
    SectionDraw.DrawnEndsAreDistinctSections(TotalUnconsumed(pool, cfg.minJurorStake), cfg.minJurorStake, rng.sections,
                                             weight);
    var es := SectionEnds(cfg, pool, weight, rng);
    assert forall k :: 0 <= k < |es| ==> es[k] in es;
  }

  // ---------- locks and pool after a draw ----------

  predicate DiffersInLockOnly(p: Participant, q: Participant) {
    q == p.(activeLock := q.activeLock)
  }

  /** Active locks grow by what was drawn, plus what was lost for want of a valid juror. */
  lemma LocksAfterDraw(cfg: Config, reg: Registry, slots: seq<nat>, d: Draft, a: AccountId)
    requires Ready(cfg, reg, slots) && Accounted(cfg, reg, slots, d, |slots|)
    requires a in reg.participants
    ensures a in d.participants && DiffersInLockOnly(reg.participants[a], d.participants[a])
    ensures d.participants[a].activeLock >= reg.participants[a].activeLock + Entry(d.selections, a).slashable
    ensures |d.lost| == 0 ==>
              d.participants[a].activeLock == reg.participants[a].activeLock + Entry(d.selections, a).slashable
  {
    if InPool(reg.pool, a) {
      var i :| 0 <= i < |reg.pool| && reg.pool[i].who == a;
      assert d.participants[reg.pool[i].who] == d.participants[a];
    }
  }

  /** A lost section leaves its owner with a lock that no draw accounts for. */
  lemma LostSectionLeavesLock(cfg: Config, reg: Registry, slots: seq<nat>, d: Draft) returns (a: AccountId)
    requires cfg.minJurorStake > 0 && Ready(cfg, reg, slots) && Accounted(cfg, reg, slots, d, |slots|)
    requires |d.lost| > 0
    ensures a in reg.participants && a in d.participants
    ensures d.participants[a].activeLock > reg.participants[a].activeLock + Entry(d.selections, a).slashable
  {
    var i := d.lost[|d.lost| - 1];
    a := reg.pool[i].who;
    assert Charged(cfg.minJurorStake, d.lost, |d.lost|, i) > 0;
  }

  lemma PoolAfterDraw(cfg: Config, reg: Registry, slots: seq<nat>, d: Draft)
    requires RegistryOk(cfg, reg) && Ready(cfg, reg, slots) && Accounted(cfg, reg, slots, d, |slots|)
    ensures PoolOk(cfg, d.pool) && PoolAgrees(cfg, d.pool, d.participants)
  {
    forall i | 0 <= i < |d.pool|
      ensures d.pool[i].who in d.participants && Agrees(cfg, d.pool[i], d.participants[d.pool[i].who])
    {
      assert reg.pool[i].who in reg.participants && Agrees(cfg, reg.pool[i], reg.participants[reg.pool[i].who]);
    }
    assert forall i :: 0 <= i < |d.pool| ==> KeyOf(d.pool[i]) == KeyOf(reg.pool[i]);
  }

  lemma ParticipantsAfterDraw(cfg: Config, reg: Registry, slots: seq<nat>, d: Draft)
    requires RegistryOk(cfg, reg) && Ready(cfg, reg, slots) && Accounted(cfg, reg, slots, d, |slots|)
    ensures ParticipantsOk(cfg, d.participants)
    ensures forall a :: StakeOf(d.participants, a) == StakeOf(reg.participants, a)
  {
    PoolAfterDraw(cfg, reg, slots, d);
    forall a | a in d.participants ensures ParticipantOk(cfg, a, d.participants[a]) {
      LocksAfterDraw(cfg, reg, slots, d, a);
      assert ParticipantOk(cfg, a, reg.participants[a]);
      if InPool(reg.pool, a) {
        var i :| 0 <= i < |reg.pool| && reg.pool[i].who == a;
        assert Agrees(cfg, d.pool[i], d.participants[d.pool[i].who]);
      }
    }
    forall a | a in reg.participants ensures StakeOf(d.participants, a) == StakeOf(reg.participants, a) {
      LocksAfterDraw(cfg, reg, slots, d, a);
    }
  }

  // ---------- the theorem ----------

  ghost predicate LocksCovered(before: map<AccountId, Participant>, after: map<AccountId, Participant>,
                               draws: seq<Draw>) {
    && after.Keys == before.Keys
    && forall a :: a in before ==>
         && DiffersInLockOnly(before[a], after[a])
         && after[a].activeLock >= before[a].activeLock + SlashableOf(draws, a)
  }

  ghost predicate LocksExact(before: map<AccountId, Participant>, after: map<AccountId, Participant>,
                             draws: seq<Draw>) {
    forall a :: a in before && a in after ==> after[a].activeLock == before[a].activeLock + SlashableOf(draws, a)
  }

  /** The totals, the shape and the bound of the draws. */
  ghost predicate DrawsAccountFor(cfg: Config, c: Choice, weight: nat) {
    && DrawsOk(c.draws) && Fresh(c.draws)
    && c.lost <= weight
    && SumWeights(c.draws) == weight - c.lost
    && SumSlashable(c.draws) == cfg.minJurorStake * (weight - c.lost)
    && |c.draws| <= 2 * weight
    && RolesKept(c.reg.participants, c.draws)
  }

  /** Pool items may go, but only their consumed stake changes. */
  predicate ItemsKept(pool: seq<PoolItem>, pool': seq<PoolItem>) {
    forall x' :: x' in pool' ==> exists x :: x in pool && x' == x.(consumed := x'.consumed)
  }

  lemma ItemsKeptAfterDraw(pool: seq<PoolItem>, m: Balance, slots: seq<nat>, n: nat, drawn: seq<PoolItem>,
                           left: seq<PoolItem>)
    requires n <= |slots| && PoolTracks(pool, m, slots, n, drawn)
    requires forall x :: x in left ==> x in drawn
    ensures ItemsKept(pool, left)
  {
    forall x' | x' in left ensures exists x :: x in pool && x' == x.(consumed := x'.consumed) {
      var i :| 0 <= i < |drawn| && drawn[i] == x';
      assert pool[i] in pool;
    }
  }

  /** Everything a draw guarantees: a sound registry, accounted draws, and active locks that grow by exactly
      the slashable amounts iff no section was lost. */
  ghost predicate ChoiceOk(cfg: Config, reg: Registry, weight: nat, c: Choice) {
    && RegistryOk(cfg, c.reg)
    && ItemsKept(reg.pool, c.reg.pool)
    && DrawsAccountFor(cfg, c, weight)
    && LocksCovered(reg.participants, c.reg.participants, c.draws)
    && (LocksExact(reg.participants, c.reg.participants, c.draws) <==> c.lost == 0)
  }

  /** The slots of a draw, ready for the selection loop. */
  lemma DrawIsReady(cfg: Config, reg: Registry, weight: nat, rng: Rng)
    requires cfg.minJurorStake > 0 && RegistryOk(cfg, reg)
    requires weight <= TotalUnconsumed(reg.pool, cfg.minJurorStake) / cfg.minJurorStake
    ensures var slots := Slots(reg.pool, cfg.minJurorStake, SectionEnds(cfg, reg.pool, weight, rng));
            |slots| == weight && Ready(cfg, reg, slots)
  {
    SectionEndsAreGood(cfg, reg.pool, weight, rng);
    DrawnSlotsAreAffordable(reg.pool, cfg.minJurorStake, SectionEnds(cfg, reg.pool, weight, rng));
  }

  lemma LocksOfDraft(cfg: Config, reg: Registry, slots: seq<nat>, d: Draft, draws: seq<Draw>)
    requires cfg.minJurorStake > 0 && Ready(cfg, reg, slots) && Accounted(cfg, reg, slots, d, |slots|)
    requires forall a :: SlashableOf(draws, a) == Entry(d.selections, a).slashable
    ensures LocksCovered(reg.participants, d.participants, draws)
    ensures LocksExact(reg.participants, d.participants, draws) <==> |d.lost| == 0
  {
    forall a | a in reg.participants
      ensures DiffersInLockOnly(reg.participants[a], d.participants[a])
      ensures d.participants[a].activeLock >= reg.participants[a].activeLock + SlashableOf(draws, a)
      ensures |d.lost| == 0 ==> d.participants[a].activeLock == reg.participants[a].activeLock + SlashableOf(draws, a)
    {
      LocksAfterDraw(cfg, reg, slots, d, a);
    }
    if |d.lost| > 0 {
      var a := LostSectionLeavesLock(cfg, reg, slots, d);
    }
  }

  /** What a draft with all positions accounted for yields after the clean-up. */
  lemma FinishedDraft(cfg: Config, reg: Registry, slots: seq<nat>, d: Draft, pool: seq<PoolItem>, c: Choice)
    requires cfg.minJurorStake > 0 && RegistryOk(cfg, reg)
    requires Ready(cfg, reg, slots) && Accounted(cfg, reg, slots, d, |slots|)
    requires RemoveAll(d.pool, d.lost) == Some(pool)
    requires c == Choice(Registry(pool, d.participants, reg.locks), ConvertSelectionsToDraws(d.selections), |d.lost|)
    ensures ChoiceOk(cfg, reg, |slots|, c)
  {
    PoolAfterDraw(cfg, reg, slots, d);
    RemoveAllKeepsPool(cfg, d.pool, d.participants, d.lost);
    ItemsKeptAfterDraw(reg.pool, cfg.minJurorStake, slots, |slots|, d.pool, pool);
    ParticipantsAfterDraw(cfg, reg, slots, d);
    DrawsOfSelections(reg.participants, d.selections);
    LocksOfDraft(cfg, reg, slots, d, c.draws);
  }

  /** For every registry and every generator: a draw keeps the registry, its draws carry one weight and one
      minimum stake for every section that was not lost, and active locks grow by exactly the slashable
      amounts iff no section was lost. */
  lemma ChooseMultipleWeightedGuarantees(cfg: Config, reg: Registry, weight: nat, rng: Rng)
    requires cfg.minJurorStake > 0 && RegistryOk(cfg, reg)
    requires ChooseMultipleWeighted(cfg, reg, weight, rng).Ok?
    ensures ChoiceOk(cfg, reg, weight, ChooseMultipleWeighted(cfg, reg, weight, rng).value)
  {
    var m := cfg.minJurorStake;
    EnoughStakeMeansEnoughSections(weight, TotalUnconsumed(reg.pool, m), m);
    DrawIsReady(cfg, reg, weight, rng);
    var slots := Slots(reg.pool, m, SectionEnds(cfg, reg.pool, weight, rng));
    SelectionIsAccounted(cfg, reg, slots, rng.jurors);
    var d := SelectFirst(cfg, reg, slots, rng.jurors, weight);
    var c := ChooseMultipleWeighted(cfg, reg, weight, rng).value;
    FinishedDraft(cfg, reg, slots, d, c.reg.pool, c);
  }

  // ---------- the clean-up after a draw ----------

  lemma SlotsAscend(pool: seq<PoolItem>, m: Balance, es: seq<nat>)
    requires m > 0 && GoodEnds(pool, m, es)
    ensures NonDecreasing(Slots(pool, m, es))
  {
    var slots := Slots(pool, m, es);
    forall i, j | 0 <= i < j < |slots| ensures slots[i] <= slots[j] {
      SlotIsTheOnlySection(pool, m, es[i]);
      SlotIsTheOnlySection(pool, m, es[j]);
      if slots[j] < slots[i] {
        PrefixGrows(pool, m, slots[j] + 1, slots[i]);
      }
    }
  }

  /** The recorded positions ascend and lie at or before everything still to come. */
  ghost predicate LostAscend(slots: seq<nat>, d: Draft, n: nat) {
    && NonDecreasing(d.lost)
    && forall k, j :: 0 <= k < |d.lost| && n <= j < |slots| ==> d.lost[k] <= slots[j]
  }

  lemma LostPositionsAscend(cfg: Config, reg: Registry, slots: seq<nat>, picks: nat -> nat)
    requires NonDecreasing(slots)
    ensures NonDecreasing(SelectFirst(cfg, reg, slots, picks, |slots|).lost)
  {
    var step := Stepper(cfg, reg.pool, slots, picks);
    var inv := (d: Draft, k: nat) => LostAscend(slots, d, k);
    forall d, k: nat | k < |slots| && inv(d, k) ensures inv(step(d, k), k + 1) {
      var d' := SelectOne(cfg, reg.pool, d, slots[k], picks(k));
      assert d'.lost == d.lost || d'.lost == d.lost + [slots[k]];
    }
    FoldInvariant(step, Start(reg), |slots|, inv);
  }
}
