/** Matching drawn section ends to pool items and collecting the selected jurors and delegators. */
module Selection {
  import opened Collections
  import opened SortedSearch
  import opened CourtTypes
  import opened JurorPool
  import SectionDraw

  // ---------- cumulative stake sections ----------

  function Unconsumed(item: PoolItem): Balance {
    Minus(item.stake, item.consumed)
  }

  /** Unconsumed stake, cut down to a multiple of the minimum stake. */
  function Usable(item: PoolItem, m: Balance): Balance
    requires m > 0
  {
    Minus(Unconsumed(item), Unconsumed(item) % m)
  }

  /** Usable stake of the first `i` items. */
  function Prefix(pool: seq<PoolItem>, m: Balance, i: nat): Balance
    requires m > 0 && i <= |pool|
  {
    if i == 0 then 0 else Prefix(pool, m, i - 1) + Usable(pool[i - 1], m)
  }

  function TotalUnconsumed(pool: seq<PoolItem>, m: Balance): Balance
    requires m > 0
  {
    Prefix(pool, m, |pool|)
  }

  function SectionKey(pool: seq<PoolItem>, m: Balance, i: nat): Key
    requires m > 0 && i < |pool|
  {
    (Prefix(pool, m, i + 1), if Usable(pool[i], m) == 0 then 1 else 0)
  }

  /** Running totals, each flagged when its own item adds nothing. */
  function CumulativeEnds(pool: seq<PoolItem>, m: Balance): (r: seq<Key>)
    requires m > 0
    ensures |r| == |pool|
    ensures forall i :: 0 <= i < |pool| ==> r[i] == SectionKey(pool, m, i)
  {
    seq(|pool|, i requires 0 <= i < |pool| => SectionKey(pool, m, i))
  }

  /** The position where the binary search for a section end without the zero-stake flag lands. */
  function Slot(ends: seq<Key>, e: nat): nat {
    Search(ends, (e, 0)).at
  }

  predicate InSection(pool: seq<PoolItem>, m: Balance, e: nat, i: nat)
    requires m > 0
  {
    i < |pool| && Prefix(pool, m, i) < e <= Prefix(pool, m, i + 1)
  }

  lemma {:induction false} PrefixGrows(pool: seq<PoolItem>, m: Balance, i: nat, j: nat)
    requires m > 0 && i <= j <= |pool|
    ensures Prefix(pool, m, i) <= Prefix(pool, m, j)
    decreases j
  {
    if i < j {
      PrefixGrows(pool, m, i, j - 1);
    }
  }

  lemma CumulativeEndsAscend(pool: seq<PoolItem>, m: Balance)
    requires m > 0
    ensures Ascending(CumulativeEnds(pool, m))
  {
    var ends := CumulativeEnds(pool, m);
    forall i, j | 0 <= i < j < |ends| ensures !Less(ends[j], ends[i]) {
      PrefixGrows(pool, m, i + 1, j);
      assert ends[i] == SectionKey(pool, m, i) && ends[j] == SectionKey(pool, m, j);
    }
  }

  lemma SlotIsInSection(pool: seq<PoolItem>, m: Balance, e: nat)
    requires m > 0 && 0 < e <= TotalUnconsumed(pool, m)
    ensures InSection(pool, m, e, Slot(CumulativeEnds(pool, m), e))
  {
    CumulativeEndsAscend(pool, m);
    var ends := CumulativeEnds(pool, m);
    var i := Slot(ends, e);
    assert |pool| > 0 && ends[|pool| - 1].0 == Prefix(pool, m, |pool|);
    assert i < |pool|;
    assert ends[i] == SectionKey(pool, m, i);
    assert 0 < i ==> ends[i - 1] == SectionKey(pool, m, i - 1);
  }

  lemma SectionsAreDisjoint(pool: seq<PoolItem>, m: Balance, e: nat, i: nat, j: nat)
    requires m > 0 && InSection(pool, m, e, i) && InSection(pool, m, e, j)
    ensures i == j
  {
    if j < i {
      PrefixGrows(pool, m, j + 1, i);
    } else if i < j {
      PrefixGrows(pool, m, i + 1, j);
    }
  }

  /** Every section end within the total lies in the interval of exactly one item, that item has usable
      stake, and it is the one the flagged binary search finds. */
  lemma SlotIsTheOnlySection(pool: seq<PoolItem>, m: Balance, e: nat)
    requires m > 0 && 0 < e <= TotalUnconsumed(pool, m)
    ensures var i := Slot(CumulativeEnds(pool, m), e);
            && InSection(pool, m, e, i)
            && Usable(pool[i], m) > 0
            && forall j :: InSection(pool, m, e, j) ==> j == i
  {
    SlotIsInSection(pool, m, e);
    forall j | InSection(pool, m, e, j) ensures j == Slot(CumulativeEnds(pool, m), e) {
      SectionsAreDisjoint(pool, m, e, Slot(CumulativeEnds(pool, m), e), j);
    }
  }

  // ---------- adding one section to the selections ----------

  datatype Chosen = Chosen(weight: nat, slashable: Balance, stakes: seq<(AccountId, Balance)>)

  type Selections = map<AccountId, Chosen>

  datatype SelectionAdd =
    | SelfStake(lock: Balance)
    | DelegationStake(juror: AccountId, lock: Balance)
    | DelegationWeight

  function StakeKeys(stakes: seq<(AccountId, Balance)>): (r: seq<Key>)
    ensures |r| == |stakes|
    ensures forall i :: 0 <= i < |stakes| ==> r[i] == (stakes[i].0, 0)
  {
    seq(|stakes|, i requires 0 <= i < |stakes| => (stakes[i].0, 0))
  }

  /** Add to the juror's entry, or insert one at its sorted place if the bound allows it. */
  function AddDelegatedJuror(cfg: Config, stakes: seq<(AccountId, Balance)>, juror: AccountId, amount: Balance)
    : seq<(AccountId, Balance)>
  {
    AddAt(cfg, stakes, Search(StakeKeys(stakes), (juror, 0)), juror, amount)
  }

  function AddAt(cfg: Config, stakes: seq<(AccountId, Balance)>, place: Hit, juror: AccountId, amount: Balance)
    : seq<(AccountId, Balance)>
    requires if place.Found? then place.at < |stakes| else place.at <= |stakes|
  {
    match place
    case Found(i) => stakes[i := (stakes[i].0, stakes[i].1 + amount)]
    case Missing(i) => if |stakes| >= cfg.maxDelegations then stakes else InsertAt(stakes, i, (juror, amount))
  }

  function Entry(sel: Selections, who: AccountId): Chosen {
    if who in sel then sel[who] else Chosen(0, 0, [])
  }

  function Raised(cfg: Config, c: Chosen, add: SelectionAdd): Chosen {
    match add
    case SelfStake(lock) => Chosen(c.weight + 1, c.slashable + lock, c.stakes)
    case DelegationStake(juror, lock) =>
      Chosen(c.weight, c.slashable + lock, AddDelegatedJuror(cfg, c.stakes, juror, lock))
    case DelegationWeight => Chosen(c.weight + 1, c.slashable, c.stakes)
  }

  function UpdateSelections(cfg: Config, sel: Selections, who: AccountId, add: SelectionAdd): Selections {
    sel[who := Raised(cfg, Entry(sel, who), add)]
  }

  predicate ActiveJuror(pool: seq<PoolItem>, participants: map<AccountId, Participant>, j: AccountId) {
    && j in participants
    && participants[j].delegations.None?
    && GetPoolItem(pool, participants[j].stake, j).Some?
  }

  function ValidJurors(pool: seq<PoolItem>, participants: map<AccountId, Participant>, delegations: seq<AccountId>)
    : (r: seq<AccountId>)
    ensures forall j :: j in r <==> j in delegations && ActiveJuror(pool, participants, j)
  {
    if |delegations| == 0 then []
    else if ActiveJuror(pool, participants, delegations[0]) then
      [delegations[0]] + ValidJurors(pool, participants, delegations[1..])
    else ValidJurors(pool, participants, delegations[1..])
  }

  /** One of the delegated jurors that can be drawn, at random. */
  function ValidDelegatedJuror(pool: seq<PoolItem>, participants: map<AccountId, Participant>,
                               delegations: seq<AccountId>, pick: nat): (r: Option<AccountId>)
    ensures r.Some? ==> r.value in delegations && ActiveJuror(pool, participants, r.value)
    ensures r.None? <==> forall j :: j in delegations ==> !ActiveJuror(pool, participants, j)
  {
    var valid := ValidJurors(pool, participants, delegations);
    if |valid| == 0 then None else
      assert valid[pick % |valid|] in valid;
      Some(valid[pick % |valid|])
  }

  /** None stands for "no valid delegated juror". */
  function AddToSelections(cfg: Config, pool: seq<PoolItem>, participants: map<AccountId, Participant>,
                           sel: Selections, who: AccountId, lock: Balance, pick: nat): Option<Selections>
  {
    if who in participants && participants[who].delegations.Some? then
      match ValidDelegatedJuror(pool, participants, participants[who].delegations.value, pick)
      case None => None
      case Some(juror) =>
        var weighted := UpdateSelections(cfg, sel, juror, DelegationWeight);
        Some(UpdateSelections(cfg, weighted, who, DelegationStake(juror, lock)))
    else
      Some(UpdateSelections(cfg, sel, who, SelfStake(lock)))
  }

  // ---------- the selection loop ----------

  /** The mutable pool and locks, the selections so far, and the positions that found no valid juror. */
  datatype Draft = Draft(
    pool: seq<PoolItem>,
    participants: map<AccountId, Participant>,
    selections: Selections,
    lost: seq<nat>)

  function AddActiveLock(participants: map<AccountId, Participant>, who: AccountId, lock: Balance)
    : map<AccountId, Participant>
  {
    if who in participants then
      participants[who := participants[who].(activeLock := participants[who].activeLock + lock)]
    else participants
  }

  /** Charge the item at position `i` one minimum stake, or what is left of it. */
  function SelectOne(cfg: Config, stored: seq<PoolItem>, d: Draft, i: nat, pick: nat): Draft {
    if i >= |d.pool| then d else
      var item := d.pool[i];
      var lock := Min(Unconsumed(item), cfg.minJurorStake);
      var added := AddToSelections(cfg, stored, d.participants, d.selections, item.who, lock, pick);
      Draft(
        d.pool[i := item.(consumed := item.consumed + lock)],
        AddActiveLock(d.participants, item.who, lock),
        if added.Some? then added.value else d.selections,
        if added.Some? then d.lost else d.lost + [i])
  }

  /** The positions the section ends `es` are matched to. */
  function Slots(pool: seq<PoolItem>, m: Balance, es: seq<nat>): (r: seq<nat>)
    requires m > 0
    ensures |r| == |es|
    ensures forall k :: 0 <= k < |es| ==> r[k] == Slot(CumulativeEnds(pool, m), es[k])
  {
    var ends := CumulativeEnds(pool, m);
    seq(|es|, k requires 0 <= k < |es| => Slot(ends, es[k]))
  }

  function Start(reg: Registry): Draft {
    Draft(reg.pool, reg.participants, map[], [])
  }

  function Stepper(cfg: Config, stored: seq<PoolItem>, slots: seq<nat>, picks: nat -> nat): (Draft, nat) -> Draft {
    (d: Draft, k: nat) => if k < |slots| then SelectOne(cfg, stored, d, slots[k], picks(k)) else d
  }

  /** The draft after the first `n` positions. */
  function SelectFirst(cfg: Config, reg: Registry, slots: seq<nat>, picks: nat -> nat, n: nat): Draft {
    Fold(Stepper(cfg, reg.pool, slots, picks), Start(reg), n)
  }

  /** Remove the recorded positions one after the other; None if one of them is out of range by then. */
  function RemoveAll<T>(s: seq<T>, indices: seq<nat>): Option<seq<T>> {
    if |indices| == 0 then Some(s)
    else if indices[0] >= |s| then None
    else RemoveAll(RemoveAt(s, indices[0]), indices[1..])
  }

  function ToDraw(who: AccountId, c: Chosen): Draw {
    Draw(who, c.weight, if |c.stakes| > 0 then Delegated(c.stakes) else Drawn, c.slashable)
  }

  function DrawsAlong(sel: Selections, order: seq<AccountId>): (r: seq<Draw>)
    requires forall i :: 0 <= i < |order| ==> order[i] in sel
    ensures |r| == |order|
    ensures forall i :: 0 <= i < |order| ==> r[i] == ToDraw(order[i], sel[order[i]])
  {
    seq(|order|, i requires 0 <= i < |order| => ToDraw(order[i], sel[order[i]]))
  }

  function ConvertSelectionsToDraws(sel: Selections): seq<Draw> {
    var order := SortedSeq(sel.Keys);
    assert forall i :: 0 <= i < |order| ==> order[i] in order;
    DrawsAlong(sel, order)
  }

  datatype Rng = Rng(sections: nat -> nat, jurors: nat -> nat)

  /** The section ends drawn for `weight`, in the order the selection visits them. */
  function SectionEnds(cfg: Config, pool: seq<PoolItem>, weight: nat, rng: Rng): seq<nat>
    requires cfg.minJurorStake > 0
    requires weight <= TotalUnconsumed(pool, cfg.minJurorStake) / cfg.minJurorStake
  {
    SortedSeq(SectionDraw.EndsOf(
      SectionDraw.Drawn(TotalUnconsumed(pool, cfg.minJurorStake) / cfg.minJurorStake, rng.sections, weight),
      cfg.minJurorStake))
  }

  datatype Choice = Choice(reg: Registry, draws: seq<Draw>, lost: nat)

  function ChooseMultipleWeighted(cfg: Config, reg: Registry, weight: nat, rng: Rng): Result<Choice>
    requires cfg.minJurorStake > 0
  {
    var m := cfg.minJurorStake;
    if TotalUnconsumed(reg.pool, m) < weight * m then Err(NotEnoughJurorsAndDelegatorsStake) else
      assert weight <= TotalUnconsumed(reg.pool, m) / m by {
        EnoughStakeMeansEnoughSections(weight, TotalUnconsumed(reg.pool, m), m);
      }
      var slots := Slots(reg.pool, m, SectionEnds(cfg, reg.pool, weight, rng));
      var d := SelectFirst(cfg, reg, slots, rng.jurors, |slots|);
      match RemoveAll(d.pool, d.lost)
      case None => Err(IndexOutOfRange)
      case Some(pool) =>
        Ok(Choice(Registry(pool, d.participants, reg.locks), ConvertSelectionsToDraws(d.selections), |d.lost|))
  }

  lemma EnoughStakeMeansEnoughSections(n: nat, total: nat, m: nat)
    requires m > 0 && n * m <= total
    ensures n <= total / m
  {
    var q := total / m;
    assert total == q * m + total % m;
    if q < n {
      SectionDraw.MulMonotone(q + 1, n, m);
    }
  }
}
