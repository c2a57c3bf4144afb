/** Weights, slashable amounts and delegated stakes of every selection. */
module SelectionTotals {
  import opened Collections
  import opened SortedSearch
  import opened CourtTypes
  import opened JurorPool
  import opened Selection
  import opened SelectionProofs

  // ---------- totals ----------

  function Weights(sel: Selections): map<AccountId, nat> {
    map a | a in sel :: sel[a].weight
  }

  function Slashables(sel: Selections): map<AccountId, nat> {
    map a | a in sel :: sel[a].slashable
  }

  ghost function TotalWeight(sel: Selections): nat {
    MapSum(Weights(sel))
  }

  ghost function TotalSlashable(sel: Selections): nat {
    MapSum(Slashables(sel))
  }

  lemma ProjectionsAfterUpdate(sel: Selections, a: AccountId, c: Chosen)
    ensures Weights(sel[a := c]) == Weights(sel)[a := c.weight]
    ensures Slashables(sel[a := c]) == Slashables(sel)[a := c.slashable]
    ensures GetOr(Weights(sel), a) == Entry(sel, a).weight
    ensures GetOr(Slashables(sel), a) == Entry(sel, a).slashable
  {}

  lemma TotalsAfterUpdate(sel: Selections, a: AccountId, c: Chosen)
    ensures TotalWeight(sel[a := c]) == TotalWeight(sel) - Entry(sel, a).weight + c.weight
    ensures TotalSlashable(sel[a := c]) == TotalSlashable(sel) - Entry(sel, a).slashable + c.slashable
  {
    ProjectionsAfterUpdate(sel, a, c);
    MapSumUpdate(Weights(sel), a, c.weight);
    MapSumUpdate(Slashables(sel), a, c.slashable);
  }

  lemma CountAfterUpdate(sel: Selections, a: AccountId, c: Chosen)
    ensures |sel[a := c]| <= |sel| + 1
  {
    assert sel[a := c].Keys == sel.Keys + {a};
    if a in sel { assert sel[a := c].Keys == sel.Keys; }
  }

  // ---------- delegated stakes ----------

  function SumStakes(stakes: seq<(AccountId, Balance)>): nat {
    if |stakes| == 0 then 0 else stakes[0].1 + SumStakes(stakes[1..])
  }

  lemma {:induction false} SumStakesConcat(s: seq<(AccountId, Balance)>, t: seq<(AccountId, Balance)>)
    ensures SumStakes(s + t) == SumStakes(s) + SumStakes(t)
  {
    if |s| == 0 {
      assert s + t == t;
    } else {
      SumStakesConcat(s[1..], t);
      assert (s + t)[1..] == s[1..] + t;
    }
  }

  predicate SortedByAccount(stakes: seq<(AccountId, Balance)>) {
    forall i, j :: 0 <= i < j < |stakes| ==> stakes[i].0 < stakes[j].0
  }

  predicate StakesWithin(stakes: seq<(AccountId, Balance)>, delegations: seq<AccountId>) {
    forall i :: 0 <= i < |stakes| ==> stakes[i].0 in delegations
  }

  /** One entry more, or a larger one, in the middle. */
  lemma SumStakesAround(all: seq<(AccountId, Balance)>, left: seq<(AccountId, Balance)>, entry: (AccountId, Balance),
                        right: seq<(AccountId, Balance)>)
    requires all == left + [entry] + right
    ensures SumStakes(all) == SumStakes(left) + entry.1 + SumStakes(right)
  {
    SumStakesConcat(left + [entry], right);
    SumStakesConcat(left, [entry]);
  }

  lemma AddInPlace(stakes: seq<(AccountId, Balance)>, i: nat, amount: Balance)
    requires i < |stakes|
    ensures SumStakes(stakes[i := (stakes[i].0, stakes[i].1 + amount)]) == SumStakes(stakes) + amount
  {
    var entry: (AccountId, Balance) := (stakes[i].0, stakes[i].1 + amount);
    SumStakesAround(stakes[i := entry], stakes[..i], entry, stakes[i + 1..]);
    SumStakesAround(stakes, stakes[..i], stakes[i], stakes[i + 1..]);
  }

  lemma InsertedSum(stakes: seq<(AccountId, Balance)>, i: nat, entry: (AccountId, Balance))
    requires i <= |stakes|
    ensures SumStakes(InsertAt(stakes, i, entry)) == SumStakes(stakes) + entry.1
  {
    var left, right := stakes[..i], stakes[i..];
    assert stakes == left + right;
    SumStakesConcat(left, right);
    SumStakesAround(InsertAt(stakes, i, entry), left, entry, right);
  }

  function Accounts(stakes: seq<(AccountId, Balance)>): set<AccountId> {
    set i | 0 <= i < |stakes| :: stakes[i].0
  }

  lemma {:induction false} AccountsCount(stakes: seq<(AccountId, Balance)>)
    requires SortedByAccount(stakes)
    ensures |Accounts(stakes)| == |stakes|
  {
    if |stakes| > 0 {
      var last := |stakes| - 1;
      AccountsCount(stakes[..last]);
      assert Accounts(stakes) == Accounts(stakes[..last]) + {stakes[last].0};
    }
  }

  lemma SubsetCount(a: set<AccountId>, b: set<AccountId>)
    requires a <= b
    ensures |a| <= |b|
  {
    assert b == a + (b - a);
  }

  /** A juror that is delegated to but has no entry yet always finds room in the bounded list. */
  lemma RoomForNewJuror(stakes: seq<(AccountId, Balance)>, delegations: seq<AccountId>, juror: AccountId)
    requires SortedByAccount(stakes) && StakesWithin(stakes, delegations)
    requires juror in delegations && juror !in Accounts(stakes)
    ensures |stakes| < |delegations|
  {
    AccountsCount(stakes);
    ElementsCardinality(delegations);
    SubsetCount(Accounts(stakes) + {juror}, Elements(delegations));
  }

  /** A miss tells the accounts before the insertion point from those after it. */
  lemma MissSeparates(stakes: seq<(AccountId, Balance)>, juror: AccountId, i: nat)
    requires SortedByAccount(stakes)
    requires Search(StakeKeys(stakes), (juror, 0)) == Missing(i)
    ensures i <= |stakes|
    ensures forall k :: 0 <= k < i ==> stakes[k].0 < juror
    ensures forall k :: i <= k < |stakes| ==> juror < stakes[k].0
  {
    var keys := StakeKeys(stakes);
    assert Ascending(keys);
    assert forall k :: 0 <= k < |stakes| ==> keys[k] == (stakes[k].0, 0);
  }

  lemma InsertedOrder(stakes: seq<(AccountId, Balance)>, i: nat, entry: (AccountId, Balance),
                      delegations: seq<AccountId>)
    requires SortedByAccount(stakes) && StakesWithin(stakes, delegations) && entry.0 in delegations
    requires i <= |stakes|
    requires forall k :: 0 <= k < i ==> stakes[k].0 < entry.0
    requires forall k :: i <= k < |stakes| ==> entry.0 < stakes[k].0
    ensures SortedByAccount(InsertAt(stakes, i, entry)) && StakesWithin(InsertAt(stakes, i, entry), delegations)
  {
    var r := InsertAt(stakes, i, entry);
    assert forall k :: 0 <= k < |r| ==> r[k] == if k < i then stakes[k] else if k == i then entry else stakes[k - 1];
  }

  lemma RaisedJuror(stakes: seq<(AccountId, Balance)>, i: nat, amount: Balance, delegations: seq<AccountId>)
    requires SortedByAccount(stakes) && StakesWithin(stakes, delegations) && i < |stakes|
    ensures var r := stakes[i := (stakes[i].0, stakes[i].1 + amount)];
            && SortedByAccount(r) && StakesWithin(r, delegations) && SumStakes(r) == SumStakes(stakes) + amount
  {
    AddInPlace(stakes, i, amount);
  }

  lemma MissedJuror(stakes: seq<(AccountId, Balance)>, i: nat, juror: AccountId, amount: Balance,
                    delegations: seq<AccountId>)
    requires SortedByAccount(stakes) && StakesWithin(stakes, delegations) && juror in delegations
    requires i <= |stakes| && (forall k :: 0 <= k < i ==> stakes[k].0 < juror)
    requires forall k :: i <= k < |stakes| ==> juror < stakes[k].0
    ensures |stakes| < |delegations|
    ensures var r := InsertAt(stakes, i, (juror, amount));
            && SortedByAccount(r) && StakesWithin(r, delegations) && SumStakes(r) == SumStakes(stakes) + amount
  {
    RoomForNewJuror(stakes, delegations, juror);
    InsertedOrder(stakes, i, (juror, amount), delegations);
    InsertedSum(stakes, i, (juror, amount));
  }

  /** The place where a delegated juror's entry is or belongs. */
  predicate PlaceOf(stakes: seq<(AccountId, Balance)>, juror: AccountId, place: Hit) {
    match place
    case Found(i) => i < |stakes|
    case Missing(i) =>
      && i <= |stakes|
      && (forall k :: 0 <= k < i ==> stakes[k].0 < juror)
      && (forall k :: i <= k < |stakes| ==> juror < stakes[k].0)
  }

  lemma AddAtAdds(cfg: Config, stakes: seq<(AccountId, Balance)>, place: Hit, juror: AccountId, amount: Balance,
                  delegations: seq<AccountId>)
    requires SortedByAccount(stakes) && StakesWithin(stakes, delegations) && PlaceOf(stakes, juror, place)
    requires juror in delegations && |delegations| <= cfg.maxDelegations
    ensures var r := AddAt(cfg, stakes, place, juror, amount);
            && SortedByAccount(r) && StakesWithin(r, delegations)
            && |r| > 0 && SumStakes(r) == SumStakes(stakes) + amount
  {
    match place
    case Found(i) => RaisedJuror(stakes, i, amount, delegations);
    case Missing(i) => MissedJuror(stakes, i, juror, amount, delegations);
  }

  /** Adding stake to a delegated juror keeps the list sorted and adds exactly the amount. */
  lemma AddDelegatedJurorAdds(cfg: Config, stakes: seq<(AccountId, Balance)>, juror: AccountId, amount: Balance,
                              delegations: seq<AccountId>)
    requires SortedByAccount(stakes) && StakesWithin(stakes, delegations)
    requires juror in delegations && |delegations| <= cfg.maxDelegations
    ensures var r := AddDelegatedJuror(cfg, stakes, juror, amount);
            && SortedByAccount(r) && StakesWithin(r, delegations)
            && |r| > 0 && SumStakes(r) == SumStakes(stakes) + amount
  {
    var place := Search(StakeKeys(stakes), (juror, 0));
    if place.Missing? {
      MissSeparates(stakes, juror, place.at);
    }
    AddAtAdds(cfg, stakes, place, juror, amount, delegations);
  }

  // ---------- the shape of the selections ----------

  /** Delegators carry no weight and split their slashable amount over jurors they delegated to;
      jurors have no delegated stakes. */
  predicate ChosenOk(p: Participant, c: Chosen) {
    if p.delegations.Some? then
      && c.weight == 0
      && |c.stakes| > 0
      && SortedByAccount(c.stakes)
      && StakesWithin(c.stakes, p.delegations.value)
      && SumStakes(c.stakes) == c.slashable
    else c.stakes == []
  }

  predicate SelectionsOk(participants: map<AccountId, Participant>, sel: Selections) {
    forall a :: a in sel ==> a in participants && ChosenOk(participants[a], sel[a])
  }

  predicate SameRoles(p: map<AccountId, Participant>, q: map<AccountId, Participant>) {
    && p.Keys == q.Keys
    && forall a :: a in p ==> p[a].delegations == q[a].delegations && p[a].stake == q[a].stake
  }

  /** `sel'` holds `dw` more weight and `lock` more slashable stake, the latter at `who`. */
  ghost predicate Grown(sel: Selections, sel': Selections, dw: nat, who: AccountId, lock: Balance) {
    && TotalWeight(sel') == TotalWeight(sel) + dw
    && TotalSlashable(sel') == TotalSlashable(sel) + lock
    && (forall a :: Entry(sel', a).slashable == Entry(sel, a).slashable + if a == who then lock else 0)
  }

  lemma UpdateGrows(sel: Selections, a: AccountId, c: Chosen, dw: nat, lock: Balance)
    requires c.weight == Entry(sel, a).weight + dw && c.slashable == Entry(sel, a).slashable + lock
    ensures Grown(sel, sel[a := c], dw, a, lock)
  {
    TotalsAfterUpdate(sel, a, c);
  }

  lemma UpdateKeepsShape(participants: map<AccountId, Participant>, sel: Selections, a: AccountId, c: Chosen)
    requires SelectionsOk(participants, sel) && a in participants && ChosenOk(participants[a], c)
    ensures SelectionsOk(participants, sel[a := c]) && |sel[a := c]| <= |sel| + 1
  {
    CountAfterUpdate(sel, a, c);
  }

  lemma SelfStakeGrows(cfg: Config, participants: map<AccountId, Participant>, sel: Selections, who: AccountId,
                       lock: Balance)
    requires SelectionsOk(participants, sel)
    requires who in participants && participants[who].delegations.None?
    ensures var sel' := UpdateSelections(cfg, sel, who, SelfStake(lock));
            SelectionsOk(participants, sel') && |sel'| <= |sel| + 1 && Grown(sel, sel', 1, who, lock)
  {
    var c' := Raised(cfg, Entry(sel, who), SelfStake(lock));
    UpdateKeepsShape(participants, sel, who, c');
    UpdateGrows(sel, who, c', 1, lock);
  }

  /** Giving a juror one more weight. */
  lemma WeightGrows(cfg: Config, participants: map<AccountId, Participant>, sel: Selections, juror: AccountId)
    requires SelectionsOk(participants, sel)
    requires juror in participants && participants[juror].delegations.None?
    ensures var sel' := UpdateSelections(cfg, sel, juror, DelegationWeight);
            SelectionsOk(participants, sel') && |sel'| <= |sel| + 1 && Grown(sel, sel', 1, juror, 0)
  {
    var c' := Raised(cfg, Entry(sel, juror), DelegationWeight);
    UpdateKeepsShape(participants, sel, juror, c');
    UpdateGrows(sel, juror, c', 1, 0);
  }

  /** Locking a delegator's stake on a juror. */
  lemma DelegatedStakeGrows(cfg: Config, participants: map<AccountId, Participant>, sel: Selections, who: AccountId,
                            juror: AccountId, lock: Balance)
    requires SelectionsOk(participants, sel)
    requires who in participants && participants[who].delegations.Some?
    requires |participants[who].delegations.value| <= cfg.maxDelegations
    requires juror in participants[who].delegations.value
    ensures var sel' := UpdateSelections(cfg, sel, who, DelegationStake(juror, lock));
            SelectionsOk(participants, sel') && |sel'| <= |sel| + 1 && Grown(sel, sel', 0, who, lock)
  {
    var c := Entry(sel, who);
    AddDelegatedJurorAdds(cfg, c.stakes, juror, lock, participants[who].delegations.value);
    var c' := Raised(cfg, c, DelegationStake(juror, lock));
    UpdateKeepsShape(participants, sel, who, c');
    UpdateGrows(sel, who, c', 0, lock);
  }

  lemma DelegationGrows(cfg: Config, participants: map<AccountId, Participant>, sel: Selections, who: AccountId,
                        juror: AccountId, lock: Balance)
    requires SelectionsOk(participants, sel)
    requires who in participants && participants[who].delegations.Some?
    requires |participants[who].delegations.value| <= cfg.maxDelegations
    requires juror in participants[who].delegations.value
    requires juror in participants && participants[juror].delegations.None?
    ensures var weighted := UpdateSelections(cfg, sel, juror, DelegationWeight);
            var sel' := UpdateSelections(cfg, weighted, who, DelegationStake(juror, lock));
            SelectionsOk(participants, sel') && |sel'| <= |sel| + 2 && Grown(sel, sel', 1, who, lock)
  {
    WeightGrows(cfg, participants, sel, juror);
    DelegatedStakeGrows(cfg, participants, UpdateSelections(cfg, sel, juror, DelegationWeight), who, juror, lock);
  }

  /** Adding a section succeeds unless the owner delegates and none of its jurors can be drawn. */
  lemma AddToSelectionsGrows(cfg: Config, pool: seq<PoolItem>, participants: map<AccountId, Participant>,
                             now: map<AccountId, Participant>, sel: Selections, who: AccountId, lock: Balance,
                             pick: nat)
    requires ParticipantsOk(cfg, participants) && SameRoles(participants, now)
    requires SelectionsOk(participants, sel) && who in participants
    ensures var r := AddToSelections(cfg, pool, now, sel, who, lock, pick);
            && (r.None? <==> participants[who].delegations.Some? &&
                             forall j :: j in participants[who].delegations.value ==> !ActiveJuror(pool, now, j))
            && (r.Some? ==>
                  SelectionsOk(participants, r.value) && |r.value| <= |sel| + 2 && Grown(sel, r.value, 1, who, lock))
  {
    if now[who].delegations.Some? {
      var juror := ValidDelegatedJuror(pool, now, now[who].delegations.value, pick);
      if juror.Some? {
        DelegationGrows(cfg, participants, sel, who, juror.value, lock);
      }
    } else {
      SelfStakeGrows(cfg, participants, sel, who, lock);
    }
  }

  // ---------- the whole loop ----------

  ghost predicate TotalsBalance(m: Balance, n: nat, sel: Selections, lost: nat) {
    && lost <= n
    && |sel| <= 2 * (n - lost)
    && TotalWeight(sel) == n - lost
    && TotalSlashable(sel) == m * (n - lost)
  }

  /** What an account is charged is its slashable amount plus what it lost. */
  ghost predicate AccountsBalance(pool: seq<PoolItem>, m: Balance, slots: seq<nat>, n: nat, sel: Selections,
                                  lost: seq<nat>)
    requires n <= |slots|
  {
    && (forall i :: 0 <= i < |pool| ==>
          Entry(sel, pool[i].who).slashable + Charged(m, lost, |lost|, i) == Charged(m, slots, n, i))
    && (forall a :: !InPool(pool, a) ==> Entry(sel, a).slashable == 0)
  }

  /** Account of everything charged in the first `n` positions: selected, or lost for want of a juror. */
  ghost predicate Balanced(cfg: Config, reg: Registry, slots: seq<nat>, n: nat, sel: Selections, lost: seq<nat>)
    requires n <= |slots|
  {
    && SelectionsOk(reg.participants, sel)
    && (forall k :: 0 <= k < |lost| ==> lost[k] < |reg.pool|)
    && TotalsBalance(cfg.minJurorStake, n, sel, |lost|)
    && AccountsBalance(reg.pool, cfg.minJurorStake, slots, n, sel, lost)
  }

  lemma {:induction false} ChargedPrefix(m: Balance, s: seq<nat>, t: seq<nat>, n: nat, i: nat)
    requires n <= |s|
    ensures Charged(m, s + t, n, i) == Charged(m, s, n, i)
  {
    if n > 0 {
      ChargedPrefix(m, s, t, n - 1, i);
    }
  }

  lemma LocksTrackKeepsRoles(reg: Registry, m: Balance, slots: seq<nat>, n: nat,
                             participants: map<AccountId, Participant>)
    requires n <= |slots| && LocksTrack(reg, m, slots, n, participants)
    ensures SameRoles(reg.participants, participants)
  {
    forall a | a in participants
      ensures participants[a].delegations == reg.participants[a].delegations
              && participants[a].stake == reg.participants[a].stake
    {
      if InPool(reg.pool, a) {
        var i :| 0 <= i < |reg.pool| && reg.pool[i].who == a;
      }
    }
  }

  lemma SelectedKeepsTotals(m: Balance, n: nat, sel: Selections, lost: nat, who: AccountId, sel': Selections)
    requires TotalsBalance(m, n, sel, lost) && |sel'| <= |sel| + 2 && Grown(sel, sel', 1, who, m)
    ensures TotalsBalance(m, n + 1, sel', lost)
  {
    OneMore(m, n - lost);
  }

  lemma SelectedKeepsAccounts(pool: seq<PoolItem>, m: Balance, slots: seq<nat>, n: nat, sel: Selections, lost: seq<nat>,
                              sel': Selections)
    requires n < |slots| && slots[n] < |pool| && OncePerAccount(pool)
    requires AccountsBalance(pool, m, slots, n, sel, lost)
    requires Grown(sel, sel', 1, pool[slots[n]].who, m)
    ensures AccountsBalance(pool, m, slots, n + 1, sel', lost)
  {
    forall i | 0 <= i < |pool| && i != slots[n] ensures pool[i].who != pool[slots[n]].who {}
  }

  lemma LostKeepsBalance(cfg: Config, reg: Registry, slots: seq<nat>, n: nat, sel: Selections, lost: seq<nat>)
    requires n < |slots| && slots[n] < |reg.pool|
    requires Balanced(cfg, reg, slots, n, sel, lost)
    ensures Balanced(cfg, reg, slots, n + 1, sel, lost + [slots[n]])
  {
    forall i | 0 <= i < |reg.pool|
      ensures Charged(cfg.minJurorStake, lost + [slots[n]], |lost| + 1, i) ==
              Charged(cfg.minJurorStake, lost, |lost|, i) + if slots[n] == i then cfg.minJurorStake else 0
    {
      ChargedPrefix(cfg.minJurorStake, lost, [slots[n]], |lost|, i);
    }
  }

  /** Which of the two lists one position goes to. */
  lemma SelectOneSorts(cfg: Config, stored: seq<PoolItem>, d: Draft, i: nat, pick: nat)
    requires i < |d.pool| && Unconsumed(d.pool[i]) >= cfg.minJurorStake
    ensures var r := AddToSelections(cfg, stored, d.participants, d.selections, d.pool[i].who, cfg.minJurorStake, pick);
            var d' := SelectOne(cfg, stored, d, i, pick);
            && (r.Some? ==> d'.selections == r.value && d'.lost == d.lost)
            && (r.None? ==> d'.selections == d.selections && d'.lost == d.lost + [i])
  {}

  lemma NothingIsBalanced(cfg: Config, reg: Registry, slots: seq<nat>)
    ensures Balanced(cfg, reg, slots, 0, map[], [])
  {
    MapSumZero(Weights(map[]));
    MapSumZero(Slashables(map[]));
  }

  lemma BalanceStep(cfg: Config, reg: Registry, slots: seq<nat>, n: nat, d: Draft, pick: nat)
    requires Drawable(reg) && ParticipantsOk(cfg, reg.participants)
    requires Affordable(reg.pool, cfg.minJurorStake, slots)
    requires n < |slots| && Tracks(cfg, reg, slots, d, n)
    requires Balanced(cfg, reg, slots, n, d.selections, d.lost)
    ensures var d' := SelectOne(cfg, reg.pool, d, slots[n], pick);
            Balanced(cfg, reg, slots, n + 1, d'.selections, d'.lost)
  {
    var i := slots[n];
    StillAffordable(reg.pool, cfg.minJurorStake, slots, n, d.pool);
    SelectOneSorts(cfg, reg.pool, d, i, pick);
    LocksTrackKeepsRoles(reg, cfg.minJurorStake, slots, n, d.participants);
    AddToSelectionsGrows(cfg, reg.pool, reg.participants, d.participants, d.selections, reg.pool[i].who,
                         cfg.minJurorStake, pick);
    var r := AddToSelections(cfg, reg.pool, d.participants, d.selections, reg.pool[i].who, cfg.minJurorStake, pick);
    if r.Some? {
      SelectedKeepsTotals(cfg.minJurorStake, n, d.selections, |d.lost|, reg.pool[i].who, r.value);
      SelectedKeepsAccounts(reg.pool, cfg.minJurorStake, slots, n, d.selections, d.lost, r.value);
    } else {
      LostKeepsBalance(cfg, reg, slots, n, d.selections, d.lost);
    }
  }

  ghost predicate Accounted(cfg: Config, reg: Registry, slots: seq<nat>, d: Draft, n: nat) {
    && Tracks(cfg, reg, slots, d, n)
    && Balanced(cfg, reg, slots, n, d.selections, d.lost)
  }

  lemma AccountedStep(cfg: Config, reg: Registry, slots: seq<nat>, picks: nat -> nat, d: Draft, n: nat)
    requires Ready(cfg, reg, slots)
    requires n < |slots| && Accounted(cfg, reg, slots, d, n)
    ensures Accounted(cfg, reg, slots, Stepper(cfg, reg.pool, slots, picks)(d, n), n + 1)
  {
    TrackStep(cfg, reg, slots, d, n, picks(n));
    BalanceStep(cfg, reg, slots, n, d, picks(n));
  }

  ghost predicate Ready(cfg: Config, reg: Registry, slots: seq<nat>) {
    && Drawable(reg)
    && ParticipantsOk(cfg, reg.participants)
    && Affordable(reg.pool, cfg.minJurorStake, slots)
  }

  ghost function AccountedAt(cfg: Config, reg: Registry, slots: seq<nat>): (Draft, nat) -> bool {
    (d: Draft, k: nat) => Accounted(cfg, reg, slots, d, k)
  }

  lemma AllStepsAccounted(cfg: Config, reg: Registry, slots: seq<nat>, picks: nat -> nat)
    requires Ready(cfg, reg, slots)
    ensures var step, inv := Stepper(cfg, reg.pool, slots, picks), AccountedAt(cfg, reg, slots);
            forall d, k :: 0 <= k < |slots| && inv(d, k) ==> inv(step(d, k), k + 1)
  {
    var step, inv := Stepper(cfg, reg.pool, slots, picks), AccountedAt(cfg, reg, slots);
    forall d, k: nat | k < |slots| && inv(d, k) ensures inv(step(d, k), k + 1) {
      AccountedStep(cfg, reg, slots, picks, d, k);
    }
  }

  /** Every position charges one minimum stake and is either selected with it or recorded as lost. */
  lemma SelectionIsAccounted(cfg: Config, reg: Registry, slots: seq<nat>, picks: nat -> nat)
    requires Ready(cfg, reg, slots)
    ensures Accounted(cfg, reg, slots, SelectFirst(cfg, reg, slots, picks, |slots|), |slots|)
  {
    var inv := AccountedAt(cfg, reg, slots);
    assert inv(Start(reg), 0) by { NothingIsBalanced(cfg, reg, slots); }
    AllStepsAccounted(cfg, reg, slots, picks);
    FoldInvariant(Stepper(cfg, reg.pool, slots, picks), Start(reg), |slots|, inv);
  }
}
