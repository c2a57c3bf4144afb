/** The loops of the court pallet, each proved against the function that specifies it. */
module CourtLoops {
  import opened Collections
  import opened SortedSearch
  import opened CourtTypes
  import opened JurorPool
  import opened Selection
  import opened SelectionTotals
  import opened Reassignment
  import opened Inflation
  import opened CourtMachine
  import SectionDraw

  // ---------- drawing ----------

  method ComputeSections(pool: seq<PoolItem>, m: Balance) returns (total: Balance, ends: seq<Key>)
    requires m > 0
    ensures total == TotalUnconsumed(pool, m)
    ensures ends == CumulativeEnds(pool, m)
  {
    total, ends := 0, [];
    for i := 0 to |pool|
      invariant total == Prefix(pool, m, i)
      invariant |ends| == i && forall k :: 0 <= k < i ==> ends[k] == SectionKey(pool, m, k)
    {
      var unconsumed := Minus(pool[i].stake, pool[i].consumed);
      var usable := Minus(unconsumed, unconsumed % m);
      total := total + usable;
      ends := ends + [(total, if usable == 0 then 1 else 0)];
    }
  }

  /** Visit the section ends in ascending order and charge the item each one falls on. */
  method GetSelections(cfg: Config, reg: Registry, es: seq<nat>, ends: seq<Key>, picks: nat -> nat) returns (d: Draft)
    requires cfg.minJurorStake > 0 && ends == CumulativeEnds(reg.pool, cfg.minJurorStake)
    ensures d == SelectFirst(cfg, reg, Slots(reg.pool, cfg.minJurorStake, es), picks, |es|)
  {
    ghost var slots := Slots(reg.pool, cfg.minJurorStake, es);
    d := Start(reg);
    for k := 0 to |es|
      invariant d == SelectFirst(cfg, reg, slots, picks, k)
    {
      var i := Slot(ends, es[k]);
      assert slots[k] == i;
      StepperAt(cfg, reg, slots, picks, d, k);
      d := SelectOne(cfg, reg.pool, d, i, picks(k));
    }
  }

  lemma StepperAt(cfg: Config, reg: Registry, slots: seq<nat>, picks: nat -> nat, d: Draft, k: nat)
    requires k < |slots| && d == SelectFirst(cfg, reg, slots, picks, k)
    ensures SelectFirst(cfg, reg, slots, picks, k + 1) == SelectOne(cfg, reg.pool, d, slots[k], picks(k))
  {}

  method RemoveRecorded<T>(s: seq<T>, indices: seq<nat>) returns (r: Option<seq<T>>)
    ensures r == RemoveAll(s, indices)
  {
    var rest := s;
    for k := 0 to |indices|
      invariant RemoveAll(s, indices) == RemoveAll(rest, indices[k..])
    {
      assert indices[k..][0] == indices[k] && indices[k..][1..] == indices[k + 1..];
      if indices[k] >= |rest| {
        return None;
      }
      rest := RemoveAt(rest, indices[k]);
    }
    r := Some(rest);
  }

  method ComputeChoice(cfg: Config, reg: Registry, weight: nat, rng: Rng) returns (r: Result<Choice>)
    requires cfg.minJurorStake > 0
    ensures r == ChooseMultipleWeighted(cfg, reg, weight, rng)
  {
    var m := cfg.minJurorStake;
    var total, ends := ComputeSections(reg.pool, m);
    if total < weight * m {
      return Err(NotEnoughJurorsAndDelegatorsStake);
    }
    EnoughStakeMeansEnoughSections(weight, total, m);
    var drawn := SectionDraw.GetNRandomSectionEnds(weight, total, m, rng.sections);
    var d := GetSelections(cfg, reg, SortedSeq(drawn), ends, rng.jurors);
    var pool := RemoveRecorded(d.pool, d.lost);
    if pool.None? {
      return Err(IndexOutOfRange);
    }
    r := Ok(Choice(Registry(pool.value, d.participants, reg.locks), ConvertSelectionsToDraws(d.selections), |d.lost|));
  }

  method ComputeUnlocked(participants: map<AccountId, Participant>, draws: seq<Draw>)
    returns (r: map<AccountId, Participant>)
    ensures r == UnlockFirst(participants, draws, |draws|)
  {
    r := participants;
    for k := 0 to |draws|
      invariant r == UnlockFirst(participants, draws, k)
    {
      var who := draws[k].who;
      if who in r {
        r := r[who := r[who].(activeLock := Minus(r[who].activeLock, draws[k].slashable))];
      }
    }
  }

  // ---------- reassigning stakes ----------

  method NoteDelegations(jurors: Jurors, delegator: AccountId, stakes: Stakes) returns (r: Jurors)
    ensures r == BackAll(jurors, delegator, stakes, |stakes|)
  {
    r := jurors;
    for k := 0 to |stakes|
      invariant r == BackAll(jurors, delegator, stakes, k)
    {
      var (juror, amount) := stakes[k];
      var entry := StakesFor(r, juror);
      r := r[juror := JurorStakes(entry.self, AddDelegation(entry.delegations, delegator, amount))];
    }
  }

  /** One draw: release its lock, then slash a tardy juror or note who stands behind whom. */
  method HandleOneVote(pot: AccountId, t: Tally, draw: Draw) returns (r: Tally)
    ensures r == HandleVote(pot, t, draw)
  {
    var participants := Unlock(t.participants, draw.who, draw.slashable);
    match draw.vote {
      case Revealed(_, item, _) =>
        var own := JurorStakes(Some(SelfInfo(draw.slashable, item)), StakesFor(t.jurors, draw.who).delegations);
        r := Tally(participants, t.free, t.jurors[draw.who := own]);
      case Delegated(stakes) =>
        var jurors := NoteDelegations(t.jurors, draw.who, stakes);
        r := Tally(participants, t.free, jurors);
      case _ =>
        var taken := Min(GetOr(t.free, draw.who), draw.slashable);
        var free := t.free[draw.who := GetOr(t.free, draw.who) - taken];
        free := free[pot := GetOr(free, pot) + taken];
        r := Tally(participants, free, t.jurors);
    }
  }

  method HandleAllVotes(pot: AccountId, start: Tally, draws: seq<Draw>) returns (t: Tally)
    ensures t == HandleVotes(pot, start, draws, |draws|)
  {
    t := start;
    for k := 0 to |draws|
      invariant t == HandleVotes(pot, start, draws, k)
    {
      t := HandleOneVote(pot, t, draws[k]);
    }
  }

  method SplitJurors(jurors: Jurors, order: seq<AccountId>, winner: VoteItem) returns (charges: Stakes, winners: Stakes)
    ensures charges == Charges(jurors, order, winner)
    ensures winners == Winners(jurors, order, winner)
  {
    charges, winners := [], [];
    for k := 0 to |order|
      invariant charges == Charges(jurors, order[..k], winner)
      invariant winners == Winners(jurors, order[..k], winner)
    {
      assert order[..k + 1][..k] == order[..k] && order[..k + 1][k] == order[k];
      var s := StakesFor(jurors, order[k]);
      if Won(s, winner) {
        winners := winners + Behind(order[k], s);
      } else {
        charges := charges + Behind(order[k], s);
      }
    }
    assert order[..|order|] == order;
  }

  method CollectCharges(free: Free, charges: Stakes) returns (p: Purse)
    ensures p == CollectFirst(Purse(free, 0), charges, |charges|)
  {
    var left: Free, held: Balance := free, 0;
    for k := 0 to |charges|
      invariant Purse(left, held) == CollectFirst(Purse(free, 0), charges, k)
    {
      var (who, amount) := charges[k];
      var taken := Min(GetOr(left, who), amount);
      left, held := left[who := GetOr(left, who) - taken], held + taken;
    }
    p := Purse(left, held);
  }

  method PayWinners(p: Purse, winners: Stakes, total: Balance, share: (Balance, Balance, Balance) -> Balance)
    returns (q: Purse)
    ensures q == RewardFirst(p, winners, |winners|, total, p.held, share)
  {
    q := p;
    for k := 0 to |winners|
      invariant q == RewardFirst(p, winners, k, total, p.held, share)
    {
      var paid := Min(q.held, share(winners[k].1, total, p.held));
      q := Purse(q.free[winners[k].0 := GetOr(q.free, winners[k].0) + paid], q.held - paid);
    }
  }

  method ComputeReassignment(cfg: Config, pot: AccountId, participants: map<AccountId, Participant>, free: Free,
                             draws: seq<Draw>, winner: VoteItem)
    returns (participants': map<AccountId, Participant>, free': Free)
    ensures (participants', free') == Reassign(cfg, pot, participants, free, draws, winner)
  {
    var t := HandleAllVotes(pot, Tally(participants, free, map[]), draws);
    participants' := t.participants;
    var charges, winners := SplitJurors(t.jurors, SortedSeq(t.jurors.Keys), winner);
    var p := CollectCharges(t.free, charges);
    p := EmptyPot(p, pot);
    var q := PayWinners(p, winners, SumStakes(winners), cfg.share);
    free' := q.free;
    if q.held != 0 {
      free' := Deposit(q.free, cfg.treasury, q.held);
    }
  }

  // ---------- inflation ----------

  method ComputeEligible(pool: seq<PoolItem>, ended: nat) returns (total: Balance)
    ensures total == TotalEligible(pool, ended, |pool|)
  {
    total := 0;
    for k := 0 to |pool|
      invariant total == TotalEligible(pool, ended, k)
    {
      total := total + EligibleStake(pool[k], ended);
    }
  }

  method MintToPool(cfg: Config, start: Mint, pool: seq<PoolItem>, ended: nat, total: Balance, mint: Balance)
    returns (m: Mint)
    ensures m == MintFirst(cfg, start, pool, |pool|, ended, total, mint)
  {
    m := start;
    for k := 0 to |pool|
      invariant m == MintFirst(cfg, start, pool, k, ended, total, mint)
    {
      var eligible := EligibleStake(pool[k], ended);
      if eligible != 0 {
        var paid := Min(m.left, cfg.mintShare(eligible, total, mint));
        if pool[k].who in m.free {
          m := Mint(Deposit(m.free, pool[k].who, paid), m.issuance, m.left - paid);
        } else {
          m := Mint(m.free, Minus(m.issuance, paid), m.left - paid);
        }
      }
    }
  }

  method ComputeInflation(cfg: Config, pool: seq<PoolItem>, free: Free, issuance: Balance, rate: nat, now: Block)
    returns (free': Free, issuance': Balance)
    ensures (free', issuance') == HandleInflation(cfg, pool, free, issuance, rate, now)
  {
    free', issuance' := free, issuance;
    if cfg.inflationPeriod == 0 || now % cfg.inflationPeriod != 0 || rate == 0 {
      return;
    }
    var mint := PeriodMint(cfg, issuance, rate);
    if mint > YearlyAmount(issuance, rate) {
      return;
    }
    var ended := Minus(now / cfg.inflationPeriod, 1);
    var total := ComputeEligible(pool, ended);
    if total == 0 {
      return;
    }
    var m := MintToPool(cfg, Mint(free, issuance + mint, mint), pool, ended, total, mint);
    free', issuance' := m.free, Minus(m.issuance, m.left);
  }

  lemma {:induction false} BondErrorStays(b: Bonds, appeals: seq<Appeal>, i: nat, n: nat, resolved: OutcomeReport)
    requires i <= n <= |appeals| && SettleBonds(b, appeals, i, resolved).Err?
    ensures SettleBonds(b, appeals, n, resolved) == SettleBonds(b, appeals, i, resolved)
  {
    if i < n {
      BondErrorStays(b, appeals, i, n - 1, resolved);
    }
  }

  method ComputeBonds(free: Free, reserved: Free, appeals: seq<Appeal>, resolved: OutcomeReport)
    returns (r: Result<Bonds>)
    ensures r == SettleBonds(Bonds(free, reserved, 0), appeals, |appeals|, resolved)
  {
    var b := Bonds(free, reserved, 0);
    for k := 0 to |appeals|
      invariant SettleBonds(Bonds(free, reserved, 0), appeals, k, resolved) == Ok(b)
    {
      var Appeal(backer, bond, appealed) := appeals[k];
      if !appealed.Outcome? {
        BondErrorStays(Bonds(free, reserved, 0), appeals, k + 1, |appeals|, resolved);
        return Err(AppealedVoteItemIsNoOutcome);
      }
      var held := Min(GetOr(b.reserved, backer), bond);
      var rest: Free := b.reserved[backer := GetOr(b.reserved, backer) - held];
      if appealed.report == resolved {
        b := Bonds(b.free, rest, b.taken + held);
      } else {
        b := Bonds(b.free[backer := GetOr(b.free, backer) + held], rest, b.taken);
      }
    }
    r := Ok(b);
  }

  method CollectItems(appeals: seq<Appeal>, oracle: OutcomeReport, treasury: AccountId) returns (items: seq<GlobalItem>)
    ensures items == GlobalItems(appeals, |appeals|, oracle, treasury)
  {
    items := [];
    for k := 0 to |appeals|
      invariant items == GlobalItems(appeals, k, oracle, treasury)
    {
      var item := appeals[k].appealed;
      if item.Outcome? && item.report != oracle {
        items := items + [GlobalItem(item.report, treasury, 0)];
      }
    }
  }
}
