/** Minting inflation to the stake that is eligible in the period just ended. */
module Inflation {
  import opened Collections
  import opened CourtTypes
  import opened JurorPool
  import opened Reassignment
  import SectionDraw

  const PERBILL: nat := 1_000_000_000

  /** Stake added in the period just ended does not count. */
  function EligibleStake(item: PoolItem, endedPeriod: nat): Balance {
    if endedPeriod != item.uneligibleIndex then item.stake else Minus(item.stake, item.uneligibleStake)
  }

  function TotalEligible(pool: seq<PoolItem>, endedPeriod: nat, n: nat): Balance
    requires n <= |pool|
  {
    if n == 0 then 0 else TotalEligible(pool, endedPeriod, n - 1) + EligibleStake(pool[n - 1], endedPeriod)
  }

  function YearlyAmount(issuance: Balance, rate: nat): Balance {
    rate * issuance / PERBILL
  }

  function PeriodMint(cfg: Config, issuance: Balance, rate: nat): Balance {
    YearlyAmount(issuance, rate) / Max(cfg.blocksPerYear, 1) * cfg.inflationPeriod
  }

  /** Free balances, total issuance and what is left of the period's mint. */
  datatype Mint = Mint(free: Free, issuance: Balance, left: Balance)

  /** Pay one item its share, clamped to what is left; a share for an account that does not exist is dropped. */
  function MintOne(cfg: Config, m: Mint, item: PoolItem, endedPeriod: nat, total: Balance, mint: Balance): Mint {
    var eligible := EligibleStake(item, endedPeriod);
    if eligible == 0 then m else
      var paid := Min(m.left, cfg.mintShare(eligible, total, mint));
      if item.who in m.free then Mint(Deposit(m.free, item.who, paid), m.issuance, m.left - paid)
      else Mint(m.free, Minus(m.issuance, paid), m.left - paid)
  }

  function MintFirst(cfg: Config, m: Mint, pool: seq<PoolItem>, n: nat, endedPeriod: nat, total: Balance,
                     mint: Balance): Mint
    requires n <= |pool|
  {
    if n == 0 then m
    else MintOne(cfg, MintFirst(cfg, m, pool, n - 1, endedPeriod, total, mint), pool[n - 1], endedPeriod, total, mint)
  }

  predicate InflationDue(cfg: Config, pool: seq<PoolItem>, issuance: Balance, rate: nat, now: Block) {
    && cfg.inflationPeriod > 0
    && now % cfg.inflationPeriod == 0
    && rate > 0
    && PeriodMint(cfg, issuance, rate) <= YearlyAmount(issuance, rate)
    && TotalEligible(pool, Minus(now / cfg.inflationPeriod, 1), |pool|) > 0
  }

  /** Balances and issuance after the block hook; the undistributed rest of the mint is burnt. */
  function HandleInflation(cfg: Config, pool: seq<PoolItem>, free: Free, issuance: Balance, rate: nat,
                           now: Block): (Free, Balance) {
    if !InflationDue(cfg, pool, issuance, rate, now) then (free, issuance) else
      var ended := Minus(now / cfg.inflationPeriod, 1);
      var mint := PeriodMint(cfg, issuance, rate);
      var m := MintFirst(cfg, Mint(free, issuance + mint, mint), pool, |pool|, ended,
                         TotalEligible(pool, ended, |pool|), mint);
      (m.free, Minus(m.issuance, m.left))
  }

  // ---------- what is paid ----------

  /** Issuance minus what is left grows exactly as balances do; the rest never exceeds the mint. */
  lemma {:induction false} MintConserves(cfg: Config, m: Mint, pool: seq<PoolItem>, n: nat, endedPeriod: nat,
                                         total: Balance, mint: Balance)
    requires n <= |pool| && m.left <= m.issuance
    ensures var r := MintFirst(cfg, m, pool, n, endedPeriod, total, mint);
            && r.left <= m.left && r.left <= r.issuance
            && (r.issuance - r.left) - MapSum(r.free) == (m.issuance - m.left) - MapSum(m.free)
            && MapSum(m.free) <= MapSum(r.free) <= MapSum(m.free) + (m.left - r.left)
  {
    if n > 0 {
      MintConserves(cfg, m, pool, n - 1, endedPeriod, total, mint);
      var q := MintFirst(cfg, m, pool, n - 1, endedPeriod, total, mint);
      var item := pool[n - 1];
      DepositAdds(q.free, item.who, Min(q.left, cfg.mintShare(EligibleStake(item, endedPeriod), total, mint)));
    }
  }

  lemma {:induction false} MintPaysOnlyEligible(cfg: Config, m: Mint, pool: seq<PoolItem>, n: nat, endedPeriod: nat,
                                                total: Balance, mint: Balance, a: AccountId)
    requires n <= |pool|
    ensures var r := MintFirst(cfg, m, pool, n, endedPeriod, total, mint);
            && r.free.Keys == m.free.Keys
            && GetOr(r.free, a) >= GetOr(m.free, a)
            && ((forall i :: 0 <= i < n && pool[i].who == a ==> EligibleStake(pool[i], endedPeriod) == 0) ==>
                  GetOr(r.free, a) == GetOr(m.free, a))
  {
    if n > 0 {
      MintPaysOnlyEligible(cfg, m, pool, n - 1, endedPeriod, total, mint, a);
    }
  }

  /** Issuance grows by exactly what is paid out, which is at most the period's mint, which is at most the
      yearly amount; nobody loses and only accounts with eligible stake gain. */
  lemma InflationIsBounded(cfg: Config, pool: seq<PoolItem>, free: Free, issuance: Balance, rate: nat, now: Block)
    ensures var r := HandleInflation(cfg, pool, free, issuance, rate, now);
            && MapSum(r.0) >= MapSum(free)
            && r.1 - issuance == MapSum(r.0) - MapSum(free)
            && (r.1 > issuance ==>
                  && now % cfg.inflationPeriod == 0
                  && r.1 - issuance <= PeriodMint(cfg, issuance, rate) <= YearlyAmount(issuance, rate))
  {
    if InflationDue(cfg, pool, issuance, rate, now) {
      var ended := Minus(now / cfg.inflationPeriod, 1);
      var mint := PeriodMint(cfg, issuance, rate);
      MintConserves(cfg, Mint(free, issuance + mint, mint), pool, |pool|, ended, TotalEligible(pool, ended, |pool|),
                    mint);
    }
  }

  lemma OnlyEligibleStakeIsPaid(cfg: Config, pool: seq<PoolItem>, free: Free, issuance: Balance, rate: nat, now: Block,
                                a: AccountId)
    requires cfg.inflationPeriod > 0
    ensures var r := HandleInflation(cfg, pool, free, issuance, rate, now);
            && r.0.Keys == free.Keys
            && GetOr(r.0, a) >= GetOr(free, a)
            && (GetOr(r.0, a) > GetOr(free, a) ==>
                  exists i :: 0 <= i < |pool| && pool[i].who == a &&
                              EligibleStake(pool[i], Minus(now / cfg.inflationPeriod, 1)) > 0)
  {
    if InflationDue(cfg, pool, issuance, rate, now) {
      var ended := Minus(now / cfg.inflationPeriod, 1);
      var mint := PeriodMint(cfg, issuance, rate);
      MintPaysOnlyEligible(cfg, Mint(free, issuance + mint, mint), pool, |pool|, ended,
                           TotalEligible(pool, ended, |pool|), mint, a);
    }
  }

  /** What an item is to be paid. */
  function ShareOf(cfg: Config, item: PoolItem, endedPeriod: nat, total: Balance, mint: Balance): Balance {
    var eligible := EligibleStake(item, endedPeriod);
    if eligible == 0 then 0 else cfg.mintShare(eligible, total, mint)
  }

  function SharesOfFirst(cfg: Config, pool: seq<PoolItem>, n: nat, endedPeriod: nat, total: Balance,
                         mint: Balance): Balance
    requires n <= |pool|
  {
    if n == 0 then 0
    else SharesOfFirst(cfg, pool, n - 1, endedPeriod, total, mint) + ShareOf(cfg, pool[n - 1], endedPeriod, total, mint)
  }

  /** Shares that round down. */
  ghost predicate RoundsDown(cfg: Config) {
    forall eligible: nat, total: nat, mint: nat :: total > 0 ==>
      cfg.mintShare(eligible, total, mint) * total <= eligible * mint
  }

  lemma Distributes(a: nat, b: nat, c: nat)
    ensures (a + b) * c == a * c + b * c
  {}

  lemma {:induction false} SharesAreProportional(cfg: Config, pool: seq<PoolItem>, n: nat, endedPeriod: nat,
                                                 total: Balance, mint: Balance)
    requires n <= |pool| && RoundsDown(cfg) && total > 0
    ensures SharesOfFirst(cfg, pool, n, endedPeriod, total, mint) * total <= TotalEligible(pool, endedPeriod, n) * mint
  {
    if n > 0 {
      SharesAreProportional(cfg, pool, n - 1, endedPeriod, total, mint);
      Distributes(SharesOfFirst(cfg, pool, n - 1, endedPeriod, total, mint),
                  ShareOf(cfg, pool[n - 1], endedPeriod, total, mint), total);
      Distributes(TotalEligible(pool, endedPeriod, n - 1), EligibleStake(pool[n - 1], endedPeriod), mint);
    }
  }

  lemma CancelFactor(a: nat, b: nat, total: nat)
    requires total > 0 && a * total <= b * total
    ensures a <= b
  {
    if b < a {
      SectionDraw.MulMonotone(b + 1, a, total);
    }
  }

  /** Shares that round down never use up more than the mint. */
  lemma SharesFit(cfg: Config, pool: seq<PoolItem>, endedPeriod: nat, mint: Balance)
    requires RoundsDown(cfg) && TotalEligible(pool, endedPeriod, |pool|) > 0
    ensures SharesOfFirst(cfg, pool, |pool|, endedPeriod, TotalEligible(pool, endedPeriod, |pool|), mint) <= mint
  {
    var total := TotalEligible(pool, endedPeriod, |pool|);
    SharesAreProportional(cfg, pool, |pool|, endedPeriod, total, mint);
    assert total * mint == mint * total;
    CancelFactor(SharesOfFirst(cfg, pool, |pool|, endedPeriod, total, mint), mint, total);
  }

  lemma {:induction false} SharesArePaid(cfg: Config, m: Mint, pool: seq<PoolItem>, n: nat, endedPeriod: nat,
                                         total: Balance, mint: Balance, i: nat)
    requires n <= |pool| && i < |pool| && OncePerAccount(pool) && pool[i].who in m.free
    requires SharesOfFirst(cfg, pool, n, endedPeriod, total, mint) <= m.left
    ensures var r := MintFirst(cfg, m, pool, n, endedPeriod, total, mint);
            && r.left == m.left - SharesOfFirst(cfg, pool, n, endedPeriod, total, mint)
            && pool[i].who in r.free
            && GetOr(r.free, pool[i].who) ==
               GetOr(m.free, pool[i].who) + if i < n then ShareOf(cfg, pool[i], endedPeriod, total, mint) else 0
  {
    if n > 0 {
      SharesArePaid(cfg, m, pool, n - 1, endedPeriod, total, mint, i);
    }
  }

  /** With shares that round down, every pool item whose account exists is paid exactly its share of the mint. */
  lemma EveryShareIsPaid(cfg: Config, pool: seq<PoolItem>, free: Free, issuance: Balance, rate: nat, now: Block, i: nat)
    requires RoundsDown(cfg) && InflationDue(cfg, pool, issuance, rate, now)
    requires OncePerAccount(pool) && i < |pool| && pool[i].who in free
    ensures var ended := Minus(now / cfg.inflationPeriod, 1);
            GetOr(HandleInflation(cfg, pool, free, issuance, rate, now).0, pool[i].who) ==
            GetOr(free, pool[i].who) +
            ShareOf(cfg, pool[i], ended, TotalEligible(pool, ended, |pool|), PeriodMint(cfg, issuance, rate))
  {
    var ended := Minus(now / cfg.inflationPeriod, 1);
    var mint := PeriodMint(cfg, issuance, rate);
    SharesFit(cfg, pool, ended, mint);
    SharesArePaid(cfg, Mint(free, issuance + mint, mint), pool, |pool|, ended, TotalEligible(pool, ended, |pool|), mint,
                  i);
  }
}
