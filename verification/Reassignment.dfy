/** Reassigning stakes after a verdict: slash tardy and losing jurors, reward the winners. */
module Reassignment {
  import opened Collections
  import opened SortedSearch
  import opened CourtTypes
  import opened JurorPool
  import opened Selection
  import opened SelectionTotals
  import opened DrawTheorem

  type Free = map<AccountId, Balance>
  type Stakes = seq<(AccountId, Balance)>

  // ---------- currency ----------

  function Deposit(free: Free, who: AccountId, amount: Balance): Free {
    free[who := GetOr(free, who) + amount]
  }

  /** Slashing takes what is there, at most the amount. */
  function Slashed(free: Free, who: AccountId, amount: Balance): Balance {
    Min(GetOr(free, who), amount)
  }

  function Slash(free: Free, who: AccountId, amount: Balance): Free {
    free[who := GetOr(free, who) - Slashed(free, who, amount)]
  }

  function SlashTo(free: Free, who: AccountId, amount: Balance, to: AccountId): Free {
    Deposit(Slash(free, who, amount), to, Slashed(free, who, amount))
  }

  lemma DepositAdds(free: Free, who: AccountId, amount: Balance)
    ensures MapSum(Deposit(free, who, amount)) == MapSum(free) + amount
  {
    MapSumUpdate(free, who, GetOr(free, who) + amount);
  }

  lemma SlashTakes(free: Free, who: AccountId, amount: Balance)
    ensures MapSum(Slash(free, who, amount)) + Slashed(free, who, amount) == MapSum(free)
  {
    MapSumUpdate(free, who, GetOr(free, who) - Slashed(free, who, amount));
  }

  lemma SlashToConserves(free: Free, who: AccountId, amount: Balance, to: AccountId)
    ensures MapSum(SlashTo(free, who, amount, to)) == MapSum(free)
  {
    SlashTakes(free, who, amount);
    DepositAdds(Slash(free, who, amount), to, Slashed(free, who, amount));
  }

  // ---------- collecting the votes ----------

  datatype SelfInfo = SelfInfo(slashable: Balance, item: VoteItem)

  /** A juror's own revealed vote, if any, and the delegators that backed the juror. */
  datatype JurorStakes = JurorStakes(self: Option<SelfInfo>, delegations: Stakes)

  type Jurors = map<AccountId, JurorStakes>

  datatype Tally = Tally(participants: map<AccountId, Participant>, free: Free, jurors: Jurors)

  function StakesFor(jurors: Jurors, juror: AccountId): JurorStakes {
    if juror in jurors then jurors[juror] else JurorStakes(None, [])
  }

  /** Add to the delegator's entry or insert one at its sorted place. */
  function AddDelegation(delegations: Stakes, delegator: AccountId, amount: Balance): Stakes {
    match Search(StakeKeys(delegations), (delegator, 0))
    case Found(i) => delegations[i := (delegations[i].0, delegations[i].1 + amount)]
    case Missing(i) => InsertAt(delegations, i, (delegator, amount))
  }

  function Back(jurors: Jurors, juror: AccountId, delegator: AccountId, amount: Balance): Jurors {
    var s := StakesFor(jurors, juror);
    jurors[juror := JurorStakes(s.self, AddDelegation(s.delegations, delegator, amount))]
  }

  /** Note the first `n` delegated stakes of a delegator under the jurors they back. */
  function BackAll(jurors: Jurors, delegator: AccountId, stakes: Stakes, n: nat): Jurors
    requires n <= |stakes|
  {
    if n == 0 then jurors
    else Back(BackAll(jurors, delegator, stakes, n - 1), stakes[n - 1].0, delegator, stakes[n - 1].1)
  }

  function Unlock(participants: map<AccountId, Participant>, who: AccountId,
                  amount: Balance): map<AccountId, Participant> {
    if who in participants then
      participants[who := participants[who].(activeLock := Minus(participants[who].activeLock, amount))]
    else participants
  }

  predicate Tardy(v: Vote) {
    v.Drawn? || v.Secret? || v.Denounced?
  }

  function HandleVote(pot: AccountId, t: Tally, draw: Draw): Tally {
    var participants := Unlock(t.participants, draw.who, draw.slashable);
    match draw.vote
    case Revealed(_, item, _) =>
      var own := JurorStakes(Some(SelfInfo(draw.slashable, item)), StakesFor(t.jurors, draw.who).delegations);
      Tally(participants, t.free, t.jurors[draw.who := own])
    case Delegated(stakes) =>
      Tally(participants, t.free, BackAll(t.jurors, draw.who, stakes, |stakes|))
    case _ =>
      Tally(participants, SlashTo(t.free, draw.who, draw.slashable, pot), t.jurors)
  }

  function VoteHandler(pot: AccountId, draws: seq<Draw>): (Tally, nat) -> Tally {
    (t: Tally, k: nat) => if k < |draws| then HandleVote(pot, t, draws[k]) else t
  }

  /** The tally after the first `n` draws. */
  function HandleVotes(pot: AccountId, t: Tally, draws: seq<Draw>, n: nat): Tally {
    Fold(VoteHandler(pot, draws), t, n)
  }

  // ---------- losers and winners ----------

  predicate Won(s: JurorStakes, winner: VoteItem) {
    s.self.Some? && s.self.value.item == winner
  }

  /** Everybody who stands behind a juror, the juror first if the juror voted. */
  function Behind(juror: AccountId, s: JurorStakes): Stakes {
    (if s.self.Some? then [(juror, s.self.value.slashable)] else []) + s.delegations
  }

  /** The slashes for all jurors whose revealed vote did not win, and for all who delegated to them. */
  function Charges(jurors: Jurors, order: seq<AccountId>, winner: VoteItem): Stakes {
    if |order| == 0 then [] else
      Charges(jurors, order[..|order| - 1], winner) +
      var j := order[|order| - 1];
      var s := StakesFor(jurors, j);
      if Won(s, winner) then [] else Behind(j, s)
  }

  /** The winning jurors and their delegators with what they risked. */
  function Winners(jurors: Jurors, order: seq<AccountId>, winner: VoteItem): Stakes {
    if |order| == 0 then [] else
      Winners(jurors, order[..|order| - 1], winner) +
      var j := order[|order| - 1];
      var s := StakesFor(jurors, j);
      if Won(s, winner) then Behind(j, s) else []
  }

  /** Free balances together with the incentives taken out of them. */
  datatype Purse = Purse(free: Free, held: Balance)

  function Collect(p: Purse, charge: (AccountId, Balance)): Purse {
    Purse(Slash(p.free, charge.0, charge.1), p.held + Slashed(p.free, charge.0, charge.1))
  }

  function CollectFirst(p: Purse, charges: Stakes, n: nat): Purse
    requires n <= |charges|
  {
    if n == 0 then p else Collect(CollectFirst(p, charges, n - 1), charges[n - 1])
  }

  /** Empty the reward pot into the incentives. */
  function EmptyPot(p: Purse, pot: AccountId): Purse {
    Collect(p, (pot, GetOr(p.free, pot)))
  }

  /** Pay one winner its rounded share, clamped to what is left. */
  function Reward(p: Purse, to: (AccountId, Balance), total: Balance, reward: Balance,
                  share: (Balance, Balance, Balance) -> Balance): Purse
  {
    var paid := Min(p.held, share(to.1, total, reward));
    Purse(Deposit(p.free, to.0, paid), p.held - paid)
  }

  function RewardFirst(p: Purse, winners: Stakes, n: nat, total: Balance, reward: Balance,
                       share: (Balance, Balance, Balance) -> Balance): Purse
    requires n <= |winners|
  {
    if n == 0 then p
    else Reward(RewardFirst(p, winners, n - 1, total, reward, share), winners[n - 1], total, reward, share)
  }

  /** Slash, empty the pot, pay the winners; what is left over goes to the treasury. */
  function Settle(cfg: Config, pot: AccountId, free: Free, charges: Stakes, winners: Stakes): Free {
    var p := EmptyPot(CollectFirst(Purse(free, 0), charges, |charges|), pot);
    var q := RewardFirst(p, winners, |winners|, SumStakes(winners), p.held, cfg.share);
    if q.held == 0 then q.free else Deposit(q.free, cfg.treasury, q.held)
  }

  function SlashLosersToAwardWinners(cfg: Config, pot: AccountId, free: Free, jurors: Jurors, winner: VoteItem): Free {
    var order := SortedSeq(jurors.Keys);
    Settle(cfg, pot, free, Charges(jurors, order, winner), Winners(jurors, order, winner))
  }

  /** Participants and balances after the stakes of a court were reassigned. */
  function Reassign(cfg: Config, pot: AccountId, participants: map<AccountId, Participant>, free: Free,
                    draws: seq<Draw>, winner: VoteItem): (map<AccountId, Participant>, Free)
  {
    var t := HandleVotes(pot, Tally(participants, free, map[]), draws, |draws|);
    (t.participants, SlashLosersToAwardWinners(cfg, pot, t.free, t.jurors, winner))
  }

  // ---------- conservation ----------

  lemma {:induction false} CollectConserves(p: Purse, charges: Stakes, n: nat)
    requires n <= |charges|
    ensures var q := CollectFirst(p, charges, n); MapSum(q.free) + q.held == MapSum(p.free) + p.held
  {
    if n > 0 {
      CollectConserves(p, charges, n - 1);
      SlashTakes(CollectFirst(p, charges, n - 1).free, charges[n - 1].0, charges[n - 1].1);
    }
  }

  lemma {:induction false} RewardConserves(p: Purse, winners: Stakes, n: nat, total: Balance, reward: Balance,
                                           share: (Balance, Balance, Balance) -> Balance)
    requires n <= |winners|
    ensures var q := RewardFirst(p, winners, n, total, reward, share);
            MapSum(q.free) + q.held == MapSum(p.free) + p.held
  {
    if n > 0 {
      RewardConserves(p, winners, n - 1, total, reward, share);
      var q := RewardFirst(p, winners, n - 1, total, reward, share);
      DepositAdds(q.free, winners[n - 1].0, Min(q.held, share(winners[n - 1].1, total, reward)));
    }
  }

  lemma SettleConserves(cfg: Config, pot: AccountId, free: Free, charges: Stakes, winners: Stakes)
    ensures MapSum(Settle(cfg, pot, free, charges, winners)) == MapSum(free)
  {
    var p0 := CollectFirst(Purse(free, 0), charges, |charges|);
    CollectConserves(Purse(free, 0), charges, |charges|);
    SlashTakes(p0.free, pot, GetOr(p0.free, pot));
    var p := EmptyPot(p0, pot);
    RewardConserves(p, winners, |winners|, SumStakes(winners), p.held, cfg.share);
    var q := RewardFirst(p, winners, |winners|, SumStakes(winners), p.held, cfg.share);
    DepositAdds(q.free, cfg.treasury, q.held);
  }

  lemma VotesConserve(pot: AccountId, t: Tally, draws: seq<Draw>)
    ensures MapSum(HandleVotes(pot, t, draws, |draws|).free) == MapSum(t.free)
  {
    var step := VoteHandler(pot, draws);
    var inv := (s: Tally, k: nat) => MapSum(s.free) == MapSum(t.free);
    forall s, k: nat | k < |draws| && inv(s, k) ensures inv(step(s, k), k + 1) {
      SlashToConserves(s.free, draws[k].who, draws[k].slashable, pot);
    }
    FoldInvariant(step, t, |draws|, inv);
  }

  /** Reassigning stakes conserves the sum of all free balances, whatever the shares are rounded to. */
  lemma ReassignConserves(cfg: Config, pot: AccountId, participants: map<AccountId, Participant>, free: Free,
                          draws: seq<Draw>, winner: VoteItem)
    ensures MapSum(Reassign(cfg, pot, participants, free, draws, winner).1) == MapSum(free)
  {
    var t := Tally(participants, free, map[]);
    VotesConserve(pot, t, draws);
    var t' := HandleVotes(pot, t, draws, |draws|);
    var order := SortedSeq(t'.jurors.Keys);
    SettleConserves(cfg, pot, t'.free, Charges(t'.jurors, order, winner), Winners(t'.jurors, order, winner));
  }

  // ---------- the reward pot ----------

  lemma {:induction false} RewardLeavesOthers(p: Purse, winners: Stakes, n: nat, total: Balance, reward: Balance,
                                              share: (Balance, Balance, Balance) -> Balance, who: AccountId)
    requires n <= |winners|
    requires forall i :: 0 <= i < n ==> winners[i].0 != who
    ensures GetOr(RewardFirst(p, winners, n, total, reward, share).free, who) == GetOr(p.free, who)
  {
    if n > 0 {
      RewardLeavesOthers(p, winners, n - 1, total, reward, share, who);
    }
  }

  /** The pot is empty afterwards unless it is itself a winner or the treasury. */
  lemma SettleEmptiesPot(cfg: Config, pot: AccountId, free: Free, charges: Stakes, winners: Stakes)
    requires pot != cfg.treasury
    requires forall i :: 0 <= i < |winners| ==> winners[i].0 != pot
    ensures GetOr(Settle(cfg, pot, free, charges, winners), pot) == 0
  {
    var p0 := CollectFirst(Purse(free, 0), charges, |charges|);
    var p := EmptyPot(p0, pot);
    assert GetOr(p.free, pot) == 0;
    RewardLeavesOthers(p, winners, |winners|, SumStakes(winners), p.held, cfg.share, pot);
  }

  // ---------- every draw is charged exactly once ----------

  /** The part of a list that falls on a set of accounts. */
  function SumIn(stakes: Stakes, who: set<AccountId>): nat {
    if |stakes| == 0 then 0 else SumIn(stakes[..|stakes| - 1], who) + AmountIn(stakes[|stakes| - 1], who)
  }

  function AmountIn(entry: (AccountId, Balance), who: set<AccountId>): nat {
    if entry.0 in who then entry.1 else 0
  }

  lemma {:induction false} SumInConcat(a: Stakes, b: Stakes, who: set<AccountId>)
    ensures SumIn(a + b, who) == SumIn(a, who) + SumIn(b, who)
    decreases |b|
  {
    if |b| == 0 {
      assert a + b == a;
    } else {
      SumInConcat(a, b[..|b| - 1], who);
      assert (a + b)[..|a + b| - 1] == a + b[..|b| - 1];
    }
  }

  lemma SumInAround(all: Stakes, left: Stakes, entry: (AccountId, Balance), right: Stakes, who: set<AccountId>)
    requires all == left + [entry] + right
    ensures SumIn(all, who) == SumIn(left, who) + AmountIn(entry, who) + SumIn(right, who)
  {
    SumInConcat(left + [entry], right, who);
    assert (left + [entry])[..|left|] == left;
  }

  lemma RaisedIn(s: Stakes, i: nat, amount: Balance, who: set<AccountId>)
    requires i < |s|
    ensures SumIn(s[i := (s[i].0, s[i].1 + amount)], who) == SumIn(s, who) + AmountIn((s[i].0, amount), who)
  {
    var entry: (AccountId, Balance) := (s[i].0, s[i].1 + amount);
    var left, right := s[..i], s[i + 1..];
    SumInAround(s[i := entry], left, entry, right, who);
    SumInAround(s, left, s[i], right, who);
  }

  lemma InsertedIn(s: Stakes, i: nat, entry: (AccountId, Balance), who: set<AccountId>)
    requires i <= |s|
    ensures SumIn(InsertAt(s, i, entry), who) == SumIn(s, who) + AmountIn(entry, who)
  {
    var left, right := s[..i], s[i..];
    SumInAround(InsertAt(s, i, entry), left, entry, right, who);
    assert left + right == s;
    SumInConcat(left, right, who);
  }

  lemma AddDelegationAdds(delegations: Stakes, delegator: AccountId, amount: Balance, who: set<AccountId>)
    ensures SumIn(AddDelegation(delegations, delegator, amount), who) ==
            SumIn(delegations, who) + AmountIn((delegator, amount), who)
  {
    match Search(StakeKeys(delegations), (delegator, 0))
    case Found(i) =>
      assert StakeKeys(delegations)[i] == (delegations[i].0, 0);
      RaisedIn(delegations, i, amount, who);
    case Missing(i) =>
      InsertedIn(delegations, i, (delegator, amount), who);
  }

  function InSelf(juror: AccountId, s: JurorStakes, who: set<AccountId>): nat {
    if s.self.Some? && juror in who then s.self.value.slashable else 0
  }

  /** What the accounts in `who` have standing behind a juror. */
  function InJuror(juror: AccountId, s: JurorStakes, who: set<AccountId>): nat {
    InSelf(juror, s, who) + SumIn(s.delegations, who)
  }

  function InEach(jurors: Jurors, who: set<AccountId>): map<AccountId, nat> {
    map j | j in jurors :: InJuror(j, jurors[j], who)
  }

  ghost function InJurors(jurors: Jurors, who: set<AccountId>): nat {
    MapSum(InEach(jurors, who))
  }

  lemma InJurorsAfterUpdate(jurors: Jurors, j: AccountId, s: JurorStakes, who: set<AccountId>)
    ensures InJurors(jurors[j := s], who) ==
            InJurors(jurors, who) - InJuror(j, StakesFor(jurors, j), who) + InJuror(j, s, who)
  {
    MapSumUpdate(InEach(jurors, who), j, InJuror(j, s, who));
    assert InEach(jurors[j := s], who) == InEach(jurors, who)[j := InJuror(j, s, who)];
    assert GetOr(InEach(jurors, who), j) == InJuror(j, StakesFor(jurors, j), who);
  }

  lemma BackAdds(jurors: Jurors, juror: AccountId, delegator: AccountId, amount: Balance, who: set<AccountId>)
    ensures InJurors(Back(jurors, juror, delegator, amount), who) ==
            InJurors(jurors, who) + AmountIn((delegator, amount), who)
    ensures forall j :: StakesFor(Back(jurors, juror, delegator, amount), j).self == StakesFor(jurors, j).self
  {
    var s := StakesFor(jurors, juror);
    AddDelegationAdds(s.delegations, delegator, amount, who);
    InJurorsAfterUpdate(jurors, juror, JurorStakes(s.self, AddDelegation(s.delegations, delegator, amount)), who);
  }

  function SumFirst(stakes: Stakes, n: nat): nat
    requires n <= |stakes|
  {
    if n == 0 then 0 else SumFirst(stakes, n - 1) + stakes[n - 1].1
  }

  lemma {:induction false} SumFirstIsSumStakes(stakes: Stakes, n: nat)
    requires n <= |stakes|
    ensures SumFirst(stakes, n) == SumStakes(stakes[..n])
  {
    if n > 0 {
      SumFirstIsSumStakes(stakes, n - 1);
      assert stakes[..n] == stakes[..n - 1] + [stakes[n - 1]];
      SumStakesConcat(stakes[..n - 1], [stakes[n - 1]]);
    }
  }

  lemma {:induction false} BackAllAdds(jurors: Jurors, delegator: AccountId, stakes: Stakes, n: nat,
                                       who: set<AccountId>)
    requires n <= |stakes|
    ensures InJurors(BackAll(jurors, delegator, stakes, n), who) ==
            InJurors(jurors, who) + if delegator in who then SumFirst(stakes, n) else 0
    ensures forall j :: StakesFor(BackAll(jurors, delegator, stakes, n), j).self == StakesFor(jurors, j).self
  {
    if n > 0 {
      BackAllAdds(jurors, delegator, stakes, n - 1, who);
      BackAdds(BackAll(jurors, delegator, stakes, n - 1), stakes[n - 1].0, delegator, stakes[n - 1].1, who);
    }
  }

  /** What the accounts in `who` owe as tardy or denounced jurors among the first `n` draws. */
  function TardyIn(draws: seq<Draw>, n: nat, who: set<AccountId>): nat
    requires n <= |draws|
  {
    if n == 0 then 0 else
      TardyIn(draws, n - 1, who) +
      if Tardy(draws[n - 1].vote) && draws[n - 1].who in who then draws[n - 1].slashable else 0
  }

  /** The slashable amounts of the accounts in `who` over the first `n` draws. */
  function SlashableIn(draws: seq<Draw>, n: nat, who: set<AccountId>): nat
    requires n <= |draws|
  {
    if n == 0 then 0 else
      SlashableIn(draws, n - 1, who) + if draws[n - 1].who in who then draws[n - 1].slashable else 0
  }

  /** Every slashable amount seen so far is a tardy slash or stands behind exactly one juror, and jurors
      still to come have no own vote yet. */
  ghost predicate Recorded(draws: seq<Draw>, who: set<AccountId>, t: Tally, n: nat) {
    && n <= |draws|
    && InJurors(t.jurors, who) + TardyIn(draws, n, who) == SlashableIn(draws, n, who)
    && forall i :: n <= i < |draws| ==> StakesFor(t.jurors, draws[i].who).self.None?
  }

  lemma RecordStep(pot: AccountId, draws: seq<Draw>, who: set<AccountId>, t: Tally, n: nat)
    requires DrawsOk(draws) && n < |draws| && Recorded(draws, who, t, n)
    ensures Recorded(draws, who, HandleVote(pot, t, draws[n]), n + 1)
  {
    var d := draws[n];
    assert forall i :: n < i < |draws| ==> draws[i].who != d.who;
    match d.vote
    case Revealed(_, item, _) =>
      var s := StakesFor(t.jurors, d.who);
      InJurorsAfterUpdate(t.jurors, d.who, JurorStakes(Some(SelfInfo(d.slashable, item)), s.delegations), who);
    case Delegated(stakes) =>
      BackAllAdds(t.jurors, d.who, stakes, |stakes|, who);
      SumFirstIsSumStakes(stakes, |stakes|);
      assert stakes[..|stakes|] == stakes;
      assert DrawOk(d);
    case _ =>
  }

  lemma VotesRecorded(pot: AccountId, participants: map<AccountId, Participant>, free: Free, draws: seq<Draw>,
                      who: set<AccountId>)
    requires DrawsOk(draws)
    ensures Recorded(draws, who, HandleVotes(pot, Tally(participants, free, map[]), draws, |draws|), |draws|)
  {
    var step, start := VoteHandler(pot, draws), Tally(participants, free, map[]);
    var inv := (t: Tally, k: nat) => Recorded(draws, who, t, k);
    MapSumZero(InEach(map[], who));
    assert inv(start, 0);
    forall t, k: nat | k < |draws| && inv(t, k) ensures inv(step(t, k), k + 1) {
      RecordStep(pot, draws, who, t, k);
    }
    FoldInvariant(step, start, |draws|, inv);
  }

  lemma BehindSplits(juror: AccountId, s: JurorStakes, who: set<AccountId>)
    ensures SumIn(Behind(juror, s), who) == InJuror(juror, s, who)
  {
    if s.self.Some? {
      var own: Stakes := [(juror, s.self.value.slashable)];
      SumInConcat(own, s.delegations, who);
      assert own[..0] == [];
    } else {
      assert Behind(juror, s) == s.delegations;
    }
  }

  function InFirst(jurors: Jurors, order: seq<AccountId>, who: set<AccountId>): nat {
    if |order| == 0 then 0 else
      InFirst(jurors, order[..|order| - 1], who) +
      InJuror(order[|order| - 1], StakesFor(jurors, order[|order| - 1]), who)
  }

  lemma {:induction false} ChargesAndWinnersSplit(jurors: Jurors, order: seq<AccountId>, winner: VoteItem,
                                                  who: set<AccountId>)
    ensures SumIn(Charges(jurors, order, winner), who) + SumIn(Winners(jurors, order, winner), who) ==
            InFirst(jurors, order, who)
  {
    if |order| > 0 {
      var rest, j := order[..|order| - 1], order[|order| - 1];
      var s := StakesFor(jurors, j);
      ChargesAndWinnersSplit(jurors, rest, winner, who);
      BehindSplits(j, s, who);
      if Won(s, winner) {
        SumInConcat(Winners(jurors, rest, winner), Behind(j, s), who);
        assert Charges(jurors, order, winner) == Charges(jurors, rest, winner);
      } else {
        SumInConcat(Charges(jurors, rest, winner), Behind(j, s), who);
        assert Winners(jurors, order, winner) == Winners(jurors, rest, winner);
      }
    }
  }

  lemma {:induction false} InFirstConcat(jurors: Jurors, order: seq<AccountId>, who: set<AccountId>)
    requires forall j :: j in order ==> j in jurors
    ensures InFirst(jurors, order, who) == SumAt(InEach(jurors, who), order)
  {
    if |order| > 0 {
      var rest, j := order[..|order| - 1], order[|order| - 1];
      InFirstConcat(jurors, rest, who);
      assert order == rest + [j];
      SumAtPush(InEach(jurors, who), rest, j);
    }
  }

  lemma {:induction false} SumAtPush(m: map<AccountId, nat>, order: seq<AccountId>, j: AccountId)
    ensures SumAt(m, order + [j]) == SumAt(m, order) + GetOr(m, j)
  {
    if |order| > 0 {
      SumAtPush(m, order[1..], j);
      assert (order + [j])[1..] == order[1..] + [j];
    }
  }

  /** For any set of accounts: what is slashed as tardy, slashed as losing and risked as winning is together
      exactly what the draws of these accounts made slashable. */
  lemma EveryDrawIsChargedOnce(pot: AccountId, participants: map<AccountId, Participant>, free: Free,
                               draws: seq<Draw>, winner: VoteItem, who: set<AccountId>)
    requires DrawsOk(draws)
    ensures var jurors := HandleVotes(pot, Tally(participants, free, map[]), draws, |draws|).jurors;
            var order := SortedSeq(jurors.Keys);
            TardyIn(draws, |draws|, who) + SumIn(Charges(jurors, order, winner), who)
              + SumIn(Winners(jurors, order, winner), who)
            == SlashableIn(draws, |draws|, who)
  {
    VotesRecorded(pot, participants, free, draws, who);
    var jurors := HandleVotes(pot, Tally(participants, free, map[]), draws, |draws|).jurors;
    var order := SortedSeq(jurors.Keys);
    ChargesAndWinnersSplit(jurors, order, winner, who);
    InFirstConcat(jurors, order, who);
    assert InEach(jurors, who).Keys == jurors.Keys;
    MapSumInAnyOrder(InEach(jurors, who), order);
  }

  // ---------- what each account ends up with ----------

  predicate TardyPaid(free: Free, draws: seq<Draw>, a: AccountId, t: Tally, n: nat) {
    n <= |draws| && GetOr(t.free, a) == Minus(GetOr(free, a), TardyIn(draws, n, {a}))
  }

  lemma TardyStep(pot: AccountId, free: Free, draws: seq<Draw>, a: AccountId, t: Tally, n: nat)
    requires a != pot && n < |draws| && TardyPaid(free, draws, a, t, n)
    ensures TardyPaid(free, draws, a, HandleVote(pot, t, draws[n]), n + 1)
  {
    if draws[n].vote.Delegated? {
      assert HandleVote(pot, t, draws[n]).free == t.free;
    }
  }

  /** A tardy account pays its slashable amount, as far as it can; nobody else but the pot is touched. */
  lemma {:induction false} TardyPay(pot: AccountId, participants: map<AccountId, Participant>, free: Free,
                                    draws: seq<Draw>, n: nat, a: AccountId)
    requires a != pot && n <= |draws|
    ensures TardyPaid(free, draws, a, HandleVotes(pot, Tally(participants, free, map[]), draws, n), n)
  {
    if n > 0 {
      TardyPay(pot, participants, free, draws, n - 1, a);
      TardyStep(pot, free, draws, a, HandleVotes(pot, Tally(participants, free, map[]), draws, n - 1), n - 1);
    }
  }

  lemma {:induction false} CollectPays(p: Purse, charges: Stakes, n: nat, a: AccountId)
    requires n <= |charges|
    ensures GetOr(CollectFirst(p, charges, n).free, a) == Minus(GetOr(p.free, a), SumIn(charges[..n], {a}))
  {
    if n > 0 {
      CollectPays(p, charges, n - 1, a);
      assert charges[..n][..n - 1] == charges[..n - 1];
    }
  }

  lemma {:induction false} RewardOnlyAdds(p: Purse, winners: Stakes, n: nat, total: Balance, reward: Balance,
                                          share: (Balance, Balance, Balance) -> Balance, a: AccountId)
    requires n <= |winners|
    ensures GetOr(RewardFirst(p, winners, n, total, reward, share).free, a) >= GetOr(p.free, a)
  {
    if n > 0 {
      RewardOnlyAdds(p, winners, n - 1, total, reward, share, a);
    }
  }

  lemma SettlePays(cfg: Config, pot: AccountId, free: Free, charges: Stakes, winners: Stakes, a: AccountId)
    requires a != pot
    ensures GetOr(Settle(cfg, pot, free, charges, winners), a) >= Minus(GetOr(free, a), SumIn(charges, {a}))
    ensures a != cfg.treasury && (forall i :: 0 <= i < |winners| ==> winners[i].0 != a) ==>
              GetOr(Settle(cfg, pot, free, charges, winners), a) == Minus(GetOr(free, a), SumIn(charges, {a}))
  {
    CollectPays(Purse(free, 0), charges, |charges|, a);
    assert charges[..|charges|] == charges;
    var p := EmptyPot(CollectFirst(Purse(free, 0), charges, |charges|), pot);
    RewardOnlyAdds(p, winners, |winners|, SumStakes(winners), p.held, cfg.share, a);
    if forall i :: 0 <= i < |winners| ==> winners[i].0 != a {
      RewardLeavesOthers(p, winners, |winners|, SumStakes(winners), p.held, cfg.share, a);
    }
  }

  lemma {:induction false} SumInAbsent(s: Stakes, a: AccountId)
    requires forall i :: 0 <= i < |s| ==> s[i].0 != a
    ensures SumIn(s, {a}) == 0
  {
    if |s| > 0 {
      SumInAbsent(s[..|s| - 1], a);
    }
  }

  /** No account pays more than its draws made slashable, and one that is not among the winners pays exactly
      that, as far as it can. */
  lemma LosersPayTheirSlashable(cfg: Config, pot: AccountId, participants: map<AccountId, Participant>, free: Free,
                                draws: seq<Draw>, winner: VoteItem, a: AccountId)
    requires DrawsOk(draws) && a != pot
    ensures var jurors := HandleVotes(pot, Tally(participants, free, map[]), draws, |draws|).jurors;
            var winners := Winners(jurors, SortedSeq(jurors.Keys), winner);
            var free' := Reassign(cfg, pot, participants, free, draws, winner).1;
            && GetOr(free', a) >= Minus(GetOr(free, a), SlashableIn(draws, |draws|, {a}))
            && (a != cfg.treasury && (forall i :: 0 <= i < |winners| ==> winners[i].0 != a) ==>
                  GetOr(free', a) == Minus(GetOr(free, a), SlashableIn(draws, |draws|, {a})))
  {
    var t := HandleVotes(pot, Tally(participants, free, map[]), draws, |draws|);
    var order := SortedSeq(t.jurors.Keys);
    var charges, winners := Charges(t.jurors, order, winner), Winners(t.jurors, order, winner);
    TardyPay(pot, participants, free, draws, |draws|, a);
    EveryDrawIsChargedOnce(pot, participants, free, draws, winner, {a});
    SettlePays(cfg, pot, t.free, charges, winners, a);
    if forall i :: 0 <= i < |winners| ==> winners[i].0 != a {
      SumInAbsent(winners, a);
    }
  }

  // ---------- slashes that come up short ----------

  /** The k-th draw makes no slash of `a` that comes up short. */
  predicate TardyInFull(pot: AccountId, t: Tally, draws: seq<Draw>, k: nat, a: AccountId)
    requires k < |draws|
  {
    draws[k].who == a && Tardy(draws[k].vote) ==>
      Slashed(HandleVotes(pot, t, draws, k).free, a, draws[k].slashable) == draws[k].slashable
  }

  /** Neither does the k-th charge. */
  predicate ChargeInFull(p: Purse, charges: Stakes, k: nat, a: AccountId)
    requires k < |charges|
  {
    charges[k].0 == a ==> Slashed(CollectFirst(p, charges, k).free, a, charges[k].1) == charges[k].1
  }

  /** In full iff the earlier tardy slashes leave enough. */
  predicate Covers(free: Balance, draws: seq<Draw>, k: nat, a: AccountId)
    requires k < |draws|
  {
    draws[k].who == a && Tardy(draws[k].vote) ==> draws[k].slashable <= Minus(free, TardyIn(draws, k, {a}))
  }

  lemma TardyIsCovered(pot: AccountId, participants: map<AccountId, Participant>, free: Free, draws: seq<Draw>, k: nat,
                       a: AccountId)
    requires a != pot && k < |draws|
    ensures TardyInFull(pot, Tally(participants, free, map[]), draws, k, a) <==> Covers(GetOr(free, a), draws, k, a)
  {
    TardyPay(pot, participants, free, draws, k, a);
  }

  lemma {:induction false} AllCoveredIff(free: Balance, draws: seq<Draw>, n: nat, a: AccountId)
    requires n <= |draws|
    ensures (forall k :: 0 <= k < n ==> Covers(free, draws, k, a)) <==> TardyIn(draws, n, {a}) <= free
  {
    if n > 0 {
      AllCoveredIff(free, draws, n - 1, a);
      assert Covers(free, draws, n - 1, a) || TardyIn(draws, n, {a}) > free;
    }
  }

  lemma TardyInFullIff(pot: AccountId, participants: map<AccountId, Participant>, free: Free, draws: seq<Draw>,
                       a: AccountId)
    requires a != pot
    ensures (forall k :: 0 <= k < |draws| ==> TardyInFull(pot, Tally(participants, free, map[]), draws, k, a)) <==>
            TardyIn(draws, |draws|, {a}) <= GetOr(free, a)
  {
    forall k | 0 <= k < |draws|
      ensures TardyInFull(pot, Tally(participants, free, map[]), draws, k, a) <==> Covers(GetOr(free, a), draws, k, a)
    {
      TardyIsCovered(pot, participants, free, draws, k, a);
    }
    AllCoveredIff(GetOr(free, a), draws, |draws|, a);
  }

  lemma {:induction false} ChargesInFullIff(p: Purse, charges: Stakes, n: nat, a: AccountId)
    requires n <= |charges|
    ensures (forall k :: 0 <= k < n ==> ChargeInFull(p, charges, k, a)) <==>
            SumIn(charges[..n], {a}) <= GetOr(p.free, a)
  {
    if n > 0 {
      ChargesInFullIff(p, charges, n - 1, a);
      CollectPays(p, charges, n - 1, a);
      assert charges[..n][..n - 1] == charges[..n - 1];
      assert ChargeInFull(p, charges, n - 1, a) || SumIn(charges[..n], {a}) > GetOr(p.free, a);
    }
  }

  /** No slash of an account comes up short iff its balance covers its tardy and its losing charges together. */
  lemma SlashesAreFullIff(pot: AccountId, participants: map<AccountId, Participant>, free: Free, draws: seq<Draw>,
                          winner: VoteItem, a: AccountId)
    requires a != pot
    ensures var start := Tally(participants, free, map[]);
            var t := HandleVotes(pot, start, draws, |draws|);
            var charges := Charges(t.jurors, SortedSeq(t.jurors.Keys), winner);
            ((forall k :: 0 <= k < |draws| ==> TardyInFull(pot, start, draws, k, a)) &&
             (forall k :: 0 <= k < |charges| ==> ChargeInFull(Purse(t.free, 0), charges, k, a))) <==>
            TardyIn(draws, |draws|, {a}) + SumIn(charges, {a}) <= GetOr(free, a)
  {
    var t := HandleVotes(pot, Tally(participants, free, map[]), draws, |draws|);
    var charges := Charges(t.jurors, SortedSeq(t.jurors.Keys), winner);
    TardyInFullIff(pot, participants, free, draws, a);
    TardyPay(pot, participants, free, draws, |draws|, a);
    ChargesInFullIff(Purse(t.free, 0), charges, |charges|, a);
    assert charges[..|charges|] == charges;
  }

  // ---------- what winners get ----------

  /** The rounded shares of the first `n` winners. */
  function AllShares(winners: Stakes, n: nat, total: Balance, reward: Balance,
                     share: (Balance, Balance, Balance) -> Balance): nat
    requires n <= |winners|
  {
    if n == 0 then 0 else AllShares(winners, n - 1, total, reward, share) + share(winners[n - 1].1, total, reward)
  }

  /** What the first `n` entries pay to one account out of `held`: each gets its share as far as the shares before it
      leave something. */
  function PaidTo(winners: Stakes, n: nat, total: Balance, reward: Balance,
                  share: (Balance, Balance, Balance) -> Balance,
                  held: Balance, a: AccountId): nat
    requires n <= |winners|
  {
    if n == 0 then 0 else
      PaidTo(winners, n - 1, total, reward, share, held, a) +
      if winners[n - 1].0 != a then 0
      else Min(share(winners[n - 1].1, total, reward), Minus(held, AllShares(winners, n - 1, total, reward, share)))
  }

  /** The shares of one account. */
  function SharesOf(winners: Stakes, n: nat, total: Balance, reward: Balance,
                    share: (Balance, Balance, Balance) -> Balance,
                    a: AccountId): nat
    requires n <= |winners|
  {
    if n == 0 then 0 else
      SharesOf(winners, n - 1, total, reward, share, a) +
      if winners[n - 1].0 == a then share(winners[n - 1].1, total, reward) else 0
  }

  /** Shares that fit are paid in full. */
  lemma {:induction false} FittingSharesArePaid(winners: Stakes, n: nat, total: Balance, reward: Balance,
                                                share: (Balance, Balance, Balance) -> Balance, held: Balance,
                                                a: AccountId)
    requires n <= |winners| && AllShares(winners, n, total, reward, share) <= held
    ensures PaidTo(winners, n, total, reward, share, held, a) == SharesOf(winners, n, total, reward, share, a)
  {
    if n > 0 {
      FittingSharesArePaid(winners, n - 1, total, reward, share, held, a);
    }
  }

  /** Each winner gets its share, or what the shares before it leave of the incentives; the rest is kept. */
  lemma {:induction false} RewardPaysShares(p: Purse, winners: Stakes, n: nat, total: Balance, reward: Balance,
                                            share: (Balance, Balance, Balance) -> Balance, a: AccountId)
    requires n <= |winners|
    ensures var q := RewardFirst(p, winners, n, total, reward, share);
            && q.held == Minus(p.held, AllShares(winners, n, total, reward, share))
            && GetOr(q.free, a) == GetOr(p.free, a) + PaidTo(winners, n, total, reward, share, p.held, a)
  {
    if n > 0 {
      RewardPaysShares(p, winners, n - 1, total, reward, share, a);
    }
  }

  /** What the losers' charges and the pot bring in. */
  function Incentives(pot: AccountId, free: Free, charges: Stakes): Purse {
    EmptyPot(CollectFirst(Purse(free, 0), charges, |charges|), pot)
  }

  lemma SettleRewards(cfg: Config, pot: AccountId, free: Free, charges: Stakes, winners: Stakes, a: AccountId)
    requires a != pot
    ensures var reward, total := Incentives(pot, free, charges).held, SumStakes(winners);
            GetOr(Settle(cfg, pot, free, charges, winners), a) ==
            Minus(GetOr(free, a), SumIn(charges, {a}))
            + PaidTo(winners, |winners|, total, reward, cfg.share, reward, a)
            + (if a == cfg.treasury then Minus(reward, AllShares(winners, |winners|, total, reward, cfg.share)) else 0)
  {
    CollectPays(Purse(free, 0), charges, |charges|, a);
    assert charges[..|charges|] == charges;
    var p := Incentives(pot, free, charges);
    RewardPaysShares(p, winners, |winners|, SumStakes(winners), p.held, cfg.share, a);
  }

  /** Every account but the pot ends up with what it had, less its tardy and losing charges, plus what its winning
      entries are paid; what all shares leave of the incentives goes to the treasury. */
  lemma WinnersGetTheirShares(cfg: Config, pot: AccountId, participants: map<AccountId, Participant>, free: Free,
                              draws: seq<Draw>, winner: VoteItem, a: AccountId)
    requires a != pot
    ensures var t := HandleVotes(pot, Tally(participants, free, map[]), draws, |draws|);
            var order := SortedSeq(t.jurors.Keys);
            var charges, winners := Charges(t.jurors, order, winner), Winners(t.jurors, order, winner);
            var reward, total := Incentives(pot, t.free, charges).held, SumStakes(winners);
            GetOr(Reassign(cfg, pot, participants, free, draws, winner).1, a) ==
            Minus(Minus(GetOr(free, a), TardyIn(draws, |draws|, {a})), SumIn(charges, {a}))
            + PaidTo(winners, |winners|, total, reward, cfg.share, reward, a)
            + (if a == cfg.treasury then Minus(reward, AllShares(winners, |winners|, total, reward, cfg.share)) else 0)
  {
    var t := HandleVotes(pot, Tally(participants, free, map[]), draws, |draws|);
    var order := SortedSeq(t.jurors.Keys);
    TardyPay(pot, participants, free, draws, |draws|, a);
    SettleRewards(cfg, pot, t.free, Charges(t.jurors, order, winner), Winners(t.jurors, order, winner), a);
  }
}
