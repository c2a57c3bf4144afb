/** The court pallet with its storage items as fields; every call is proved against the state machine. */
module CourtPallet {
  import opened Collections
  import opened AutoResolve
  import opened SortedSearch
  import opened CourtTypes
  import opened JurorPool
  import opened Selection
  import opened DrawTheorem
  import opened Reassignment
  import opened CourtSafety
  import opened CourtLoops
  import opened CourtFrames
  import opened CourtVotes
  import M = CourtMachine
  import Verdict
  import Inflation

  /** The call did what the specification says: the new state on success, no trace on an error. */
  ghost predicate Did(spec: Result<M.Store>, before: M.Store, e: Option<CourtError>, after: M.Store) {
    match spec
    case Ok(s) => e.None? && after == s
    case Err(x) => e == Some(x) && after == before
  }

  /** Errors behind branches that the code expects never to take. */
  predicate Unexpected(e: Option<CourtError>) {
    e.Some? && e.value in {CourtParticipantTwiceInPool, MaxCourtParticipantsReached, Underflow, InflationPeriodIsZero,
                           IndexOutOfRange}
  }

  /** A successful join or delegation, or one of the errors a caller can cause. */
  lemma JoinErrorsAreExpected(s: M.Store, who: AccountId, amount: Balance, delegations: Option<seq<AccountId>>)
    requires StoreOk(s)
    ensures var r := DoJoinCourt(s.cfg, s.reg, who, amount, delegations, GetOr(s.free, who), s.now);
            r.Err? ==> !Unexpected(Some(r.error))
  {
    JoinNeverHitsUnreachableBranches(s.cfg, s.reg, who, amount, delegations, GetOr(s.free, who), s.now);
  }

  lemma DelegateErrorsAreExpected(s: M.Store, who: AccountId, amount: Balance, delegations: seq<AccountId>)
    requires StoreOk(s)
    ensures var r := M.Delegate(s, who, amount, delegations);
            r.Err? ==> !Unexpected(Some(r.error))
  {
    DelegateNeverHitsUnreachableBranches(s.cfg, s.reg, who, amount, delegations, GetOr(s.free, who), s.now);
  }

  /** The juror is drawn with this vote. */
  predicate DrawnWith(s: M.Store, c: CourtId, who: AccountId, v: Vote) {
    c in s.draws && exists i :: 0 <= i < |s.draws[c]| && s.draws[c][i].who == who && s.draws[c][i].vote == v
  }

  /** The juror is drawn and has opened nothing yet. */
  predicate MayCast(s: M.Store, who: AccountId, c: CourtId) {
    && c in s.courts && M.InVotePeriod(s.courts[c].roundEnds, s.now)
    && c in s.draws
    && exists i :: 0 <= i < |s.draws[c]| && s.draws[c][i].who == who &&
                   (s.draws[c][i].vote.Drawn? || s.draws[c][i].vote.Secret?)
  }

  lemma CastSucceedsIff(s: M.Store, who: AccountId, c: CourtId, commitment: Digest)
    requires StoreOk(s)
    ensures M.CastVote(s, who, c, commitment).Ok? <==> MayCast(s, who, c)
  {
    if MayCast(s, who, c) {
      var i :| 0 <= i < |s.draws[c]| && s.draws[c][i].who == who &&
               (s.draws[c][i].vote.Drawn? || s.draws[c][i].vote.Secret?);
      DrawnJurorCanCast(s, c, i, commitment);
    } else if M.CastVote(s, who, c, commitment).Ok? {
      CastFrame(s, who, c, commitment);
    }
  }

  lemma RevealSucceedsIff(s: M.Store, who: AccountId, c: CourtId, item: VoteItem, salt: Digest)
    requires StoreOk(s)
    ensures M.RevealVote(s, who, c, item, salt).Ok? <==>
            MayReveal(s, who, c, item) && DrawnWith(s, c, who, Secret(s.cfg.hash(who, item, salt)))
  {
    if MayReveal(s, who, c, item) && DrawnWith(s, c, who, Secret(s.cfg.hash(who, item, salt))) {
      var i :| 0 <= i < |s.draws[c]| && s.draws[c][i].who == who &&
               s.draws[c][i].vote == Secret(s.cfg.hash(who, item, salt));
      RevealOfSecret(s, c, i, who, s.cfg.hash(who, item, salt), item, salt);
    } else if M.RevealVote(s, who, c, item, salt).Ok? {
      RevealFrame(s, who, c, item, salt);
    }
  }

  predicate MayDenounce(s: M.Store, denouncer: AccountId, c: CourtId, juror: AccountId, item: VoteItem) {
    && M.CheckMarketItem(s, c, item).None? && denouncer != juror && juror in s.reg.participants
    && c in s.courts && M.CheckVoteItem(s.courts[c], item).None? && M.InVotePeriod(s.courts[c].roundEnds, s.now)
  }

  lemma DenounceSucceedsIff(s: M.Store, denouncer: AccountId, c: CourtId, juror: AccountId, item: VoteItem,
                            salt: Digest)
    requires StoreOk(s)
    ensures M.DenounceVote(s, denouncer, c, juror, item, salt).Ok? <==>
            MayDenounce(s, denouncer, c, juror, item) && DrawnWith(s, c, juror, Secret(s.cfg.hash(juror, item, salt)))
  {
    if MayDenounce(s, denouncer, c, juror, item) && DrawnWith(s, c, juror, Secret(s.cfg.hash(juror, item, salt))) {
      var i :| 0 <= i < |s.draws[c]| && s.draws[c][i].who == juror &&
               s.draws[c][i].vote == Secret(s.cfg.hash(juror, item, salt));
      EveryDrawIsFound(s.draws[c], i);
    } else if M.DenounceVote(s, denouncer, c, juror, item, salt).Ok? {
      DenounceFrame(s, denouncer, c, juror, item, salt);
    }
  }

  /** Fresh draws: one minimum stake at risk per weight, no more than asked for, within the bound. */
  predicate FreshDraws(cfg: Config, draws: seq<Draw>, weight: nat) {
    && Fresh(draws) && |draws| <= cfg.maxSelectedDraws
    && SumWeights(draws) <= weight && SumSlashable(draws) == cfg.minJurorStake * SumWeights(draws)
  }

  lemma ChoiceIsFresh(cfg: Config, reg: Registry, weight: nat, c: Choice)
    requires ChoiceOk(cfg, reg, weight, c) && |c.draws| <= cfg.maxSelectedDraws
    ensures FreshDraws(cfg, c.draws, weight)
  {
    assert SumWeights(c.draws) == weight - c.lost;
  }

  lemma SelectedDrawsAreFresh(s: M.Store, appeals: nat, rng: Rng)
    requires StoreOk(s) && appeals < s.cfg.maxAppeals && M.SelectParticipants(s.cfg, s.reg, appeals, rng).Ok?
    ensures FreshDraws(s.cfg, M.SelectParticipants(s.cfg, s.reg, appeals, rng).value.draws,
                       NecessaryDrawsWeight(appeals))
  {
    NothingIsTruncated(s.cfg, s.reg, appeals, rng);
    ChoiceIsFresh(s.cfg, s.reg, NecessaryDrawsWeight(appeals), M.SelectParticipants(s.cfg, s.reg, appeals, rng).value);
  }

  /** After a reassignment no account but the pot has lost more than its draws put at risk, and nothing was created. */
  lemma ReassignmentIsFair(s: M.Store, c: CourtId, a: AccountId)
    requires StoreOk(s) && M.ReassignCourtStakes(s, c).Ok? && a != s.cfg.rewardPot(c)
    ensures var s', draws := M.ReassignCourtStakes(s, c).value, M.DrawsOf(s, c);
            && MapSum(s'.free) == MapSum(s.free)
            && GetOr(s'.free, a) >= Minus(GetOr(s.free, a), SlashableIn(draws, |draws|, {a}))
  {
    var draws, winner := M.DrawsOf(s, c), s.courts[c].status.winner;
    ReassignConserves(s.cfg, s.cfg.rewardPot(c), s.reg.participants, s.free, draws, winner);
    LosersPayTheirSlashable(s.cfg, s.cfg.rewardPot(c), s.reg.participants, s.free, draws, winner, a);
  }

  lemma DidIsSafe(before: M.Store, step: M.Step, e: Option<CourtError>, after: M.Store)
    requires StoreOk(before) && Did(M.Try(before, step), before, e, after)
    ensures StoreOk(after)
  {
    StepKeepsStore(before, step);
  }

  /** What an account keeps when it exits: the stake its active lock holds, mirrored by the currency lock. */
  predicate KeepsLockedStake(was: map<AccountId, Participant>, participants: map<AccountId, Participant>,
                             locks: map<AccountId, Balance>, who: AccountId) {
    && who in was && GetOr(locks, who) == StakeOf(participants, who) == was[who].activeLock
    && (who in participants <==> was[who].activeLock > 0)
  }

  lemma ExitKeepsLockedStake(s: M.Store, who: AccountId)
    requires StoreOk(s) && M.ExitCourt(s, who).Ok?
    ensures var reg := M.ExitCourt(s, who).value.reg;
            KeepsLockedStake(s.reg.participants, reg.participants, reg.locks, who)
  {}

  /** Every active lock has shrunk by what the draws put at risk, as far as it goes. */
  ghost predicate Released(was: map<AccountId, Participant>, participants: map<AccountId, Participant>,
                           draws: seq<Draw>) {
    && participants.Keys == was.Keys
    && forall a :: Lock(participants, a) == Minus(Lock(was, a), SlashableOf(draws, a))
  }

  /** The market's court is closed on its verdict. */
  ghost predicate ResolvedOn(s: M.Store, m: MarketId, courts: map<CourtId, Court>) {
    && m in s.courtOf && s.courtOf[m] in s.courts && s.courtOf[m] in s.marketOf && s.marketOf[s.courtOf[m]] in s.markets
    && var c, record := s.courtOf[m], s.markets[s.marketOf[s.courtOf[m]]];
    && c in courts && courts[c].status.Closed? && record.report.Some?
    && M.IsVerdict(M.DrawsOf(s, c), s.courts[c].appeals, record.report.value, courts[c].status.winner)
  }

  lemma UnlockReleases(reg: Registry, draws: seq<Draw>)
    ensures Released(reg.participants, M.UnlockAll(reg, draws).participants, draws)
  {
    UnlockAllReleases(reg, draws, 0);
    forall a ensures Lock(M.UnlockAll(reg, draws).participants, a) ==
                     Minus(Lock(reg.participants, a), SlashableOf(draws, a))
    {
      UnlockAllReleases(reg, draws, a);
    }
  }

  lemma SettledBondConserves(b: M.Bonds, appeal: Appeal, resolved: OutcomeReport)
    ensures var r := M.SettleBond(b, appeal, resolved);
            MapSum(r.free) + MapSum(r.reserved) + r.taken == MapSum(b.free) + MapSum(b.reserved) + b.taken
  {
    var held := Min(GetOr(b.reserved, appeal.backer), appeal.bond);
    MapSumUpdate(b.reserved, appeal.backer, GetOr(b.reserved, appeal.backer) - held);
    DepositAdds(b.free, appeal.backer, held);
  }

  /** Settling bonds moves or takes, but loses nothing. */
  lemma {:induction false} SettledBondsConserve(b: M.Bonds, appeals: seq<Appeal>, n: nat, resolved: OutcomeReport)
    requires n <= |appeals| && M.SettleBonds(b, appeals, n, resolved).Ok?
    ensures var r := M.SettleBonds(b, appeals, n, resolved).value;
            MapSum(r.free) + MapSum(r.reserved) + r.taken == MapSum(b.free) + MapSum(b.reserved) + b.taken
  {
    if n > 0 {
      SettledBondsConserve(b, appeals, n - 1, resolved);
      SettledBondConserves(M.SettleBonds(b, appeals, n - 1, resolved).value, appeals[n - 1], resolved);
    }
  }

  lemma ExchangeConserves(s: M.Store, m: MarketId, resolved: OutcomeReport)
    requires M.ExchangeBonds(s, m, resolved).Ok?
    ensures var b := M.ExchangeBonds(s, m, resolved).value;
            MapSum(b.free) + MapSum(b.reserved) + b.taken == MapSum(s.free) + MapSum(s.reserved)
  {
    var appeals := s.courts[s.courtOf[m]].appeals;
    SettledBondsConserve(M.Bonds(s.free, s.reserved, 0), appeals, |appeals|, resolved);
  }

  lemma AppealIsSafe(before: M.Store, step: M.Step, e: Option<CourtError>, after: M.Store)
    requires StoreOk(before) && step.AppealTo?
    requires Did(M.AppealCourt(before, step.who, step.court, step.rng), before, e, after)
    ensures StoreOk(after)
  {
    match step
    case AppealTo(who, c, rng) => DidIsSafe(before, step, e, after);
  }

  lemma DisputeIsSafe(before: M.Store, step: M.Step, e: Option<CourtError>, after: M.Store)
    requires StoreOk(before) && step.Dispute?
    requires Did(M.OnDispute(before, step.market, step.rng), before, e, after)
    ensures StoreOk(after)
  {
    match step
    case Dispute(m, rng) => DidIsSafe(before, step, e, after);
  }

  /** An appeal that starts a round leaves fresh draws. */
  lemma AppealLeavesFreshDraws(s: M.Store, who: AccountId, c: CourtId, rng: Rng)
    requires StoreOk(s) && M.AppealCourt(s, who, c, rng).Ok? && |s.courts[c].appeals| + 1 < s.cfg.maxAppeals
    ensures var draws := M.AppealCourt(s, who, c, rng).value.draws;
            c in draws && FreshDraws(s.cfg, draws[c], NecessaryDrawsWeight(|s.courts[c].appeals| + 1))
  {
    AppealDraws(s, who, c, rng);
    SelectedDrawsAreFresh(s, |s.courts[c].appeals| + 1, rng);
  }

  class Pallet {
    const cfg: Config
    var now: Block
    var requestBlock: Block
    var pool: seq<PoolItem>
    var participants: map<AccountId, Participant>
    var locks: map<AccountId, Balance>
    var courts: map<CourtId, Court>
    var draws: map<CourtId, seq<Draw>>
    var nextCourtId: CourtId
    var courtOf: map<MarketId, CourtId>
    var marketOf: map<CourtId, MarketId>
    var schedule: Schedule
    var free: Free
    var reserved: Free
    var markets: map<MarketId, Market>
    var issuance: Balance
    var inflation: nat

    function Reg(): Registry
      reads this
    {
      Registry(pool, participants, locks)
    }

    function View(): M.Store
      reads this
    {
      M.Store(cfg, now, requestBlock, Reg(), courts, draws, nextCourtId, courtOf, marketOf, schedule, free, reserved,
              markets, issuance, inflation)
    }

    ghost predicate Valid()
      reads this
    {
      StoreOk(View())
    }

    /** The court of a market; 0 if it has none. */
    ghost function CourtOf(m: MarketId): CourtId
      reads this
    {
      if m in courtOf then courtOf[m] else 0
    }

    constructor (cfg: Config, free: Free, markets: map<MarketId, Market>, issuance: Balance)
      requires cfg.Sound()
      ensures Valid() && View() == M.Genesis(cfg, free, markets, issuance)
    {
      this.cfg := cfg;
      now, requestBlock := 0, 0;
      pool, participants, locks := [], map[], map[];
      courts, draws, nextCourtId, courtOf, marketOf, schedule := map[], map[], 0, map[], map[], map[];
      this.free, reserved, this.markets, this.issuance, inflation := free, map[], markets, issuance, 0;
      new;
      OnInitialize();
      GenesisIsSafe(cfg, free, markets, issuance);
    }

    // ---------- blocks ----------

    method OnInitialize()
      requires Valid()
      modifies this
      ensures Valid()
      ensures View() == M.OnInitialize(old(View()))
      ensures issuance - old(issuance) == MapSum(free) - old(MapSum(free)) >= 0
    {
      Inflation.InflationIsBounded(cfg, pool, free, issuance, inflation, now + 1);
      Initialize();
      DidIsSafe(old(View()), M.NextBlock, None, View());
    }

    method Initialize()
      modifies this
      ensures View() == M.OnInitialize(old(View()))
    {
      var block := now + 1;
      var free', issuance' := ComputeInflation(cfg, pool, free, issuance, inflation, block);
      var due := requestBlock;
      if block >= due {
        due := block + cfg.requestInterval;
      }
      now, free, issuance, requestBlock := block, free', issuance', due;
    }

    method SetRegistry(reg: Registry)
      modifies this`pool, this`participants, this`locks
      ensures Reg() == reg
    {
      pool, participants, locks := reg.pool, reg.participants, reg.locks;
    }

    // ---------- joining and leaving ----------

    /** Take the caller's own item, or the weakest one of a full pool, out of a copy of the pool. */
    method MakeRoom(who: AccountId, amount: Balance) returns (r: Result<Vacated>)
      ensures r == Vacate(cfg, Reg(), who, amount)
    {
      var consumed := 0;
      if who in participants {
        var p := participants[who];
        if amount < p.stake {
          return Err(AmountBelowLastJoin);
        }
        var found := GetPoolItem(pool, p.stake, who);
        if found.Some? {
          var item := pool[found.value];
          return Ok(Vacated(RemoveAt(pool, found.value), item.consumed, Some(item)));
        }
        consumed := p.activeLock;
      }
      var rest := pool;
      if |pool| >= cfg.maxCourtParticipants {
        var lowest := if |pool| > 0 then pool[0].stake else 0;
        if amount <= lowest {
          return Err(AmountBelowLowestJuror);
        }
        if |pool| == 0 {
          return Err(IndexOutOfRange);
        }
        rest := pool[1..];
      }
      r := Ok(Vacated(rest, consumed, None));
    }

    method DoJoin(who: AccountId, amount: Balance, delegations: Option<seq<AccountId>>) returns (e: Option<CourtError>)
      modifies this
      ensures Did(M.WithRegistry(old(View()), DoJoinCourt(cfg, old(Reg()), who, amount, delegations,
                                                          old(GetOr(free, who)), old(now))),
                  old(View()), e, View())
    {
      if amount < cfg.minJurorStake {
        return Some(BelowMinJurorStake);
      }
      if amount > GetOr(free, who) {
        return Some(AmountExceedsBalance);
      }
      var room := MakeRoom(who, amount);
      if room.Err? {
        return Some(room.error);
      }
      var made := NewItem(cfg, room.value, who, amount, now);
      if made.Err? {
        return Some(made.error);
      }
      e := Enter(room.value.pool, made.value, delegations);
    }

    /** Insert the new item where the search places it and record the participant. */
    method Enter(rest: seq<PoolItem>, item: PoolItem, delegations: Option<seq<AccountId>>)
      returns (e: Option<CourtError>)
      modifies this
      ensures Did(M.WithRegistry(old(View()), Admit(cfg, old(Reg()), rest, item, delegations)), old(View()), e, View())
    {
      var place := Search(Keys(rest), KeyOf(item));
      if place.Found? {
        return Some(CourtParticipantTwiceInPool);
      }
      if |rest| >= cfg.maxCourtParticipants {
        return Some(MaxCourtParticipantsReached);
      }
      var activeLock := if item.who in participants then participants[item.who].activeLock else 0;
      locks := locks[item.who := item.stake];
      pool := InsertAt(rest, place.at, item);
      participants := participants[item.who := Participant(item.stake, activeLock, None, delegations)];
      e := None;
    }

    method JoinCourt(who: AccountId, amount: Balance) returns (e: Option<CourtError>)
      requires Valid()
      modifies this
      ensures Valid()
      ensures Did(M.JoinCourt(old(View()), who, amount), old(View()), e, View())
      ensures !Unexpected(e)
    {
      JoinErrorsAreExpected(View(), who, amount, None);
      e := DoJoin(who, amount, None);
      DidIsSafe(old(View()), M.Join(who, amount), e, View());
    }

    method Delegate(who: AccountId, amount: Balance, delegations: seq<AccountId>) returns (e: Option<CourtError>)
      requires Valid()
      modifies this
      ensures Valid()
      ensures Did(M.Delegate(old(View()), who, amount, delegations), old(View()), e, View())
      ensures !Unexpected(e)
    {
      DelegateErrorsAreExpected(View(), who, amount, delegations);
      e := TryDelegate(who, amount, delegations);
      DidIsSafe(old(View()), M.JoinAsDelegator(who, amount, delegations), e, View());
    }

    method TryDelegate(who: AccountId, amount: Balance, delegations: seq<AccountId>) returns (e: Option<CourtError>)
      modifies this
      ensures Did(M.Delegate(old(View()), who, amount, delegations), old(View()), e, View())
    {
      if |delegations| == 0 {
        return Some(NoDelegations);
      }
      if |delegations| > cfg.maxDelegations {
        return Some(MaxDelegationsReached);
      }
      if exists j :: j in delegations && !ValidDelegate(Reg(), j) {
        return Some(DelegatedToInvalidJuror);
      }
      var sorted := SortedSeq(Elements(delegations));
      if |sorted| < |delegations| {
        return Some(IdenticalDelegationsNotAllowed);
      }
      if who in sorted {
        return Some(SelfDelegationNotAllowed);
      }
      e := DoJoin(who, amount, Some(sorted));
    }

    method LeavePool(who: AccountId) returns (e: Option<CourtError>)
      modifies this
      ensures Did(M.PrepareExitCourt(old(View()), who), old(View()), e, View())
    {
      if who !in participants {
        return Some(JurorDoesNotExist);
      }
      var p := participants[who];
      if p.prepareExitAt.Some? {
        return Some(AlreadyPreparedExit);
      }
      var found := GetPoolItem(pool, p.stake, who);
      if found.Some? {
        pool := RemoveAt(pool, found.value);
      }
      participants := participants[who := p.(prepareExitAt := Some(now))];
      e := None;
    }

    method PrepareExitCourt(who: AccountId) returns (e: Option<CourtError>)
      requires Valid()
      modifies this
      ensures Valid()
      ensures Did(M.PrepareExitCourt(old(View()), who), old(View()), e, View())
      ensures e.None? ==> !InPool(pool, who)
    {
      if M.PrepareExitCourt(View(), who).Ok? {
        PrepareExitKeepsRegistry(cfg, Reg(), who, now);
      }
      e := LeavePool(who);
      DidIsSafe(old(View()), M.PrepareExit(who), e, View());
    }

    method ReleaseStake(who: AccountId) returns (e: Option<CourtError>)
      modifies this
      ensures Did(M.ExitCourt(old(View()), who), old(View()), e, View())
    {
      if who !in participants {
        return Some(JurorDoesNotExist);
      }
      var p := participants[who];
      if p.prepareExitAt.None? {
        return Some(PrepareExitAtNotPresent);
      }
      if Minus(now, p.prepareExitAt.value) < cfg.inflationPeriod {
        return Some(PrematureExit);
      }
      if p.activeLock == 0 {
        locks := locks[who := 0];
        participants := participants - {who};
      } else {
        locks := locks[who := p.activeLock];
        participants := participants[who := p.(stake := p.activeLock)];
      }
      e := None;
    }

    method ExitCourt(who: AccountId) returns (e: Option<CourtError>)
      requires Valid()
      modifies this
      ensures Valid()
      ensures Did(M.ExitCourt(old(View()), who), old(View()), e, View())
      ensures e.None? ==> KeepsLockedStake(old(participants), participants, locks, who)
    {
      e := ReleaseStake(who);
      if e.None? {
        ExitKeepsLockedStake(old(View()), who);
      }
      DidIsSafe(old(View()), M.Exit(who), e, View());
    }

    // ---------- voting ----------

    method CastVote(who: AccountId, c: CourtId, commitment: Digest) returns (e: Option<CourtError>)
      requires Valid()
      modifies this
      ensures Valid()
      ensures Did(M.CastVote(old(View()), who, c, commitment), old(View()), e, View())
      ensures e.None? <==> MayCast(old(View()), who, c)
    {
      CastSucceedsIff(View(), who, c, commitment);
      e := TryCast(who, c, commitment);
      DidIsSafe(old(View()), M.Cast(who, c, commitment), e, View());
    }

    method TryCast(who: AccountId, c: CourtId, commitment: Digest) returns (e: Option<CourtError>)
      modifies this
      ensures Did(M.CastVote(old(View()), who, c, commitment), old(View()), e, View())
    {
      if c !in courts {
        return Some(CourtNotFound);
      }
      if !M.InVotePeriod(courts[c].roundEnds, now) {
        return Some(NotInVotingPeriod);
      }
      var list := M.DrawsOf(View(), c);
      var found := M.FindDraw(list, who);
      if found.None? {
        return Some(CallerNotInSelectedDraws);
      }
      var draw := list[found.value];
      if !(draw.vote.Drawn? || draw.vote.Secret?) {
        return Some(InvalidVoteState);
      }
      draws := draws[c := list[found.value := draw.(vote := Secret(commitment))]];
      e := None;
    }

    method DenounceVote(denouncer: AccountId, c: CourtId, juror: AccountId, item: VoteItem, salt: Digest)
      returns (e: Option<CourtError>)
      requires Valid()
      modifies this
      ensures Valid()
      ensures Did(M.DenounceVote(old(View()), denouncer, c, juror, item, salt), old(View()), e, View())
      ensures e.None? <==>
              MayDenounce(old(View()), denouncer, c, juror, item)
                && DrawnWith(old(View()), c, juror, Secret(cfg.hash(juror, item, salt)))
    {
      DenounceSucceedsIff(View(), denouncer, c, juror, item, salt);
      e := TryDenounce(denouncer, c, juror, item, salt);
      DidIsSafe(old(View()), M.Denounce(denouncer, c, juror, item, salt), e, View());
    }

    method TryDenounce(denouncer: AccountId, c: CourtId, juror: AccountId, item: VoteItem, salt: Digest)
      returns (e: Option<CourtError>)
      modifies this
      ensures Did(M.DenounceVote(old(View()), denouncer, c, juror, item, salt), old(View()), e, View())
    {
      var bad := M.CheckMarketItem(View(), c, item);
      if bad.Some? {
        return bad;
      }
      if denouncer == juror {
        return Some(CallerDenouncedItself);
      }
      if juror !in participants {
        return Some(JurorDoesNotExist);
      }
      if c !in courts {
        return Some(CourtNotFound);
      }
      bad := M.CheckVoteItem(courts[c], item);
      if bad.Some? {
        return bad;
      }
      if !M.InVotePeriod(courts[c].roundEnds, now) {
        return Some(NotInVotingPeriod);
      }
      var list := M.DrawsOf(View(), c);
      var found := M.FindDraw(list, juror);
      if found.None? {
        return Some(JurorNotDrawn);
      }
      var draw := list[found.value];
      var unsealed := M.HashedCommitment(cfg, draw.vote, juror, item, salt);
      if unsealed.Err? {
        return Some(unsealed.error);
      }
      draws := draws[c := list[found.value := draw.(vote := Denounced(unsealed.value, item, salt))]];
      e := None;
    }

    method RevealVote(who: AccountId, c: CourtId, item: VoteItem, salt: Digest) returns (e: Option<CourtError>)
      requires Valid()
      modifies this
      ensures Valid()
      ensures Did(M.RevealVote(old(View()), who, c, item, salt), old(View()), e, View())
      ensures e.None? <==>
              MayReveal(old(View()), who, c, item) && DrawnWith(old(View()), c, who, Secret(cfg.hash(who, item, salt)))
    {
      RevealSucceedsIff(View(), who, c, item, salt);
      e := TryReveal(who, c, item, salt);
      DidIsSafe(old(View()), M.Reveal(who, c, item, salt), e, View());
    }

    method TryReveal(who: AccountId, c: CourtId, item: VoteItem, salt: Digest) returns (e: Option<CourtError>)
      modifies this
      ensures Did(M.RevealVote(old(View()), who, c, item, salt), old(View()), e, View())
    {
      var bad := M.CheckMarketItem(View(), c, item);
      if bad.Some? {
        return bad;
      }
      if who !in participants {
        return Some(CallerIsNotACourtParticipant);
      }
      if c !in courts {
        return Some(CourtNotFound);
      }
      bad := M.CheckVoteItem(courts[c], item);
      if bad.Some? {
        return bad;
      }
      if !M.InAggregationPeriod(courts[c].roundEnds, now) {
        return Some(NotInAggregationPeriod);
      }
      var list := M.DrawsOf(View(), c);
      var found := M.FindDraw(list, who);
      if found.None? {
        return Some(CallerNotInSelectedDraws);
      }
      var draw := list[found.value];
      var unsealed := M.HashedCommitment(cfg, draw.vote, who, item, salt);
      if unsealed.Err? {
        return Some(unsealed.error);
      }
      draws := draws[c := list[found.value := draw.(vote := Revealed(unsealed.value, item, salt))]];
      e := None;
    }

    // ---------- rounds ----------

    method LatestWinner(c: CourtId, list: seq<Draw>) returns (r: Result<VoteItem>)
      ensures r == M.LatestWinner(View(), c, list)
    {
      if c !in courts {
        return Err(CourtNotFound);
      }
      if c !in marketOf {
        return Err(CourtIdToMarketIdNotFound);
      }
      if marketOf[c] !in markets {
        return Err(MarketNotFound);
      }
      var report := markets[marketOf[c]].report;
      if report.None? {
        return Err(MarketReportNotFound);
      }
      var winner := Verdict.ComputeWinner(list, M.LastWinner(courts[c]));
      r := Ok(if winner.Some? then winner.value else Outcome(report.value));
    }

    method SelectParticipants(appeals: nat, rng: Rng) returns (r: Result<Choice>)
      requires cfg.minJurorStake > 0
      ensures r == M.SelectParticipants(cfg, Reg(), appeals, rng)
    {
      r := ComputeChoice(cfg, Reg(), NecessaryDrawsWeight(appeals), rng);
      if r.Ok? && |r.value.draws| > cfg.maxSelectedDraws {
        r := Ok(r.value.(draws := r.value.draws[..cfg.maxSelectedDraws]));
      }
    }

    method CheckAppeal(who: AccountId, c: CourtId) returns (e: Option<CourtError>)
      ensures e == M.CheckAppeal(View(), who, c)
    {
      if c !in courts {
        return Some(CourtNotFound);
      }
      var court := courts[c];
      if |court.appeals| + 1 > cfg.maxAppeals {
        return Some(MaxAppealsReached);
      }
      if !M.CanReserve(View(), who, M.AppealBondFor(cfg, |court.appeals| + 1)) {
        return Some(AppealBondExceedsBalance);
      }
      e := M.CheckAppealable(View(), c, court);
      if e.Some? {
        return;
      }
      var winner := LatestWinner(c, M.DrawsOf(View(), c));
      e := if winner.Err? then Some(winner.error) else None;
    }

    /** Write fresh draws and locks, release the old ones, and move the court to its next round. */
    method WriteRound(c: CourtId, court: Court, choice: Choice, schedule': Schedule)
      modifies this
      ensures View() == M.RoundStarted(old(View()), c, court, choice, schedule')
    {
      var unlocked := ComputeUnlocked(choice.reg.participants, M.DrawsOf(View(), c));
      SetRegistry(choice.reg.(participants := unlocked));
      draws := draws[c := choice.draws];
      courts := courts[c := court];
      schedule := schedule';
    }

    /** Set the ends of a round one after the other. */
    method UpdateRound(court: Court) returns (r: Court)
      ensures r == court.(roundEnds := M.RoundFrom(cfg, requestBlock))
    {
      var ends := court.roundEnds.(preVote := requestBlock);
      ends := ends.(vote := ends.preVote + cfg.votePeriod);
      ends := ends.(aggregation := ends.vote + cfg.aggregationPeriod);
      ends := ends.(appeal := ends.aggregation + cfg.appealPeriod);
      r := court.(roundEnds := ends);
    }

    method StartRound(c: CourtId, appealed: Court, rng: Rng) returns (e: Option<CourtError>)
      requires cfg.minJurorStake > 0
      modifies this
      ensures Did(M.StartRound(old(View()), c, appealed, rng), old(View()), e, View())
    {
      var chosen := SelectParticipants(|appealed.appeals|, rng);
      if chosen.Err? {
        return Some(chosen.error);
      }
      var court := UpdateRound(appealed);
      var rescheduled := M.Reschedule(View(), c, appealed.roundEnds.appeal, court.roundEnds.appeal);
      if rescheduled.Err? {
        return Some(rescheduled.error);
      }
      WriteRound(c, court, chosen.value, rescheduled.value);
      e := None;
    }

    method FinalAppeal(c: CourtId, appealed: Court)
      modifies this
      ensures View() == M.FinalAppeal(old(View()), c, appealed)
    {
      schedule := M.Unschedule(View(), c, appealed.roundEnds.appeal);
      courts := courts[c := appealed];
    }

    /** Start the next round, or end the rounds with the last possible appeal. */
    method Advance(c: CourtId, appealed: Court, rng: Rng) returns (e: Option<CourtError>)
      requires cfg.minJurorStake > 0
      modifies this
      ensures Did(M.Advance(old(View()), c, appealed, rng), old(View()), e, View())
    {
      if |appealed.appeals| < cfg.maxAppeals {
        e := StartRound(c, appealed, rng);
      } else {
        FinalAppeal(c, appealed);
        e := None;
      }
    }

    method Appeal(who: AccountId, c: CourtId, rng: Rng) returns (e: Option<CourtError>)
      requires Valid()
      modifies this
      ensures Valid()
      ensures Did(M.AppealCourt(old(View()), who, c, rng), old(View()), e, View())
      ensures e.None? && |old(courts)[c].appeals| + 1 < cfg.maxAppeals ==>
                c in draws && FreshDraws(cfg, draws[c], NecessaryDrawsWeight(|old(courts)[c].appeals| + 1))
    {
      e := TryAppeal(who, c, rng);
      if e.None? && |old(courts)[c].appeals| + 1 < cfg.maxAppeals {
        AppealLeavesFreshDraws(old(View()), who, c, rng);
      }
      AppealIsSafe(old(View()), M.AppealTo(who, c, rng), e, View());
    }

    method TryAppeal(who: AccountId, c: CourtId, rng: Rng) returns (e: Option<CourtError>)
      requires cfg.minJurorStake > 0
      modifies this
      ensures Did(M.AppealCourt(old(View()), who, c, rng), old(View()), e, View())
    {
      e := CheckAppeal(who, c);
      if e.Some? {
        return;
      }
      var bond := M.AppealBondFor(cfg, |courts[c].appeals| + 1);
      e := Advance(c, M.Appealed(View(), who, c), rng);
      if e.None? {
        free := free[who := Minus(GetOr(free, who), bond)];
        reserved := Deposit(reserved, who, bond);
      }
    }

    method WriteReassignment(c: CourtId, participants': map<AccountId, Participant>, free': Free)
      requires c in courts
      modifies this
      ensures View() == M.StakesReassigned(old(View()), c, participants', free')
    {
      participants, free := participants', free';
      courts := courts[c := courts[c].(status := Reassigned)];
      draws := draws - {c};
    }

    method ReassignCourtStakes(c: CourtId) returns (e: Option<CourtError>)
      requires Valid()
      modifies this
      ensures Valid()
      ensures Did(M.ReassignCourtStakes(old(View()), c), old(View()), e, View())
      ensures e.None? ==> MapSum(free) == old(MapSum(free))
      ensures e.None? ==> forall a :: a != cfg.rewardPot(c) ==>
                GetOr(free, a) >= Minus(old(GetOr(free, a)),
                                        SlashableIn(old(M.DrawsOf(View(), c)), |old(M.DrawsOf(View(), c))|, {a}))
    {
      e := TryReassign(c);
      DidIsSafe(old(View()), M.ReassignStakes(c), e, View());
      if e.None? {
        ReassignmentIsFair(old(View()), c, cfg.rewardPot(c) + 1);
        forall a | a != cfg.rewardPot(c)
          ensures GetOr(free, a) >= Minus(old(GetOr(free, a)),
                                          SlashableIn(old(M.DrawsOf(View(), c)), |old(M.DrawsOf(View(), c))|, {a}))
        {
          ReassignmentIsFair(old(View()), c, a);
        }
      }
    }

    method TryReassign(c: CourtId) returns (e: Option<CourtError>)
      modifies this
      ensures Did(M.ReassignCourtStakes(old(View()), c), old(View()), e, View())
    {
      if c !in courts {
        return Some(CourtNotFound);
      }
      match courts[c].status {
        case Reassigned => return Some(CourtAlreadyReassigned);
        case Open => return Some(CourtNotClosed);
        case Closed(winner) =>
          var unlocked, settled := ComputeReassignment(cfg, cfg.rewardPot(c), participants, free, M.DrawsOf(View(), c),
                                                       winner);
          WriteReassignment(c, unlocked, settled);
          e := None;
      }
    }

    // ---------- the dispute API ----------

    method WriteCourt(m: MarketId, court: Court, choice: Choice, schedule': Schedule)
      modifies this
      ensures View() == M.CourtOpened(old(View()), m, court, choice, schedule')
    {
      var c := nextCourtId;
      SetRegistry(choice.reg);
      draws := draws[c := choice.draws];
      courts := courts[c := court];
      courtOf, marketOf := courtOf[m := c], marketOf[c := m];
      nextCourtId := c + 1;
      schedule := schedule';
    }

    method OpenCourt(m: MarketId, rng: Rng) returns (e: Option<CourtError>)
      requires cfg.minJurorStake > 0
      modifies this
      ensures Did(M.OnDispute(old(View()), m, rng), old(View()), e, View())
    {
      var record := M.CourtMarket(View(), m);
      if record.Err? {
        return Some(record.error);
      }
      var chosen := SelectParticipants(0, rng);
      if chosen.Err? {
        return Some(chosen.error);
      }
      var court := M.NewCourt(cfg, requestBlock);
      var added := M.AddAutoResolve(cfg, schedule, m, court.roundEnds.appeal);
      if added.Err? {
        return Some(added.error);
      }
      WriteCourt(m, court, chosen.value, added.value);
      e := None;
    }

    method OnDispute(m: MarketId, rng: Rng) returns (e: Option<CourtError>)
      requires Valid()
      modifies this
      ensures Valid()
      ensures Did(M.OnDispute(old(View()), m, rng), old(View()), e, View())
      ensures e.None? ==> old(nextCourtId) in draws && FreshDraws(cfg, draws[old(nextCourtId)], NecessaryDrawsWeight(0))
    {
      e := OpenCourt(m, rng);
      DisputeIsSafe(old(View()), M.Dispute(m, rng), e, View());
      if e.None? {
        DisputeDraws(old(View()), m, rng);
        SelectedDrawsAreFresh(old(View()), 0, rng);
      }
    }

    method CloseCourt(m: MarketId) returns (e: Option<CourtError>)
      modifies this
      ensures Did(M.OnResolution(old(View()), m), old(View()), e, View())
    {
      var record := M.CourtMarket(View(), m);
      if record.Err? {
        return Some(record.error);
      }
      if m !in courtOf {
        return Some(MarketIdToCourtIdNotFound);
      }
      var c := courtOf[m];
      if c !in courts {
        return Some(CourtNotFound);
      }
      var winner := LatestWinner(c, M.DrawsOf(View(), c));
      if winner.Err? {
        return Some(winner.error);
      }
      if !winner.value.Outcome? {
        return Some(WinnerVoteItemIsNoOutcome);
      }
      participants := ComputeUnlocked(participants, M.DrawsOf(View(), c));
      courts := courts[c := courts[c].(status := Closed(winner.value))];
      e := None;
    }

    method OnResolution(m: MarketId) returns (e: Option<CourtError>)
      requires Valid()
      modifies this
      ensures Valid()
      ensures Did(M.OnResolution(old(View()), m), old(View()), e, View())
      ensures e.None? ==> ResolvedOn(old(View()), m, courts)
      ensures e.None? ==> Released(old(participants), participants, old(M.DrawsOf(View(), CourtOf(m))))
    {
      e := CloseCourt(m);
      if e.None? {
        M.ResolvesOnTheVerdict(old(View()), m);
        UnlockReleases(old(Reg()), old(M.DrawsOf(View(), CourtOf(m))));
      }
      DidIsSafe(old(View()), M.Resolve(m), e, View());
    }

    /** Settle the appeal bonds of the market's court; `taken` goes to the dispute's overall imbalance. */
    method Exchange(m: MarketId, resolved: OutcomeReport) returns (e: Option<CourtError>, taken: Balance)
      requires Valid()
      modifies this
      ensures Valid()
      ensures Did(M.Exchange(old(View()), m, resolved), old(View()), e, View())
      ensures e.None? ==> taken == M.ExchangeBonds(old(View()), m, resolved).value.taken
      ensures e.None? ==> MapSum(free) + MapSum(reserved) + taken == old(MapSum(free) + MapSum(reserved))
    {
      e, taken := TryExchange(m, resolved);
      if e.None? {
        ExchangeConserves(old(View()), m, resolved);
      }
      DidIsSafe(old(View()), M.ExchangeFor(m, resolved), e, View());
    }

    method TryExchange(m: MarketId, resolved: OutcomeReport) returns (e: Option<CourtError>, taken: Balance)
      modifies this
      ensures Did(M.Exchange(old(View()), m, resolved), old(View()), e, View())
      ensures e.None? ==> taken == M.ExchangeBonds(old(View()), m, resolved).value.taken
    {
      var record := M.CourtMarket(View(), m);
      if record.Err? {
        return Some(record.error), 0;
      }
      if m !in courtOf {
        return Some(MarketIdToCourtIdNotFound), 0;
      }
      if courtOf[m] !in courts {
        return Some(CourtNotFound), 0;
      }
      var settled := ComputeBonds(free, reserved, courts[courtOf[m]].appeals, resolved);
      if settled.Err? {
        return Some(settled.error), 0;
      }
      free, reserved := settled.value.free, settled.value.reserved;
      e, taken := None, settled.value.taken;
    }

    method DropCourt(c: CourtId)
      modifies this
      ensures View() == M.DropCourt(old(View()), c)
    {
      participants := ComputeUnlocked(participants, M.DrawsOf(View(), c));
      draws := draws - {c};
      courts := courts - {c};
    }

    method OnGlobalDispute(m: MarketId) returns (e: Option<CourtError>, items: seq<M.GlobalItem>)
      requires Valid()
      modifies this
      ensures Valid()
      ensures Did(M.OnGlobalDispute(old(View()), m), old(View()), e, View())
      ensures e.None? ==> items == M.ContestedItems(old(View()), m)
      ensures e.None? && m in courtOf ==>
                courtOf[m] !in courts && Released(old(participants), participants, old(M.DrawsOf(View(), CourtOf(m))))
    {
      e, items := TryGlobalDispute(m);
      if e.None? && m in courtOf {
        UnlockReleases(old(Reg()), old(M.DrawsOf(View(), CourtOf(m))));
      }
      DidIsSafe(old(View()), M.GlobalDispute(m), e, View());
    }

    method TryGlobalDispute(m: MarketId) returns (e: Option<CourtError>, items: seq<M.GlobalItem>)
      modifies this
      ensures Did(M.OnGlobalDispute(old(View()), m), old(View()), e, View())
      ensures e.None? ==> items == M.ContestedItems(old(View()), m)
    {
      items := [];
      var record := M.CourtMarket(View(), m);
      if record.Err? {
        return Some(record.error), [];
      }
      if m in courtOf {
        if courtOf[m] !in courts {
          return Some(CourtNotFound), [];
        }
        if record.value.report.None? {
          return Some(MarketReportNotFound), [];
        }
        items := CollectItems(courts[courtOf[m]].appeals, record.value.report.value, cfg.treasury);
        DropCourt(courtOf[m]);
      }
      e := None;
    }

    method Clear(m: MarketId) returns (e: Option<CourtError>)
      requires Valid()
      modifies this
      ensures Valid()
      ensures Did(M.Clear(old(View()), m), old(View()), e, View())
      ensures e.None? ==> m in courtOf && courtOf[m] !in courts
      ensures e.None? ==> Released(old(participants), participants, old(M.DrawsOf(View(), CourtOf(m))))
    {
      e := TryClear(m);
      if e.None? {
        UnlockReleases(old(Reg()), old(M.DrawsOf(View(), CourtOf(m))));
      }
      DidIsSafe(old(View()), M.ClearCourt(m), e, View());
    }

    method TryClear(m: MarketId) returns (e: Option<CourtError>)
      modifies this
      ensures Did(M.Clear(old(View()), m), old(View()), e, View())
    {
      var record := M.CourtMarket(View(), m);
      if record.Err? {
        return Some(record.error);
      }
      if m !in courtOf {
        return Some(MarketIdToCourtIdNotFound);
      }
      DropCourt(courtOf[m]);
      e := None;
    }

    method HasFailed(m: MarketId) returns (r: Result<bool>)
      requires cfg.minJurorStake > 0
      ensures r == M.HasFailed(View(), m)
    {
      var record := M.CourtMarket(View(), m);
      if record.Err? {
        return Err(record.error);
      }
      if m !in courtOf {
        return Err(MarketIdToCourtIdNotFound);
      }
      var unconsumed, _ := ComputeSections(pool, cfg.minJurorStake);
      var c := courtOf[m];
      if c in courts {
        var appeals := |courts[c].appeals|;
        var required := NecessaryDrawsWeight(appeals + 1) * cfg.minJurorStake;
        var appealable := M.CheckAppealable(View(), c, courts[c]).None?;
        r := Ok(appeals >= cfg.maxAppeals || (appealable && unconsumed < required));
      } else {
        if record.value.report.None? {
          return Err(MarketReportNotFound);
        }
        var reportedAt := record.value.reportedAt;
        var disputable := reportedAt <= now < reportedAt + record.value.disputeDuration;
        r := Ok(disputable && unconsumed < NecessaryDrawsWeight(0) * cfg.minJurorStake);
      }
    }
  }
}
