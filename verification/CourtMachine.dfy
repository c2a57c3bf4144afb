/** The court pallet as a state machine: its storage, its calls and the dispute API, and runs of them. */
module CourtMachine {
  import opened Collections
  import opened SortedSearch
  import opened CourtTypes
  import opened JurorPool
  import opened Selection
  import opened Reassignment
  import opened AutoResolve
  import Verdict
  import Inflation

  datatype Store = Store(
    cfg: Config,
    now: Block,
    requestBlock: Block,
    reg: Registry,
    courts: map<CourtId, Court>,
    draws: map<CourtId, seq<Draw>>,
    nextCourtId: CourtId,
    courtOf: map<MarketId, CourtId>,
    marketOf: map<CourtId, MarketId>,
    schedule: Schedule,
    free: Free,
    reserved: Free,
    markets: map<MarketId, Market>,
    issuance: Balance,
    inflation: nat)

  function DrawsOf(s: Store, c: CourtId): seq<Draw> {
    if c in s.draws then s.draws[c] else []
  }

  // ---------- auto-resolve schedule ----------

  function AddAutoResolve(cfg: Config, schedule: Schedule, m: MarketId, at: Block): Result<Schedule> {
    match AddEntry(cfg.cacheSize, schedule, m, at)
    case None => Err(StorageOverflow)
    case Some(added) => Ok(added)
  }

  // ---------- joining and leaving ----------

  function WithRegistry(s: Store, r: Result<Registry>): Result<Store> {
    match r
    case Err(e) => Err(e)
    case Ok(reg) => Ok(s.(reg := reg))
  }

  function JoinCourt(s: Store, who: AccountId, amount: Balance): Result<Store> {
    WithRegistry(s, DoJoinCourt(s.cfg, s.reg, who, amount, None, GetOr(s.free, who), s.now))
  }

  function Delegate(s: Store, who: AccountId, amount: Balance, delegations: seq<AccountId>): Result<Store> {
    WithRegistry(s, DoDelegate(s.cfg, s.reg, who, amount, delegations, GetOr(s.free, who), s.now))
  }

  function PrepareExitCourt(s: Store, who: AccountId): Result<Store> {
    WithRegistry(s, DoPrepareExit(s.reg, who, s.now))
  }

  function ExitCourt(s: Store, who: AccountId): Result<Store> {
    WithRegistry(s, DoExit(s.cfg, s.reg, who, s.now))
  }

  // ---------- voting ----------

  predicate InVotePeriod(t: RoundTiming, now: Block) {
    t.preVote < now <= t.vote
  }

  predicate InAggregationPeriod(t: RoundTiming, now: Block) {
    t.vote < now <= t.aggregation
  }

  predicate InAppealPeriod(t: RoundTiming, now: Block) {
    t.aggregation < now < t.appeal
  }

  function DrawKeys(draws: seq<Draw>): (r: seq<Key>)
    ensures |r| == |draws|
    ensures forall i :: 0 <= i < |draws| ==> r[i] == (draws[i].who, 0)
  {
    seq(|draws|, i requires 0 <= i < |draws| => (draws[i].who, 0))
  }

  /** Position of an account's draw, by binary search. */
  function FindDraw(draws: seq<Draw>, who: AccountId): (r: Option<nat>)
    ensures r.Some? ==> r.value < |draws| && draws[r.value].who == who
  {
    match Search(DrawKeys(draws), (who, 0))
    case Found(i) => assert DrawKeys(draws)[i] == (draws[i].who, 0); Some(i)
    case Missing(_) => None
  }

  function SetVote(s: Store, c: CourtId, i: nat, v: Vote): Store
    requires i < |DrawsOf(s, c)|
  {
    s.(draws := s.draws[c := DrawsOf(s, c)[i := DrawsOf(s, c)[i].(vote := v)]])
  }

  function CastVote(s: Store, who: AccountId, c: CourtId, commitment: Digest): Result<Store> {
    if c !in s.courts then Err(CourtNotFound)
    else if !InVotePeriod(s.courts[c].roundEnds, s.now) then Err(NotInVotingPeriod)
    else
      match FindDraw(DrawsOf(s, c), who)
      case None => Err(CallerNotInSelectedDraws)
      case Some(i) =>
        var v := DrawsOf(s, c)[i].vote;
        if !(v.Drawn? || v.Secret?) then Err(InvalidVoteState) else Ok(SetVote(s, c, i, Secret(commitment)))
  }

  /** The item must be an outcome that fits the market behind the court, if there is one. */
  function CheckMarketItem(s: Store, c: CourtId, item: VoteItem): Option<CourtError> {
    if c !in s.marketOf then None
    else if s.marketOf[c] !in s.markets then Some(MarketNotFound)
    else if !item.Outcome? then Some(VoteItemIsNoOutcome)
    else if !s.markets[s.marketOf[c]].Matches(item.report) then Some(OutcomeMismatch)
    else None
  }

  function CheckVoteItem(court: Court, item: VoteItem): Option<CourtError> {
    match court.voteItemType
    case OutcomeItems => if item.Outcome? then None else Some(InvalidVoteItemForOutcomeCourt)
    case BinaryItems => if item.Binary? then None else Some(InvalidVoteItemForBinaryCourt)
  }

  /** The commitment of a secret vote, if the opened triple hashes to it. */
  function HashedCommitment(cfg: Config, v: Vote, juror: AccountId, item: VoteItem, salt: Digest): Result<Digest> {
    match v
    case Secret(commitment) =>
      if commitment == cfg.hash(juror, item, salt) then Ok(commitment) else Err(CommitmentHashMismatch)
    case Drawn => Err(JurorDidNotVote)
    case Delegated(_) => Err(JurorDelegated)
    case Revealed(_, _, _) => Err(VoteAlreadyRevealed)
    case Denounced(_, _, _) => Err(VoteAlreadyDenounced)
  }

  function DenounceVote(s: Store, denouncer: AccountId, c: CourtId, juror: AccountId, item: VoteItem,
                        salt: Digest): Result<Store> {
    var bad := CheckMarketItem(s, c, item);
    if bad.Some? then Err(bad.value)
    else if denouncer == juror then Err(CallerDenouncedItself)
    else if juror !in s.reg.participants then Err(JurorDoesNotExist)
    else if c !in s.courts then Err(CourtNotFound)
    else if CheckVoteItem(s.courts[c], item).Some? then Err(CheckVoteItem(s.courts[c], item).value)
    else if !InVotePeriod(s.courts[c].roundEnds, s.now) then Err(NotInVotingPeriod)
    else
      match FindDraw(DrawsOf(s, c), juror)
      case None => Err(JurorNotDrawn)
      case Some(i) =>
        match HashedCommitment(s.cfg, DrawsOf(s, c)[i].vote, juror, item, salt)
        case Err(e) => Err(e)
        case Ok(commitment) => Ok(SetVote(s, c, i, Denounced(commitment, item, salt)))
  }

  function RevealVote(s: Store, who: AccountId, c: CourtId, item: VoteItem, salt: Digest): Result<Store> {
    var bad := CheckMarketItem(s, c, item);
    if bad.Some? then Err(bad.value)
    else if who !in s.reg.participants then Err(CallerIsNotACourtParticipant)
    else if c !in s.courts then Err(CourtNotFound)
    else if CheckVoteItem(s.courts[c], item).Some? then Err(CheckVoteItem(s.courts[c], item).value)
    else if !InAggregationPeriod(s.courts[c].roundEnds, s.now) then Err(NotInAggregationPeriod)
    else
      match FindDraw(DrawsOf(s, c), who)
      case None => Err(CallerNotInSelectedDraws)
      case Some(i) =>
        match HashedCommitment(s.cfg, DrawsOf(s, c)[i].vote, who, item, salt)
        case Err(e) => Err(e)
        case Ok(commitment) => Ok(SetVote(s, c, i, Revealed(commitment, item, salt)))
  }

  // ---------- rounds ----------

  /** The round whose vote period starts after `preVote`. */
  function RoundFrom(cfg: Config, preVote: Block): RoundTiming {
    var vote := preVote + cfg.votePeriod;
    var aggregation := vote + cfg.aggregationPeriod;
    RoundTiming(preVote, vote, aggregation, aggregation + cfg.appealPeriod)
  }

  function NewCourt(cfg: Config, preVote: Block): Court {
    Court(Open, [], RoundFrom(cfg, preVote), OutcomeItems)
  }

  function Truncate(c: Choice, bound: nat): Choice {
    if |c.draws| <= bound then c else c.(draws := c.draws[..bound])
  }

  function SelectWeight(cfg: Config, reg: Registry, weight: nat, rng: Rng): Result<Choice>
    requires cfg.minJurorStake > 0
  {
    match ChooseMultipleWeighted(cfg, reg, weight, rng)
    case Err(e) => Err(e)
    case Ok(c) => Ok(Truncate(c, cfg.maxSelectedDraws))
  }

  function SelectParticipants(cfg: Config, reg: Registry, appeals: nat, rng: Rng): Result<Choice>
    requires cfg.minJurorStake > 0
  {
    SelectWeight(cfg, reg, NecessaryDrawsWeight(appeals), rng)
  }

  /** Take the slashable amounts of the first `n` draws off the active locks. */
  function UnlockFirst(participants: map<AccountId, Participant>, draws: seq<Draw>, n: nat): map<AccountId, Participant>
    requires n <= |draws|
  {
    if n == 0 then participants
    else Unlock(UnlockFirst(participants, draws, n - 1), draws[n - 1].who, draws[n - 1].slashable)
  }

  function UnlockAll(reg: Registry, draws: seq<Draw>): Registry {
    reg.(participants := UnlockFirst(reg.participants, draws, |draws|))
  }

  function LastWinner(court: Court): Option<VoteItem> {
    if |court.appeals| == 0 then None else Some(court.appeals[|court.appeals| - 1].appealed)
  }

  /** What the market would resolve on now: the round's winner, or the oracle's report. */
  function LatestWinner(s: Store, c: CourtId, draws: seq<Draw>): Result<VoteItem> {
    if c !in s.courts then Err(CourtNotFound)
    else if c !in s.marketOf then Err(CourtIdToMarketIdNotFound)
    else if s.marketOf[c] !in s.markets then Err(MarketNotFound)
    else
      match s.markets[s.marketOf[c]].report
      case None => Err(MarketReportNotFound)
      case Some(report) =>
        match Verdict.GetWinner(draws, LastWinner(s.courts[c]))
        case Some(item) => Ok(item)
        case None => Ok(Outcome(report))
  }

  function AppealBondFor(cfg: Config, n: nat): Balance {
    cfg.appealBond * Pow2(n)
  }

  predicate CanReserve(s: Store, who: AccountId, bond: Balance) {
    bond == 0 || GetOr(s.free, who) >= bond + GetOr(s.reg.locks, who)
  }

  function CheckAppealable(s: Store, c: CourtId, court: Court): Option<CourtError> {
    if c in s.marketOf && s.marketOf[c] !in s.markets then Some(MarketNotFound)
    else if c in s.marketOf && !s.markets[s.marketOf[c]].disputed then Some(MarketIsNotDisputed)
    else if c in s.marketOf && !s.markets[s.marketOf[c]].usesCourt then Some(MarketDoesNotHaveCourtMechanism)
    else if !InAppealPeriod(court.roundEnds, s.now) then Some(NotInAppealPeriod)
    else None
  }

  function ReserveBond(s: Store, who: AccountId, bond: Balance): Store {
    s.(free := s.free[who := Minus(GetOr(s.free, who), bond)], reserved := Deposit(s.reserved, who, bond))
  }

  /** Move the market behind the court from one resolution block to another. */
  function Reschedule(s: Store, c: CourtId, last: Block, next: Block): Result<Schedule> {
    if c !in s.marketOf then Ok(s.schedule) else
      match AddAutoResolve(s.cfg, s.schedule, s.marketOf[c], next)
      case Err(e) => Err(e)
      case Ok(added) => Ok(RemoveEntry(added, s.marketOf[c], last))
  }

  /** Take the market behind the court off the schedule. */
  function Unschedule(s: Store, c: CourtId, last: Block): Schedule {
    if c in s.marketOf then RemoveEntry(s.schedule, s.marketOf[c], last) else s.schedule
  }

  /** Fresh draws replace the old ones, whose locks are released. */
  function RoundStarted(s: Store, c: CourtId, court: Court, choice: Choice, schedule: Schedule): Store {
    s.(reg := UnlockAll(choice.reg, DrawsOf(s, c)),
       draws := s.draws[c := choice.draws],
       courts := s.courts[c := court],
       schedule := schedule)
  }

  /** Record the appeal; below the last one, also start a new round with fresh draws. */
  function StartRound(s: Store, c: CourtId, appealed: Court, rng: Rng): (r: Result<Store>)
    requires s.cfg.minJurorStake > 0
    ensures r.Ok? ==> r.value.cfg == s.cfg
  {
    match SelectParticipants(s.cfg, s.reg, |appealed.appeals|, rng)
    case Err(e) => Err(e)
    case Ok(choice) =>
      var round := RoundFrom(s.cfg, s.requestBlock);
      match Reschedule(s, c, appealed.roundEnds.appeal, round.appeal)
      case Err(e) => Err(e)
      case Ok(schedule) => Ok(RoundStarted(s, c, appealed.(roundEnds := round), choice, schedule))
  }

  function FinalAppeal(s: Store, c: CourtId, appealed: Court): Store {
    s.(courts := s.courts[c := appealed], schedule := Unschedule(s, c, appealed.roundEnds.appeal))
  }

  /** The court with one more appeal, against the item it would resolve on. */
  function Appealed(s: Store, who: AccountId, c: CourtId): (r: Court)
    requires LatestWinner(s, c, DrawsOf(s, c)).Ok?
    ensures |r.appeals| == |s.courts[c].appeals| + 1
    ensures r.status == s.courts[c].status && r.roundEnds == s.courts[c].roundEnds
  {
    var court := s.courts[c];
    var bond := AppealBondFor(s.cfg, |court.appeals| + 1);
    court.(appeals := court.appeals + [Appeal(who, bond, LatestWinner(s, c, DrawsOf(s, c)).value)])
  }

  /** A new round below the last appeal, otherwise the end of the court's rounds. */
  function Advance(s: Store, c: CourtId, appealed: Court, rng: Rng): (r: Result<Store>)
    requires s.cfg.minJurorStake > 0
    ensures r.Ok? ==> r.value.cfg == s.cfg
  {
    if |appealed.appeals| < s.cfg.maxAppeals then StartRound(s, c, appealed, rng) else Ok(FinalAppeal(s, c, appealed))
  }

  function CheckAppeal(s: Store, who: AccountId, c: CourtId): (r: Option<CourtError>)
    ensures r.None? ==> LatestWinner(s, c, DrawsOf(s, c)).Ok? && |s.courts[c].appeals| < s.cfg.maxAppeals
    ensures r.None? ==> InAppealPeriod(s.courts[c].roundEnds, s.now)
  {
    if c !in s.courts then Some(CourtNotFound)
    else if |s.courts[c].appeals| + 1 > s.cfg.maxAppeals then Some(MaxAppealsReached)
    else if !CanReserve(s, who, AppealBondFor(s.cfg, |s.courts[c].appeals| + 1)) then Some(AppealBondExceedsBalance)
    else if CheckAppealable(s, c, s.courts[c]).Some? then CheckAppealable(s, c, s.courts[c])
    else
      match LatestWinner(s, c, DrawsOf(s, c))
      case Err(e) => Some(e)
      case Ok(_) => None
  }

  function AppealCourt(s: Store, who: AccountId, c: CourtId, rng: Rng): (r: Result<Store>)
    requires s.cfg.minJurorStake > 0
    ensures r.Ok? ==> r.value.cfg == s.cfg
    ensures r.Ok? ==> c in s.courts && CheckAppeal(s, who, c).None?
  {
    match CheckAppeal(s, who, c)
    case Some(e) => Err(e)
    case None =>
      match Advance(s, c, Appealed(s, who, c), rng)
      case Err(e) => Err(e)
      case Ok(s') => Ok(ReserveBond(s', who, AppealBondFor(s.cfg, |s.courts[c].appeals| + 1)))
  }

  function StakesReassigned(s: Store, c: CourtId, participants: map<AccountId, Participant>, free: Free): Store
    requires c in s.courts
  {
    s.(reg := s.reg.(participants := participants),
       free := free,
       courts := s.courts[c := s.courts[c].(status := Reassigned)],
       draws := s.draws - {c})
  }

  function ReassignCourtStakes(s: Store, c: CourtId): Result<Store> {
    if c !in s.courts then Err(CourtNotFound) else
      match s.courts[c].status
      case Reassigned => Err(CourtAlreadyReassigned)
      case Open => Err(CourtNotClosed)
      case Closed(winner) =>
        var r := Reassign(s.cfg, s.cfg.rewardPot(c), s.reg.participants, s.free, DrawsOf(s, c), winner);
        Ok(StakesReassigned(s, c, r.0, r.1))
  }

  // ---------- the dispute API ----------

  /** The market record, if the market is resolved by the court. */
  function CourtMarket(s: Store, m: MarketId): Result<Market> {
    if m !in s.markets then Err(MarketNotFound)
    else if !s.markets[m].usesCourt then Err(MarketDoesNotHaveCourtMechanism)
    else Ok(s.markets[m])
  }

  function CourtOpened(s: Store, m: MarketId, court: Court, choice: Choice, schedule: Schedule): Store {
    var c := s.nextCourtId;
    s.(reg := choice.reg,
       draws := s.draws[c := choice.draws],
       courts := s.courts[c := court],
       courtOf := s.courtOf[m := c],
       marketOf := s.marketOf[c := m],
       nextCourtId := c + 1,
       schedule := schedule)
  }

  function OnDispute(s: Store, m: MarketId, rng: Rng): (r: Result<Store>)
    requires s.cfg.minJurorStake > 0
    ensures r.Ok? ==> r.value.cfg == s.cfg
  {
    if CourtMarket(s, m).Err? then Err(CourtMarket(s, m).error) else
      match SelectParticipants(s.cfg, s.reg, 0, rng)
      case Err(e) => Err(e)
      case Ok(choice) =>
        var court := NewCourt(s.cfg, s.requestBlock);
        match AddAutoResolve(s.cfg, s.schedule, m, court.roundEnds.appeal)
        case Err(e) => Err(e)
        case Ok(schedule) => Ok(CourtOpened(s, m, court, choice, schedule))
  }

  function OnResolution(s: Store, m: MarketId): Result<Store> {
    if CourtMarket(s, m).Err? then Err(CourtMarket(s, m).error)
    else if m !in s.courtOf then Err(MarketIdToCourtIdNotFound)
    else if s.courtOf[m] !in s.courts then Err(CourtNotFound)
    else
      var c := s.courtOf[m];
      match LatestWinner(s, c, DrawsOf(s, c))
      case Err(e) => Err(e)
      case Ok(item) =>
        if !item.Outcome? then Err(WinnerVoteItemIsNoOutcome) else
          Ok(s.(reg := UnlockAll(s.reg, DrawsOf(s, c)),
                courts := s.courts[c := s.courts[c].(status := Closed(item))]))
  }

  /** The item is the one that leads the revealed votes; on a tie the item last appealed against; with no such item, or
      nothing revealed, the oracle's report. */
  ghost predicate IsVerdict(draws: seq<Draw>, appeals: seq<Appeal>, oracle: OutcomeReport, item: VoteItem) {
    && (forall x :: Verdict.Leads(draws, x) ==> item == x)
    && (Verdict.RevealedItems(draws) == {} ==> item == Outcome(oracle))
    && (Verdict.RevealedItems(draws) != {} &&
        (forall x :: x in Verdict.RevealedItems(draws) ==> !Verdict.Leads(draws, x)) ==>
          item == if |appeals| > 0 then appeals[|appeals| - 1].appealed else Outcome(oracle))
  }

  /** Resolution closes the court on its verdict. */
  lemma ResolvesOnTheVerdict(s: Store, m: MarketId)
    requires OnResolution(s, m).Ok?
    ensures var c := s.courtOf[m];
            var status, oracle := OnResolution(s, m).value.courts[c].status, s.markets[s.marketOf[c]].report;
            status.Closed? && oracle.Some? && IsVerdict(DrawsOf(s, c), s.courts[c].appeals, oracle.value, status.winner)
  {
    var c := s.courtOf[m];
    assert LatestWinner(s, c, DrawsOf(s, c)).Ok?;
  }

  /** Balances, reserves and what was taken out of them while appeal bonds are settled. */
  datatype Bonds = Bonds(free: Free, reserved: Free, taken: Balance)

  /** The bond of an appeal against the resolved outcome is slashed, any other is given back, as far as reserved. */
  function SettleBond(b: Bonds, appeal: Appeal, resolved: OutcomeReport): Bonds {
    var held := Min(GetOr(b.reserved, appeal.backer), appeal.bond);
    var reserved := b.reserved[appeal.backer := GetOr(b.reserved, appeal.backer) - held];
    if appeal.appealed == Outcome(resolved) then Bonds(b.free, reserved, b.taken + held)
    else Bonds(Deposit(b.free, appeal.backer, held), reserved, b.taken)
  }

  /** After the first `n` appeals. */
  function SettleBonds(b: Bonds, appeals: seq<Appeal>, n: nat, resolved: OutcomeReport): Result<Bonds>
    requires n <= |appeals|
  {
    if n == 0 then Ok(b) else
      match SettleBonds(b, appeals, n - 1, resolved)
      case Err(e) => Err(e)
      case Ok(b') =>
        if appeals[n - 1].appealed.Outcome? then Ok(SettleBond(b', appeals[n - 1], resolved))
        else Err(AppealedVoteItemIsNoOutcome)
  }

  function ExchangeBonds(s: Store, m: MarketId, resolved: OutcomeReport): Result<Bonds> {
    if CourtMarket(s, m).Err? then Err(CourtMarket(s, m).error)
    else if m !in s.courtOf then Err(MarketIdToCourtIdNotFound)
    else if s.courtOf[m] !in s.courts then Err(CourtNotFound)
    else
      var appeals := s.courts[s.courtOf[m]].appeals;
      SettleBonds(Bonds(s.free, s.reserved, 0), appeals, |appeals|, resolved)
  }

  /** What is taken leaves the court's books for the dispute's overall imbalance. */
  function Exchange(s: Store, m: MarketId, resolved: OutcomeReport): Result<Store> {
    match ExchangeBonds(s, m, resolved)
    case Err(e) => Err(e)
    case Ok(b) => Ok(s.(free := b.free, reserved := b.reserved))
  }

  /** Release the draws of a court and forget the court. */
  function DropCourt(s: Store, c: CourtId): Store {
    s.(reg := UnlockAll(s.reg, DrawsOf(s, c)), draws := s.draws - {c}, courts := s.courts - {c})
  }

  /** An outcome for the global dispute, with its owner and initial vote. */
  datatype GlobalItem = GlobalItem(outcome: OutcomeReport, owner: AccountId, amount: Balance)

  /** The outcomes that the first `n` appeals contested, apart from the oracle's, for the treasury and without votes. */
  function GlobalItems(appeals: seq<Appeal>, n: nat, oracle: OutcomeReport, treasury: AccountId): seq<GlobalItem>
    requires n <= |appeals|
  {
    if n == 0 then []
    else if appeals[n - 1].appealed.Outcome? && appeals[n - 1].appealed.report != oracle then
      GlobalItems(appeals, n - 1, oracle, treasury) + [GlobalItem(appeals[n - 1].appealed.report, treasury, 0)]
    else GlobalItems(appeals, n - 1, oracle, treasury)
  }

  /** What the court hands over to a global dispute. */
  function ContestedItems(s: Store, m: MarketId): seq<GlobalItem> {
    if m in s.courtOf && s.courtOf[m] in s.courts && m in s.markets && s.markets[m].report.Some? then
      var appeals := s.courts[s.courtOf[m]].appeals;
      GlobalItems(appeals, |appeals|, s.markets[m].report.value, s.cfg.treasury)
    else []
  }

  predicate AppealedAgainst(appeals: seq<Appeal>, n: nat, o: OutcomeReport) {
    exists k :: 0 <= k < n && k < |appeals| && appeals[k].appealed == Outcome(o)
  }

  /** An outcome is handed over iff some appeal was against it and it is not the oracle's; the list has no more entries
      than there are appeals, and nobody starts with votes. */
  lemma {:induction false} ContestedOutcomesAreHandedOver(appeals: seq<Appeal>, n: nat, oracle: OutcomeReport,
                                                          treasury: AccountId, o: OutcomeReport)
    requires n <= |appeals|
    ensures var items := GlobalItems(appeals, n, oracle, treasury);
            && |items| <= n
            && (GlobalItem(o, treasury, 0) in items <==> o != oracle && AppealedAgainst(appeals, n, o))
            && (forall x :: x in items ==> x.owner == treasury && x.amount == 0)
  {
    if n > 0 {
      ContestedOutcomesAreHandedOver(appeals, n - 1, oracle, treasury, o);
      assert AppealedAgainst(appeals, n, o) <==>
             AppealedAgainst(appeals, n - 1, o) || appeals[n - 1].appealed == Outcome(o);
    }
  }

  function OnGlobalDispute(s: Store, m: MarketId): Result<Store> {
    if CourtMarket(s, m).Err? then Err(CourtMarket(s, m).error)
    else if m !in s.courtOf then Ok(s)
    else if s.courtOf[m] !in s.courts then Err(CourtNotFound)
    else if s.markets[m].report.None? then Err(MarketReportNotFound)
    else Ok(DropCourt(s, s.courtOf[m]))
  }

  function Clear(s: Store, m: MarketId): Result<Store> {
    if CourtMarket(s, m).Err? then Err(CourtMarket(s, m).error)
    else if m !in s.courtOf then Err(MarketIdToCourtIdNotFound)
    else Ok(DropCourt(s, s.courtOf[m]))
  }

  /** Has the court mechanism failed for this market: no appeal left, or not enough stake for the next draw? */
  function HasFailed(s: Store, m: MarketId): Result<bool>
    requires s.cfg.minJurorStake > 0
  {
    if CourtMarket(s, m).Err? then Err(CourtMarket(s, m).error)
    else if m !in s.courtOf then Err(MarketIdToCourtIdNotFound)
    else
      var unconsumed := TotalUnconsumed(s.reg.pool, s.cfg.minJurorStake);
      var c := s.courtOf[m];
      if c in s.courts then
        var court := s.courts[c];
        Ok(|court.appeals| >= s.cfg.maxAppeals ||
           (CheckAppealable(s, c, court).None? &&
            unconsumed < NecessaryDrawsWeight(|court.appeals| + 1) * s.cfg.minJurorStake))
      else if s.markets[m].report.None? then Err(MarketReportNotFound)
      else
        var reportedAt := s.markets[m].reportedAt;
        Ok(reportedAt <= s.now < reportedAt + s.markets[m].disputeDuration &&
           unconsumed < NecessaryDrawsWeight(0) * s.cfg.minJurorStake)
  }

  /** The stake for the draw after one more appeal. */
  predicate EnoughForAppeal(s: Store, c: CourtId)
    requires s.cfg.minJurorStake > 0 && c in s.courts
  {
    TotalUnconsumed(s.reg.pool, s.cfg.minJurorStake) >=
    NecessaryDrawsWeight(|s.courts[c].appeals| + 1) * s.cfg.minJurorStake
  }

  /** Where an appeal passes its checks: below the last one the mechanism has failed iff the appeal fails for lack of
      stake, whatever the generator. The last one needs no draw and succeeds, so there a verdict of failure for lack
      of stake is wrong. Altogether the verdict is right iff a draw would follow or the stake suffices anyway. */
  lemma HasFailedForesees(s: Store, m: MarketId, who: AccountId, rng: Rng)
    requires s.cfg.minJurorStake > 0 && HasFailed(s, m).Ok? && s.courtOf[m] in s.courts
    requires CheckAppeal(s, who, s.courtOf[m]).None?
    ensures var c := s.courtOf[m];
            var last := |s.courts[c].appeals| + 1 == s.cfg.maxAppeals;
            && (last ==> AppealCourt(s, who, c, rng).Ok?)
            && ((HasFailed(s, m).value <==> AppealCourt(s, who, c, rng) == Err(NotEnoughJurorsAndDelegatorsStake)) <==>
                (!last || EnoughForAppeal(s, c)))
  {
    var c := s.courtOf[m];
    SelectFailsForStake(s.cfg, s.reg, NecessaryDrawsWeight(|s.courts[c].appeals| + 1), rng);
    AppealFailsForStakeIff(s, who, c, rng);
  }

  lemma AppealFailsForStakeIff(s: Store, who: AccountId, c: CourtId, rng: Rng)
    requires s.cfg.minJurorStake > 0 && CheckAppeal(s, who, c).None? && c in s.courts
    ensures AppealCourt(s, who, c, rng) == Err(NotEnoughJurorsAndDelegatorsStake) <==>
            (|s.courts[c].appeals| + 1 < s.cfg.maxAppeals && !EnoughForAppeal(s, c))
  {
    SelectFailsForStake(s.cfg, s.reg, NecessaryDrawsWeight(|s.courts[c].appeals| + 1), rng);
  }

  lemma SelectFailsForStake(cfg: Config, reg: Registry, weight: nat, rng: Rng)
    requires cfg.minJurorStake > 0
    ensures SelectWeight(cfg, reg, weight, rng) == Err(NotEnoughJurorsAndDelegatorsStake) <==>
            TotalUnconsumed(reg.pool, cfg.minJurorStake) < weight * cfg.minJurorStake
  {
    assert ChooseMultipleWeighted(cfg, reg, weight, rng).Err? ==>
             ChooseMultipleWeighted(cfg, reg, weight, rng).error in
               {NotEnoughJurorsAndDelegatorsStake, IndexOutOfRange};
  }

  // ---------- blocks ----------

  /** The block hook of the next block: inflation, then the next start of voting if the last one is due. */
  function OnInitialize(s: Store): Store {
    var now := s.now + 1;
    var minted := Inflation.HandleInflation(s.cfg, s.reg.pool, s.free, s.issuance, s.inflation, now);
    s.(now := now, free := minted.0, issuance := minted.1,
       requestBlock := if now >= s.requestBlock then now + s.cfg.requestInterval else s.requestBlock)
  }

  // ---------- steps and runs ----------

  datatype Step =
    | NextBlock
    | Join(who: AccountId, amount: Balance)
    | JoinAsDelegator(who: AccountId, amount: Balance, delegations: seq<AccountId>)
    | PrepareExit(who: AccountId)
    | Exit(who: AccountId)
    | Cast(who: AccountId, court: CourtId, commitment: Digest)
    | Denounce(who: AccountId, court: CourtId, juror: AccountId, item: VoteItem, salt: Digest)
    | Reveal(who: AccountId, court: CourtId, item: VoteItem, salt: Digest)
    | AppealTo(who: AccountId, court: CourtId, rng: Rng)
    | ReassignStakes(court: CourtId)
    | Dispute(market: MarketId, rng: Rng)
    | Resolve(market: MarketId)
    | ExchangeFor(market: MarketId, outcome: OutcomeReport)
    | GlobalDispute(market: MarketId)
    | ClearCourt(market: MarketId)
    | SetInflation(rate: nat)
    // what other pallets do
    | SetBalance(who: AccountId, amount: Balance)
    | SetMarket(market: MarketId, record: Market)

  function Try(s: Store, step: Step): Result<Store>
    requires s.cfg.minJurorStake > 0
  {
    match step
    case NextBlock => Ok(OnInitialize(s))
    case Join(who, amount) => JoinCourt(s, who, amount)
    case JoinAsDelegator(who, amount, delegations) => Delegate(s, who, amount, delegations)
    case PrepareExit(who) => PrepareExitCourt(s, who)
    case Exit(who) => ExitCourt(s, who)
    case Cast(who, c, commitment) => CastVote(s, who, c, commitment)
    case Denounce(who, c, juror, item, salt) => DenounceVote(s, who, c, juror, item, salt)
    case Reveal(who, c, item, salt) => RevealVote(s, who, c, item, salt)
    case AppealTo(who, c, rng) => AppealCourt(s, who, c, rng)
    case ReassignStakes(c) => ReassignCourtStakes(s, c)
    case Dispute(m, rng) => OnDispute(s, m, rng)
    case Resolve(m) => OnResolution(s, m)
    case ExchangeFor(m, resolved) => Exchange(s, m, resolved)
    case GlobalDispute(m) => OnGlobalDispute(s, m)
    case ClearCourt(m) => Clear(s, m)
    case SetInflation(rate) => Ok(s.(inflation := rate))
    case SetBalance(who, amount) => Ok(s.(free := s.free[who := amount]))
    case SetMarket(m, record) => Ok(s.(markets := s.markets[m := record]))
  }

  /** A failing call leaves no trace. */
  function Apply(s: Store, step: Step): Store
    requires s.cfg.minJurorStake > 0
  {
    match Try(s, step)
    case Ok(s') => s'
    case Err(_) => s
  }

  lemma ConfigIsConstant(s: Store, step: Step)
    requires s.cfg.minJurorStake > 0
    ensures Apply(s, step).cfg == s.cfg
  {}

  /** The first block of a chain without participants and courts. */
  function Genesis(cfg: Config, free: Free, markets: map<MarketId, Market>, issuance: Balance): Store {
    OnInitialize(Store(cfg, 0, 0, Registry([], map[], map[]), map[], map[], 0, map[], map[], map[], free, map[],
                       markets, issuance, 0))
  }

  /** The state after the first `n` steps of a run. */
  function Run(s: Store, steps: seq<Step>, n: nat): (r: Store)
    requires s.cfg.minJurorStake > 0 && n <= |steps|
    ensures r.cfg == s.cfg
  {
    if n == 0 then s else
      var before := Run(s, steps, n - 1);
      ConfigIsConstant(before, steps[n - 1]);
      Apply(before, steps[n - 1])
  }
}
