/** Global disputes: token-holder votes on outcomes, with a cached leader, vote locks and batched clean-up. */
module GlobalDisputes {
  import opened Collections
  import opened SortedSearch
  import opened AutoResolve
  import C = CourtTypes

  type MarketId = nat
  type Balance = nat
  type Block = nat
  type Report = C.OutcomeReport

  /** Accounts of users, and the account that collects the fees of one market's dispute. */
  datatype Account = User(id: nat) | RewardPot(market: MarketId)

  datatype Possession = Paid(owner: Account, fee: Balance) | Shared(owners: seq<Account>)

  datatype OutcomeInfo = OutcomeInfo(sum: Balance, possession: Possession)

  datatype Status = Active(addEnd: Block, voteEnd: Block) | Finished | Destroyed

  /** The outcome in the lead, what is cached about it, and the status of the dispute. */
  datatype Info = Info(winner: Report, cached: OutcomeInfo, status: Status)

  datatype InitialItem = InitialItem(outcome: Report, owner: Account, amount: Balance)

  datatype Config = Config(
    addOutcomePeriod: Block,
    votingPeriod: Block,
    maxVotes: nat,
    maxOwners: nat,
    minVoteAmount: Balance,
    removeKeysLimit: nat,
    outcomeFee: Balance,
    cacheSize: nat)

  datatype Error =
    | MarketNotFound | AmountTooLow | InvalidGlobalDisputeStatus | InsufficientAmount | MaxOwnersReached
    | MaxVotesReached | NoFundsToReward | GlobalDisputeNotFound | OutcomeAlreadyExists | OutcomeDoesNotExist
    | OutcomeMismatch | OutcomesNotFullyCleaned | SharedPossessionRequired | UnfinishedGlobalDispute
    | AddOutcomePeriodIsOver | NotInGdVotingPeriod | GlobalDisputeNotDestroyed | GlobalDisputeAlreadyExists
    | InsufficientBalance | StorageOverflow

  datatype Result<+T> = Ok(value: T) | Err(error: Error)

  type Outcomes = map<Report, OutcomeInfo>
  type LockList = seq<(MarketId, Balance)>
  type Free = map<Account, Balance>

  /** `frozen` is the currency lock of this pallet; 0 stands for no lock. */
  datatype Store = Store(
    cfg: Config,
    now: Block,
    infos: map<MarketId, Info>,
    outcomes: map<MarketId, Outcomes>,
    locks: map<Account, LockList>,
    frozen: Free,
    free: Free,
    markets: map<MarketId, C.Market>,
    schedule: Schedule)

  function OutcomesOf(outcomes: map<MarketId, Outcomes>, m: MarketId): Outcomes {
    if m in outcomes then outcomes[m] else map[]
  }

  function LocksOf(locks: map<Account, LockList>, v: Account): LockList {
    if v in locks then locks[v] else []
  }

  predicate IsActive(s: Store, m: MarketId) {
    m in s.infos && s.infos[m].status.Active?
  }

  // ---------- currency ----------

  /** A transfer succeeds if it moves nothing or leaves the sender's locked amount in place. */
  function Transfer(free: Free, frozen: Free, from: Account, to: Account, amount: Balance): Option<Free> {
    if amount == 0 || from == to then Some(free)
    else if GetOr(free, from) < amount + GetOr(frozen, from) then None
    else
      var taken := free[from := GetOr(free, from) - amount];
      Some(taken[to := GetOr(taken, to) + amount])
  }

  /** A transfer whose failure is ignored. */
  function TryTransfer(free: Free, frozen: Free, from: Account, to: Account, amount: Balance): Free {
    var r := Transfer(free, frozen, from, to, amount);
    if r.Some? then r.value else free
  }

  // ---------- the cached leader ----------

  function UpdateWinner(infos: map<MarketId, Info>, m: MarketId, o: Report, info: OutcomeInfo): map<MarketId, Info> {
    if m !in infos then infos[m := Info(o, info, Active(0, 0))]
    else if info.sum >= infos[m].cached.sum then
      infos[m := Info(o, OutcomeInfo(info.sum, infos[m].cached.possession), infos[m].status)]
    else infos
  }

  /** Write an outcome and let it compete for the lead. */
  function PutOutcome(s: Store, m: MarketId, o: Report, info: OutcomeInfo): Store {
    s.(infos := UpdateWinner(s.infos, m, o, info),
       outcomes := s.outcomes[m := OutcomesOf(s.outcomes, m)[o := info]])
  }

  // ---------- starting ----------

  function AddItem(s: Store, m: MarketId, market: C.Market, item: InitialItem): Result<Store> {
    var outs := OutcomesOf(s.outcomes, m);
    if !market.Matches(item.outcome) then Err(OutcomeMismatch)
    else if item.outcome in outs then
      var info := outs[item.outcome];
      if !info.possession.Shared? then Err(SharedPossessionRequired)
      else if |info.possession.owners| >= s.cfg.maxOwners then Err(MaxOwnersReached)
      else Ok(PutOutcome(s, m, item.outcome,
                         OutcomeInfo(info.sum + item.amount, Shared(info.possession.owners + [item.owner]))))
    else if s.cfg.maxOwners == 0 then Ok(s)
    else Ok(PutOutcome(s, m, item.outcome, OutcomeInfo(item.amount, Shared([item.owner]))))
  }

  /** The state after the first `n` initial items. */
  function AddItems(s: Store, m: MarketId, market: C.Market, items: seq<InitialItem>, n: nat): Result<Store>
    requires n <= |items|
  {
    if n == 0 then Ok(s) else
      match AddItems(s, m, market, items, n - 1)
      case Err(e) => Err(e)
      case Ok(s') => AddItem(s', m, market, items[n - 1])
  }

  function StartGlobalDispute(s: Store, m: MarketId, items: seq<InitialItem>): Result<Store> {
    if m !in s.markets then Err(MarketNotFound)
    else if m in s.infos then Err(GlobalDisputeAlreadyExists)
    else
      match AddItems(s, m, s.markets[m], items, |items|)
      case Err(e) => Err(e)
      case Ok(s') => Launch(s', m)
  }

  /** Schedule the end of the voting and open the dispute. */
  function Launch(s: Store, m: MarketId): Result<Store> {
    match AddEntry(s.cfg.cacheSize, s.schedule, m, VoteEnd(s))
    case None => Err(StorageOverflow)
    case Some(schedule) =>
      if m !in s.infos then Err(GlobalDisputeNotFound) else Ok(Activate(s, m).(schedule := schedule))
  }

  /** When a dispute started now would end. */
  function VoteEnd(s: Store): Block {
    s.now + s.cfg.addOutcomePeriod + s.cfg.votingPeriod
  }

  function Activate(s: Store, m: MarketId): Store
    requires m in s.infos
  {
    s.(infos := s.infos[m := s.infos[m].(status := Active(s.now + s.cfg.addOutcomePeriod, VoteEnd(s)))])
  }

  // ---------- adding outcomes and voting ----------

  function AddVoteOutcome(s: Store, who: Account, m: MarketId, o: Report): Result<Store> {
    if m !in s.markets then Err(MarketNotFound)
    else if !s.markets[m].Matches(o) then Err(OutcomeMismatch)
    else if m !in s.infos then Err(GlobalDisputeNotFound)
    else if !s.infos[m].status.Active? then Err(InvalidGlobalDisputeStatus)
    else if s.now > s.infos[m].status.addEnd then Err(AddOutcomePeriodIsOver)
    else if o in OutcomesOf(s.outcomes, m) then Err(OutcomeAlreadyExists)
    else
      match Transfer(s.free, s.frozen, who, RewardPot(m), s.cfg.outcomeFee)
      case None => Err(InsufficientBalance)
      case Some(free) =>
        Ok(PutOutcome(s.(free := free), m, o, OutcomeInfo(s.cfg.outcomeFee, Paid(who, s.cfg.outcomeFee))))
  }

  function LockKeys(list: LockList): (r: seq<Key>)
    ensures |r| == |list|
    ensures forall i :: 0 <= i < |list| ==> r[i] == (list[i].0, 0)
  {
    seq(|list|, i requires 0 <= i < |list| => (list[i].0, 0))
  }

  /** The lock list and the total locked for the market after one more vote. */
  function AddLock(cfg: Config, list: LockList, m: MarketId, amount: Balance, free: Balance)
    : Result<(LockList, Balance)>
  {
    match Search(LockKeys(list), (m, 0))
    case Found(i) =>
      var total := amount + list[i].1;
      if total > free then Err(InsufficientAmount) else Ok((list[i := (list[i].0, total)], total))
    case Missing(i) =>
      if |list| >= cfg.maxVotes then Err(MaxVotesReached) else Ok((list[..i] + [(m, amount)] + list[i..], amount))
  }

  function WriteVote(s: Store, voter: Account, m: MarketId, o: Report, info: OutcomeInfo, list: LockList,
                     total: Balance): Store {
    PutOutcome(s, m, o, info).(locks := s.locks[voter := list],
                               frozen := s.frozen[voter := Max(GetOr(s.frozen, voter), total)])
  }

  function VoteOnOutcome(s: Store, voter: Account, m: MarketId, o: Report, amount: Balance): Result<Store> {
    if amount > GetOr(s.free, voter) then Err(InsufficientAmount)
    else if amount < s.cfg.minVoteAmount then Err(AmountTooLow)
    else if m !in s.infos then Err(GlobalDisputeNotFound)
    else if !s.infos[m].status.Active? then Err(InvalidGlobalDisputeStatus)
    else if !(s.infos[m].status.addEnd < s.now <= s.infos[m].status.voteEnd) then Err(NotInGdVotingPeriod)
    else if o !in OutcomesOf(s.outcomes, m) then Err(OutcomeDoesNotExist)
    else
      match AddLock(s.cfg, LocksOf(s.locks, voter), m, amount, GetOr(s.free, voter))
      case Err(e) => Err(e)
      case Ok((list, total)) =>
        var info := OutcomesOf(s.outcomes, m)[o];
        Ok(WriteVote(s, voter, m, o, OutcomeInfo(info.sum + amount, info.possession), list, total))
  }

  // ---------- unlocking ----------

  /** Locks on unresolved disputes stay, in order. */
  function Retained(s: Store, list: LockList): LockList {
    if |list| == 0 then []
    else if IsActive(s, list[|list| - 1].0) then Retained(s, list[..|list| - 1]) + [list[|list| - 1]]
    else Retained(s, list[..|list| - 1])
  }

  function MaxLock(list: LockList): Balance {
    if |list| == 0 then 0 else Max(MaxLock(list[..|list| - 1]), list[|list| - 1].1)
  }

  function UnlockVoteBalance(s: Store, voter: Account): Store {
    var list := Retained(s, LocksOf(s.locks, voter));
    s.(locks := s.locks[voter := list], frozen := s.frozen[voter := MaxLock(list)])
  }

  // ---------- ending ----------

  function DetermineVotingWinner(s: Store, m: MarketId): (Store, Option<Report>) {
    if m in s.infos then
      (s.(infos := s.infos[m := s.infos[m].(status := Finished)]), Some(s.infos[m].winner))
    else (s, None)
  }

  function DestroyGlobalDispute(s: Store, m: MarketId): Result<Store> {
    if m !in s.infos then Err(GlobalDisputeNotFound)
    else if s.infos[m].status.Active? then
      Ok(s.(infos := s.infos[m := s.infos[m].(status := Destroyed)],
            schedule := RemoveEntry(s.schedule, m, s.infos[m].status.voteEnd)))
    else Ok(s)
  }

  /** The keys one call drains, given the order in which the storage yields them. */
  function Batch(cfg: Config, order: seq<Report>): seq<Report> {
    order[..Min(cfg.removeKeysLimit, |order|)]
  }

  // ---------- purging and rewarding ----------

  /** Drop the first `n` keys of a batch. */
  function Drained(outs: Outcomes, batch: seq<Report>, n: nat): Outcomes
    requires n <= |batch|
  {
    if n == 0 then outs else Drained(outs, batch, n - 1) - {batch[n - 1]}
  }

  /** The winning outcome's own record moves into the dispute's info before it could be drained. */
  function SaveWinner(s: Store, m: MarketId): Store
    requires m in s.infos
  {
    var w := s.infos[m].winner;
    var outs := OutcomesOf(s.outcomes, m);
    if w in outs then
      s.(infos := s.infos[m := s.infos[m].(cached := outs[w])], outcomes := s.outcomes[m := outs - {w}])
    else s
  }

  function PurgeOutcomes(s: Store, m: MarketId, order: seq<Report>): Result<Store> {
    if m !in s.infos then Err(GlobalDisputeNotFound)
    else if !s.infos[m].status.Finished? then Err(UnfinishedGlobalDispute)
    else
      var s' := SaveWinner(s, m);
      var batch := Batch(s.cfg, order);
      Ok(s'.(outcomes := s'.outcomes[m := Drained(OutcomesOf(s'.outcomes, m), batch, |batch|)]))
  }

  /** Pay the first `n` owners an equal part each, clamped to what is left. */
  function PayOwners(free: Free, frozen: Free, pot: Account, owners: seq<Account>, each: Balance, reward: Balance,
                     n: nat): (Free, Balance)
    requires n <= |owners|
  {
    if n == 0 then (free, reward) else
      var before := PayOwners(free, frozen, pot, owners, each, reward, n - 1);
      var part := Min(before.1, each);
      (TryTransfer(before.0, frozen, pot, owners[n - 1], part), before.1 - part)
  }

  function RewardOutcomeOwner(s: Store, m: MarketId): Result<Store> {
    if OutcomesOf(s.outcomes, m) != map[] then Err(OutcomesNotFullyCleaned)
    else if m !in s.infos then Err(GlobalDisputeNotFound)
    else if !s.infos[m].status.Finished? then Err(UnfinishedGlobalDispute)
    else
      var pot := RewardPot(m);
      var reward := GetOr(s.free, pot);
      if reward == 0 then Err(NoFundsToReward) else
        match s.infos[m].cached.possession
        case Paid(owner, _) => Ok(s.(free := TryTransfer(s.free, s.frozen, pot, owner, reward)))
        case Shared(owners) =>
          if |owners| == 0 then Ok(s)
          else Ok(s.(free := PayOwners(s.free, s.frozen, pot, owners, reward / |owners|, reward, |owners|).0))
  }

  // ---------- refunding ----------

  /** Balances and outcomes during a batch of refunds. */
  datatype Refund = Refund(free: Free, outs: Outcomes)

  function RefundOne(r: Refund, frozen: Free, m: MarketId, o: Report): Refund {
    if o !in r.outs then r else
      match r.outs[o].possession
      case Paid(owner, fee) => Refund(TryTransfer(r.free, frozen, RewardPot(m), owner, fee), r.outs - {o})
      case Shared(_) => Refund(r.free, r.outs - {o})
  }

  function RefundFirst(r: Refund, frozen: Free, m: MarketId, batch: seq<Report>, n: nat): Refund
    requires n <= |batch|
  {
    if n == 0 then r else RefundOne(RefundFirst(r, frozen, m, batch, n - 1), frozen, m, batch[n - 1])
  }

  function RefundVoteFees(s: Store, m: MarketId, order: seq<Report>): Result<Store> {
    if m !in s.infos then Err(GlobalDisputeNotFound)
    else if !s.infos[m].status.Destroyed? then Err(GlobalDisputeNotDestroyed)
    else
      var batch := Batch(s.cfg, order);
      var r := RefundFirst(Refund(s.free, OutcomesOf(s.outcomes, m)), s.frozen, m, batch, |batch|);
      Ok(s.(free := r.free, outcomes := s.outcomes[m := r.outs]))
  }

  // ---------- steps and runs ----------

  datatype Step =
    | NextBlock
    | Start(market: MarketId, items: seq<InitialItem>)
    | AddOutcome(who: Account, market: MarketId, outcome: Report)
    | Vote(who: Account, market: MarketId, outcome: Report, amount: Balance)
    | Unlock(who: Account)
    | Determine(market: MarketId)
    | Destroy(market: MarketId)
    | Purge(market: MarketId, order: seq<Report>)
    | Reward(market: MarketId)
    | RefundFees(market: MarketId, order: seq<Report>)
    // what other pallets do
    | SetBalance(who: Account, amount: Balance)
    | SetMarket(market: MarketId, record: C.Market)
    | SetSchedule(schedule: Schedule)

  function Try(s: Store, step: Step): Result<Store> {
    match step
    case NextBlock => Ok(s.(now := s.now + 1))
    case Start(m, items) => StartGlobalDispute(s, m, items)
    case AddOutcome(who, m, o) => AddVoteOutcome(s, who, m, o)
    case Vote(who, m, o, amount) => VoteOnOutcome(s, who, m, o, amount)
    case Unlock(who) => Ok(UnlockVoteBalance(s, who))
    case Determine(m) => Ok(DetermineVotingWinner(s, m).0)
    case Destroy(m) => DestroyGlobalDispute(s, m)
    case Purge(m, order) => PurgeOutcomes(s, m, order)
    case Reward(m) => RewardOutcomeOwner(s, m)
    case RefundFees(m, order) => RefundVoteFees(s, m, order)
    case SetBalance(who, amount) => Ok(s.(free := s.free[who := amount]))
    case SetMarket(m, record) => Ok(s.(markets := s.markets[m := record]))
    case SetSchedule(schedule) => Ok(s.(schedule := schedule))
  }

  /** A failing call leaves no trace. */
  function Apply(s: Store, step: Step): Store {
    match Try(s, step)
    case Ok(s') => s'
    case Err(_) => s
  }

  /** Nobody but the pallet acts for a reward account, initial owners are users, and a winner is determined only
      while the dispute is active. */
  predicate Proper(s: Store, step: Step) {
    match step
    case Start(_, items) => forall i :: 0 <= i < |items| ==> items[i].owner.User?
    case AddOutcome(who, _, _) => who.User?
    case Vote(who, _, _, _) => who.User?
    case Unlock(who) => who.User?
    case SetBalance(who, _) => who.User?
    case Determine(m) => m in s.infos ==> s.infos[m].status.Active?
    case _ => true
  }

  function Genesis(cfg: Config, free: Free, markets: map<MarketId, C.Market>): Store {
    Store(cfg, 0, map[], map[], map[], map[], free, markets, map[])
  }

  function Run(s: Store, steps: seq<Step>, n: nat): Store
    requires n <= |steps|
  {
    if n == 0 then s else Apply(Run(s, steps, n - 1), steps[n - 1])
  }

  predicate ProperRun(s: Store, steps: seq<Step>, n: nat)
    requires n <= |steps|
  {
    n == 0 || (ProperRun(s, steps, n - 1) && Proper(Run(s, steps, n - 1), steps[n - 1]))
  }
}
