/** The entities of the court: participants, pool items, votes, draws, courts and markets. */
module CourtTypes {
  import opened Collections

  type AccountId = nat
  type Balance = nat
  type Block = nat
  type CourtId = nat
  type MarketId = nat
  type Digest = nat

  datatype OutcomeReport = Categorical(index: nat) | Scalar(value: nat)

  datatype VoteItem = Outcome(report: OutcomeReport) | Binary(answer: bool)

  datatype VoteItemType = OutcomeItems | BinaryItems

  datatype Participant = Participant(
    stake: Balance,
    activeLock: Balance,
    prepareExitAt: Option<Block>,
    delegations: Option<seq<AccountId>>)

  datatype PoolItem = PoolItem(
    stake: Balance,
    who: AccountId,
    consumed: Balance,
    joinedAt: Block,
    uneligibleIndex: nat,
    uneligibleStake: Balance)

  datatype Vote =
    | Delegated(stakes: seq<(AccountId, Balance)>)
    | Drawn
    | Secret(commitment: Digest)
    | Revealed(commitment: Digest, item: VoteItem, salt: Digest)
    | Denounced(commitment: Digest, item: VoteItem, salt: Digest)

  datatype Draw = Draw(who: AccountId, weight: nat, vote: Vote, slashable: Balance)

  datatype CourtStatus = Open | Closed(winner: VoteItem) | Reassigned

  datatype Appeal = Appeal(backer: AccountId, bond: Balance, appealed: VoteItem)

  /** The last block of each phase of a round. */
  datatype RoundTiming = RoundTiming(preVote: Block, vote: Block, aggregation: Block, appeal: Block)

  datatype Court = Court(
    status: CourtStatus,
    appeals: seq<Appeal>,
    roundEnds: RoundTiming,
    voteItemType: VoteItemType)

  datatype MarketType = CategoricalMarket(categories: nat) | ScalarMarket

  datatype Market = Market(
    marketType: MarketType,
    disputed: bool,
    usesCourt: bool,
    report: Option<OutcomeReport>,
    reportedAt: Block,
    disputeDuration: Block)
  {
    predicate Matches(o: OutcomeReport) {
      match o
      case Categorical(i) => marketType.CategoricalMarket? && i < marketType.categories
      case Scalar(_) => marketType.ScalarMarket?
    }
  }

  /** The constants of the runtime, the commitment hash and the rounded shares of a reward and of a mint. */
  datatype Config = Config(
    minJurorStake: Balance,
    maxCourtParticipants: nat,
    maxDelegations: nat,
    maxSelectedDraws: nat,
    maxAppeals: nat,
    appealBond: Balance,
    votePeriod: Block,
    aggregationPeriod: Block,
    appealPeriod: Block,
    inflationPeriod: Block,
    requestInterval: Block,
    blocksPerYear: Block,
    cacheSize: nat,
    treasury: AccountId,
    rewardPot: CourtId -> AccountId,
    hash: (AccountId, VoteItem, Digest) -> Digest,
    share: (Balance, Balance, Balance) -> Balance,
    mintShare: (Balance, Balance, Balance) -> Balance)
  {
    /** The configuration the pallet's documentation asks for. */
    predicate Sound() {
      && minJurorStake > 0
      && maxCourtParticipants > 0
      && maxAppeals > 0
      && inflationPeriod > 0
      && requestInterval > 0
      && maxSelectedDraws >= 2 * NecessaryDrawsWeight(maxAppeals - 1)
    }
  }

  datatype CourtError =
    | JurorDoesNotExist | MarketNotFound | MarketDoesNotHaveCourtMechanism | MarketIsNotDisputed
    | CallerIsNotACourtParticipant | VoteAlreadyRevealed | CommitmentHashMismatch | CourtNotFound
    | NotInVotingPeriod | NotInAggregationPeriod | MaxAppealsReached | NotInAppealPeriod
    | InvalidVoteState | BelowMinJurorStake | MaxCourtParticipantsReached | AlreadyPreparedExit
    | JurorNotDrawn | JurorDidNotVote | VoteAlreadyDenounced | CallerDenouncedItself | CourtNotClosed
    | CourtAlreadyReassigned | NotEnoughJurorsAndDelegatorsStake | MarketReportNotFound
    | AmountExceedsBalance | AmountBelowLastJoin | AmountBelowLowestJuror | CourtParticipantTwiceInPool
    | CallerNotInSelectedDraws | AppealBondExceedsBalance | PrematureExit | PrepareExitAtNotPresent
    | MaxDelegationsReached | JurorDelegated | SelfDelegationNotAllowed | IdenticalDelegationsNotAllowed
    | NoDelegations | DelegatedToInvalidJuror | MarketIdToCourtIdNotFound | CourtIdToMarketIdNotFound
    | InvalidVoteItemForOutcomeCourt | InvalidVoteItemForBinaryCourt | WinnerVoteItemIsNoOutcome
    | OutcomeMismatch | VoteItemIsNoOutcome | InflationPeriodIsZero | Underflow | StorageOverflow
    | IndexOutOfRange | AppealedVoteItemIsNoOutcome

  datatype Result<+T> = Ok(value: T) | Err(error: CourtError)

  const INITIAL_DRAWS_NUM: nat := 31

  /** Draws wanted for a round: 31, 63, 127, 255, ... */
  function NecessaryDrawsWeight(appeals: nat): nat {
    Pow2(appeals) * INITIAL_DRAWS_NUM + (Pow2(appeals) - 1)
  }

  lemma {:induction false} NecessaryDrawsWeightGrows(m: nat, n: nat)
    requires m <= n
    ensures NecessaryDrawsWeight(m) <= NecessaryDrawsWeight(n)
    decreases n
  {
    if m < n {
      NecessaryDrawsWeightGrows(m, n - 1);
    }
  }
}
