/** Joining, delegating and leaving: the stake-sorted juror pool beside the participants map. */
module JurorPool {
  import opened Collections
  import opened SortedSearch
  import opened CourtTypes

  datatype Registry = Registry(
    pool: seq<PoolItem>,
    participants: map<AccountId, Participant>,
    locks: map<AccountId, Balance>)

  // ---------- the pool as a sorted sequence ----------

  function KeyOf(item: PoolItem): Key {
    (item.stake, item.who)
  }

  function Keys(pool: seq<PoolItem>): (r: seq<Key>)
    ensures |r| == |pool|
    ensures forall i :: 0 <= i < |pool| ==> r[i] == KeyOf(pool[i])
  {
    seq(|pool|, i requires 0 <= i < |pool| => KeyOf(pool[i]))
  }

  predicate StrictlySorted(pool: seq<PoolItem>) {
    forall i, j :: 0 <= i < j < |pool| ==> Less(KeyOf(pool[i]), KeyOf(pool[j]))
  }

  predicate OncePerAccount(pool: seq<PoolItem>) {
    forall i, j :: 0 <= i < j < |pool| ==> pool[i].who != pool[j].who
  }

  predicate InPool(pool: seq<PoolItem>, who: AccountId) {
    exists i :: 0 <= i < |pool| && pool[i].who == who
  }

  function RemoveAt<T>(s: seq<T>, i: nat): seq<T>
    requires i < |s|
  {
    s[..i] + s[i + 1..]
  }

  function InsertAt<T>(s: seq<T>, i: nat, x: T): seq<T>
    requires i <= |s|
  {
    s[..i] + [x] + s[i..]
  }

  /** Position of the pool item with this stake and account, by binary search. */
  function GetPoolItem(pool: seq<PoolItem>, stake: Balance, who: AccountId): (r: Option<nat>)
    ensures r.Some? ==> r.value < |pool| && KeyOf(pool[r.value]) == (stake, who)
  {
    match Search(Keys(pool), (stake, who))
    case Found(i) => Some(i)
    case Missing(_) => None
  }

  // ---------- what every operation keeps ----------

  /** A pool item agrees with the participant it stands for. */
  predicate Agrees(cfg: Config, item: PoolItem, p: Participant) {
    && p.stake == item.stake
    && p.prepareExitAt.None?
    && p.activeLock <= item.consumed <= item.stake
    && cfg.minJurorStake <= item.stake
  }

  predicate PoolAgrees(cfg: Config, pool: seq<PoolItem>, participants: map<AccountId, Participant>) {
    forall i :: 0 <= i < |pool| ==>
      pool[i].who in participants && Agrees(cfg, pool[i], participants[pool[i].who])
  }

  predicate Distinct<T(==)>(s: seq<T>) {
    forall i, j :: 0 <= i < j < |s| ==> s[i] != s[j]
  }

  predicate DelegationsOk(cfg: Config, who: AccountId, delegations: Option<seq<AccountId>>) {
    delegations.Some? ==>
      && 0 < |delegations.value| <= cfg.maxDelegations
      && Increasing(delegations.value)
      && who !in delegations.value
  }

  predicate ParticipantOk(cfg: Config, who: AccountId, p: Participant) {
    && p.activeLock <= p.stake
    && DelegationsOk(cfg, who, p.delegations)
  }

  predicate ParticipantsOk(cfg: Config, participants: map<AccountId, Participant>) {
    forall a :: a in participants ==> ParticipantOk(cfg, a, participants[a])
  }

  predicate PoolOk(cfg: Config, pool: seq<PoolItem>) {
    && |pool| <= cfg.maxCourtParticipants
    && StrictlySorted(pool)
    && OncePerAccount(pool)
  }

  function StakeOf(participants: map<AccountId, Participant>, who: AccountId): Balance {
    if who in participants then participants[who].stake else 0
  }

  function Lock(participants: map<AccountId, Participant>, a: AccountId): Balance {
    if a in participants then participants[a].activeLock else 0
  }

  /** The currency lock of the court mirrors the recorded stake. */
  ghost predicate LocksMirrorStakes(reg: Registry) {
    forall a :: GetOr(reg.locks, a) == StakeOf(reg.participants, a)
  }

  ghost predicate RegistryOk(cfg: Config, reg: Registry) {
    && PoolOk(cfg, reg.pool)
    && PoolAgrees(cfg, reg.pool, reg.participants)
    && ParticipantsOk(cfg, reg.participants)
    && LocksMirrorStakes(reg)
  }

  /** Searching by recorded stake and account finds a participant iff a scan by account would. */
  lemma LookupMatchesScan(cfg: Config, reg: Registry, who: AccountId)
    requires RegistryOk(cfg, reg)
    requires who in reg.participants
    ensures GetPoolItem(reg.pool, reg.participants[who].stake, who).Some? <==> InPool(reg.pool, who)
    ensures forall i :: 0 <= i < |reg.pool| && reg.pool[i].who == who ==>
              GetPoolItem(reg.pool, reg.participants[who].stake, who) == Some(i)
  {
    var keys := Keys(reg.pool);
    var key := (reg.participants[who].stake, who);
    assert Ascending(keys);
    forall i | 0 <= i < |reg.pool| && reg.pool[i].who == who
      ensures Search(keys, key) == Found(i)
    {
      assert keys[i] == key;
    }
  }

  // ---------- joining ----------

  function RemoveWeakestIfFull(cfg: Config, pool: seq<PoolItem>, amount: Balance): (r: Result<seq<PoolItem>>)
  {
    if |pool| >= cfg.maxCourtParticipants then
      var lowestStake := if |pool| > 0 then pool[0].stake else 0;
      if amount <= lowestStake then Err(AmountBelowLowestJuror)
      else if |pool| == 0 then Err(IndexOutOfRange)
      else Ok(pool[1..])
    else Ok(pool)
  }

  /** The pool without the caller or the weakest item, the consumed stake to carry over, and the
      caller's previous item. */
  datatype Vacated = Vacated(pool: seq<PoolItem>, consumed: Balance, previous: Option<PoolItem>)

  function HandleExistingParticipant(cfg: Config, pool: seq<PoolItem>, who: AccountId, amount: Balance, p: Participant)
    : Result<Vacated>
  {
    if amount < p.stake then Err(AmountBelowLastJoin) else
      match GetPoolItem(pool, p.stake, who)
      case Some(i) => Ok(Vacated(RemoveAt(pool, i), pool[i].consumed, Some(pool[i])))
      case None =>
        match RemoveWeakestIfFull(cfg, pool, amount)
        case Err(e) => Err(e)
        case Ok(rest) => Ok(Vacated(rest, p.activeLock, None))
  }

  function Vacate(cfg: Config, reg: Registry, who: AccountId, amount: Balance): Result<Vacated> {
    if who in reg.participants then
      HandleExistingParticipant(cfg, reg.pool, who, amount, reg.participants[who])
    else
      match RemoveWeakestIfFull(cfg, reg.pool, amount)
      case Err(e) => Err(e)
      case Ok(rest) => Ok(Vacated(rest, 0, None))
  }

  function UneligibleStake(previous: Option<PoolItem>, amount: Balance, periodIndex: nat): Result<Balance> {
    match previous
    case None => Ok(amount)
    case Some(item) =>
      if amount < item.stake then Err(Underflow)
      else if periodIndex != item.uneligibleIndex then Ok(amount - item.stake)
      else Ok(item.uneligibleStake + (amount - item.stake))
  }

  function InitialJoinedAt(previous: Option<PoolItem>, now: Block): Block {
    match previous
    case Some(item) => item.joinedAt
    case None => now
  }

  /** Insert the new item at its sorted place and write the participant and the currency lock. */
  function Admit(cfg: Config, reg: Registry, pool: seq<PoolItem>, item: PoolItem, delegations: Option<seq<AccountId>>)
    : Result<Registry>
  {
    match Search(Keys(pool), KeyOf(item))
    case Found(_) => Err(CourtParticipantTwiceInPool)
    case Missing(i) =>
      if |pool| >= cfg.maxCourtParticipants then Err(MaxCourtParticipantsReached) else
        var activeLock := if item.who in reg.participants then reg.participants[item.who].activeLock else 0;
        Ok(Registry(
          InsertAt(pool, i, item),
          reg.participants[item.who := Participant(item.stake, activeLock, None, delegations)],
          reg.locks[item.who := item.stake]))
  }

  /** The item under which the caller enters the pool. */
  function NewItem(cfg: Config, v: Vacated, who: AccountId, amount: Balance, now: Block): Result<PoolItem> {
    if cfg.inflationPeriod == 0 then Err(InflationPeriodIsZero) else
      var periodIndex := now / cfg.inflationPeriod;
      match UneligibleStake(v.previous, amount, periodIndex)
      case Err(e) => Err(e)
      case Ok(uneligible) =>
        Ok(PoolItem(amount, who, v.consumed, InitialJoinedAt(v.previous, now), periodIndex, uneligible))
  }

  function DoJoinCourt(cfg: Config, reg: Registry, who: AccountId, amount: Balance,
                       delegations: Option<seq<AccountId>>, free: Balance, now: Block): Result<Registry>
  {
    if amount < cfg.minJurorStake then Err(BelowMinJurorStake)
    else if amount > free then Err(AmountExceedsBalance)
    else
      match Vacate(cfg, reg, who, amount)
      case Err(e) => Err(e)
      case Ok(v) =>
        match NewItem(cfg, v, who, amount, now)
        case Err(e) => Err(e)
        case Ok(item) => Admit(cfg, reg, v.pool, item, delegations)
  }

  function Elements(s: seq<AccountId>): set<AccountId> {
    set x | x in s
  }

  predicate ValidDelegate(reg: Registry, juror: AccountId) {
    && juror in reg.participants
    && GetPoolItem(reg.pool, reg.participants[juror].stake, juror).Some?
    && reg.participants[juror].delegations.None?
  }

  function DoDelegate(cfg: Config, reg: Registry, who: AccountId, amount: Balance,
                      delegations: seq<AccountId>, free: Balance, now: Block): Result<Registry>
  {
    if |delegations| == 0 then Err(NoDelegations)
    else if |delegations| > cfg.maxDelegations then Err(MaxDelegationsReached)
    else if exists j :: j in delegations && !ValidDelegate(reg, j) then Err(DelegatedToInvalidJuror)
    else
      var sorted := SortedSeq(Elements(delegations));
      if |sorted| < |delegations| then Err(IdenticalDelegationsNotAllowed)
      else if who in sorted then Err(SelfDelegationNotAllowed)
      else DoJoinCourt(cfg, reg, who, amount, Some(sorted), free, now)
  }

  lemma DelegateIsJoin(cfg: Config, reg: Registry, who: AccountId, amount: Balance, delegations: seq<AccountId>,
                       free: Balance, now: Block)
    requires DoDelegate(cfg, reg, who, amount, delegations, free, now).Ok?
    ensures DoDelegate(cfg, reg, who, amount, delegations, free, now) ==
            DoJoinCourt(cfg, reg, who, amount, Some(SortedSeq(Elements(delegations))), free, now)
  {}

  // ---------- leaving ----------

  function DoPrepareExit(reg: Registry, who: AccountId, now: Block): Result<Registry> {
    if who !in reg.participants then Err(JurorDoesNotExist) else
      var p := reg.participants[who];
      if p.prepareExitAt.Some? then Err(AlreadyPreparedExit) else
        var pool :=
          match GetPoolItem(reg.pool, p.stake, who)
          case Some(i) => RemoveAt(reg.pool, i)
          case None => reg.pool;
        Ok(reg.(pool := pool, participants := reg.participants[who := p.(prepareExitAt := Some(now))]))
  }

  function DoExit(cfg: Config, reg: Registry, who: AccountId, now: Block): Result<Registry> {
    if who !in reg.participants then Err(JurorDoesNotExist) else
      var p := reg.participants[who];
      if p.prepareExitAt.None? then Err(PrepareExitAtNotPresent)
      else if Minus(now, p.prepareExitAt.value) < cfg.inflationPeriod then Err(PrematureExit)
      else if p.activeLock == 0 then
        Ok(reg.(participants := reg.participants - {who}, locks := reg.locks[who := 0]))
      else
        Ok(reg.(participants := reg.participants[who := p.(stake := p.activeLock)],
                locks := reg.locks[who := p.activeLock]))
  }

  // ---------- preservation ----------

  /** Removing one item keeps everything the pool promises. */
  lemma RemoveAtKeepsPool(cfg: Config, pool: seq<PoolItem>, participants: map<AccountId, Participant>, i: nat)
    requires PoolOk(cfg, pool) && PoolAgrees(cfg, pool, participants)
    requires i < |pool|
    ensures PoolOk(cfg, RemoveAt(pool, i)) && PoolAgrees(cfg, RemoveAt(pool, i), participants)
    ensures !InPool(RemoveAt(pool, i), pool[i].who)
    ensures forall a :: a != pool[i].who ==> (InPool(pool, a) <==> InPool(RemoveAt(pool, i), a))
  {
    var rest := RemoveAt(pool, i);
    assert forall k :: 0 <= k < |rest| ==> rest[k] == if k < i then pool[k] else pool[k + 1];
    forall a | a != pool[i].who && InPool(pool, a) ensures InPool(rest, a) {
      var k :| 0 <= k < |pool| && pool[k].who == a;
      assert rest[if k < i then k else k - 1].who == a;
    }
  }

  /** A caller's place is free, nothing else about the pool has changed, and there is room. */
  lemma VacateLeavesRoom(cfg: Config, reg: Registry, who: AccountId, amount: Balance)
    requires cfg.Sound() && RegistryOk(cfg, reg)
    requires Vacate(cfg, reg, who, amount).Ok?
    ensures var v := Vacate(cfg, reg, who, amount).value;
            && PoolOk(cfg, v.pool) && PoolAgrees(cfg, v.pool, reg.participants)
            && !InPool(v.pool, who)
            && |v.pool| < cfg.maxCourtParticipants
            && v.consumed <= amount
            && (who in reg.participants ==>
                  reg.participants[who].stake <= amount && reg.participants[who].activeLock <= v.consumed)
            && (v.previous.Some? ==> v.previous.value.stake <= amount && v.previous.value in reg.pool)
  {
    if who in reg.participants {
      LookupMatchesScan(cfg, reg, who);
      var found := GetPoolItem(reg.pool, reg.participants[who].stake, who);
      if found.Some? {
        RemoveAtKeepsPool(cfg, reg.pool, reg.participants, found.value);
      }
    }
    if |reg.pool| >= cfg.maxCourtParticipants {
      RemoveAtKeepsPool(cfg, reg.pool, reg.participants, 0);
      assert RemoveAt(reg.pool, 0) == reg.pool[1..];
    }
  }

  /** The two "should never happen" branches of a join, and the underflow, never happen. */
  lemma JoinNeverHitsUnreachableBranches(cfg: Config, reg: Registry, who: AccountId, amount: Balance,
                                         delegations: Option<seq<AccountId>>, free: Balance, now: Block)
    requires cfg.Sound() && RegistryOk(cfg, reg)
    ensures var r := DoJoinCourt(cfg, reg, who, amount, delegations, free, now);
            r.Err? ==> r.error !in {CourtParticipantTwiceInPool, MaxCourtParticipantsReached, Underflow,
                                    InflationPeriodIsZero, IndexOutOfRange}
  {
    if amount >= cfg.minJurorStake && amount <= free && Vacate(cfg, reg, who, amount).Ok? {
      VacateLeavesRoom(cfg, reg, who, amount);
    }
  }

  /** Neither do they for a delegation. */
  lemma DelegateNeverHitsUnreachableBranches(cfg: Config, reg: Registry, who: AccountId, amount: Balance,
                                             delegations: seq<AccountId>, free: Balance, now: Block)
    requires cfg.Sound() && RegistryOk(cfg, reg)
    ensures var r := DoDelegate(cfg, reg, who, amount, delegations, free, now);
            r.Err? ==> r.error !in {CourtParticipantTwiceInPool, MaxCourtParticipantsReached, Underflow,
                                    InflationPeriodIsZero, IndexOutOfRange}
  {
    var r := DoDelegate(cfg, reg, who, amount, delegations, free, now);
    DelegateErrs(cfg, reg, who, amount, delegations, free, now);
    JoinNeverHitsUnreachableBranches(cfg, reg, who, amount, Some(SortedSeq(Elements(delegations))), free, now);
  }

  lemma DelegateErrs(cfg: Config, reg: Registry, who: AccountId, amount: Balance,
                     delegations: seq<AccountId>, free: Balance, now: Block)
    ensures var r := DoDelegate(cfg, reg, who, amount, delegations, free, now);
            || r == DoJoinCourt(cfg, reg, who, amount, Some(SortedSeq(Elements(delegations))), free, now)
            || (r.Err? && (r.error.NoDelegations? || r.error.MaxDelegationsReached? ||
                           r.error.DelegatedToInvalidJuror? ||
                           r.error.IdenticalDelegationsNotAllowed? || r.error.SelfDelegationNotAllowed?))
  {
    var join := DoJoinCourt(cfg, reg, who, amount, Some(SortedSeq(Elements(delegations))), free, now);
    assert DoDelegate(cfg, reg, who, amount, delegations, free, now) == join ||
           DoDelegate(cfg, reg, who, amount, delegations, free, now).Err?;
  }

  lemma InsertKeepsOrder(pool: seq<PoolItem>, item: PoolItem, i: nat)
    requires StrictlySorted(pool) && Search(Keys(pool), KeyOf(item)) == Missing(i)
    ensures StrictlySorted(InsertAt(pool, i, item))
  {
    var keys := Keys(pool);
    assert Ascending(keys);
    var grown := InsertAt(pool, i, item);
    forall a, b | 0 <= a < b < |grown| ensures Less(KeyOf(grown[a]), KeyOf(grown[b])) {
      if a == i {
        assert keys[b - 1] == KeyOf(grown[b]);
      } else if b == i {
        assert keys[a] == KeyOf(grown[a]);
      }
    }
  }

  lemma InsertKeepsPool(cfg: Config, pool: seq<PoolItem>, item: PoolItem, participants: map<AccountId, Participant>,
                        p: Participant, i: nat)
    requires PoolOk(cfg, pool) && PoolAgrees(cfg, pool, participants)
    requires |pool| < cfg.maxCourtParticipants && !InPool(pool, item.who)
    requires Search(Keys(pool), KeyOf(item)) == Missing(i)
    requires Agrees(cfg, item, p)
    ensures PoolOk(cfg, InsertAt(pool, i, item))
    ensures PoolAgrees(cfg, InsertAt(pool, i, item), participants[item.who := p])
  {
    InsertKeepsOrder(pool, item, i);
    InsertKeepsAgreement(cfg, pool, item, participants, p, i);
  }

  lemma InsertKeepsAgreement(cfg: Config, pool: seq<PoolItem>, item: PoolItem,
                             participants: map<AccountId, Participant>, p: Participant, i: nat)
    requires OncePerAccount(pool) && PoolAgrees(cfg, pool, participants)
    requires !InPool(pool, item.who) && i <= |pool| && Agrees(cfg, item, p)
    ensures OncePerAccount(InsertAt(pool, i, item))
    ensures PoolAgrees(cfg, InsertAt(pool, i, item), participants[item.who := p])
  {
    var grown := InsertAt(pool, i, item);
    forall k | 0 <= k < |grown|
      ensures grown[k] == if k < i then pool[k] else if k == i then item else pool[k - 1]
    {}
    assert forall k :: 0 <= k < |pool| ==> pool[k].who != item.who;
  }

  lemma AdmitKeepsRegistry(cfg: Config, reg: Registry, pool: seq<PoolItem>, item: PoolItem,
                           delegations: Option<seq<AccountId>>)
    requires RegistryOk(cfg, reg)
    requires PoolOk(cfg, pool) && PoolAgrees(cfg, pool, reg.participants) && !InPool(pool, item.who)
    requires item.consumed <= item.stake && cfg.minJurorStake <= item.stake
    requires item.who in reg.participants ==> reg.participants[item.who].activeLock <= item.consumed
    requires DelegationsOk(cfg, item.who, delegations)
    requires Admit(cfg, reg, pool, item, delegations).Ok?
    ensures RegistryOk(cfg, Admit(cfg, reg, pool, item, delegations).value)
  {
    var reg' := Admit(cfg, reg, pool, item, delegations).value;
    var i := Search(Keys(pool), KeyOf(item)).at;
    InsertKeepsPool(cfg, pool, item, reg.participants, reg'.participants[item.who], i);
    assert forall a :: a != item.who ==>
      GetOr(reg'.locks, a) == GetOr(reg.locks, a) && StakeOf(reg'.participants, a) == StakeOf(reg.participants, a);
  }

  lemma JoinKeepsRegistry(cfg: Config, reg: Registry, who: AccountId, amount: Balance,
                          delegations: Option<seq<AccountId>>, free: Balance, now: Block)
    requires cfg.Sound() && RegistryOk(cfg, reg)
    requires DelegationsOk(cfg, who, delegations)
    requires DoJoinCourt(cfg, reg, who, amount, delegations, free, now).Ok?
    ensures RegistryOk(cfg, DoJoinCourt(cfg, reg, who, amount, delegations, free, now).value)
  {
    VacateLeavesRoom(cfg, reg, who, amount);
    var v := Vacate(cfg, reg, who, amount).value;
    AdmitKeepsRegistry(cfg, reg, v.pool, NewItem(cfg, v, who, amount, now).value, delegations);
  }

  lemma DelegateKeepsRegistry(cfg: Config, reg: Registry, who: AccountId, amount: Balance,
                              delegations: seq<AccountId>, free: Balance, now: Block)
    requires cfg.Sound() && RegistryOk(cfg, reg)
    requires DoDelegate(cfg, reg, who, amount, delegations, free, now).Ok?
    ensures RegistryOk(cfg, DoDelegate(cfg, reg, who, amount, delegations, free, now).value)
  {
    ElementsCardinality(delegations);
    JoinKeepsRegistry(cfg, reg, who, amount, Some(SortedSeq(Elements(delegations))), free, now);
  }

  /** What a successful delegation records: the same delegates, none twice, in ascending order, each of them a juror
      in the pool at that time and none of them the delegator. */
  lemma DelegationsAreRecorded(cfg: Config, reg: Registry, who: AccountId, amount: Balance,
                               delegations: seq<AccountId>, free: Balance, now: Block)
    requires RegistryOk(cfg, reg) && DoDelegate(cfg, reg, who, amount, delegations, free, now).Ok?
    ensures var participants := DoDelegate(cfg, reg, who, amount, delegations, free, now).value.participants;
            && who in participants && participants[who].delegations.Some?
            && var recorded := participants[who].delegations.value;
            && Increasing(recorded) && |recorded| == |delegations| && who !in recorded
            && (forall j :: j in recorded <==> j in delegations)
            && (forall j :: j in recorded ==>
                  InPool(reg.pool, j) && j in reg.participants && reg.participants[j].delegations.None?)
  {
    DelegateIsJoin(cfg, reg, who, amount, delegations, free, now);
    ElementsCardinality(delegations);
    RecordedAsGiven(cfg, reg, who, amount, Some(SortedSeq(Elements(delegations))), free, now);
    forall j | j in delegations
      ensures InPool(reg.pool, j) && j in reg.participants && reg.participants[j].delegations.None?
    {
      assert ValidDelegate(reg, j);
      LookupMatchesScan(cfg, reg, j);
    }
  }

  lemma RecordedAsGiven(cfg: Config, reg: Registry, who: AccountId, amount: Balance,
                        delegations: Option<seq<AccountId>>, free: Balance, now: Block)
    requires DoJoinCourt(cfg, reg, who, amount, delegations, free, now).Ok?
    ensures var participants := DoJoinCourt(cfg, reg, who, amount, delegations, free, now).value.participants;
            who in participants && participants[who].delegations == delegations
  {
    var v := Vacate(cfg, reg, who, amount).value;
    assert Admit(cfg, reg, v.pool, NewItem(cfg, v, who, amount, now).value, delegations).Ok?;
  }

  lemma {:induction false} ElementsCardinality(s: seq<AccountId>)
    ensures |Elements(s)| <= |s|
    ensures |s| > 0 ==> |Elements(s)| > 0
  {
    if |s| > 0 {
      ElementsCardinality(s[1..]);
      assert Elements(s) == Elements(s[1..]) + {s[0]};
    } else {
      assert Elements(s) == {};
    }
  }

  lemma PrepareExitKeepsRegistry(cfg: Config, reg: Registry, who: AccountId, now: Block)
    requires RegistryOk(cfg, reg)
    requires DoPrepareExit(reg, who, now).Ok?
    ensures RegistryOk(cfg, DoPrepareExit(reg, who, now).value)
    ensures !InPool(DoPrepareExit(reg, who, now).value.pool, who)
  {
    LookupMatchesScan(cfg, reg, who);
    var found := GetPoolItem(reg.pool, reg.participants[who].stake, who);
    if found.Some? {
      RemoveAtKeepsPool(cfg, reg.pool, reg.participants, found.value);
      MarkingKeepsRegistry(cfg, reg, RemoveAt(reg.pool, found.value), who, now);
    } else {
      MarkingKeepsRegistry(cfg, reg, reg.pool, who, now);
    }
  }

  /** Marking somebody outside the pool as leaving. */
  lemma MarkingKeepsRegistry(cfg: Config, reg: Registry, pool: seq<PoolItem>, who: AccountId, now: Block)
    requires RegistryOk(cfg, reg) && who in reg.participants
    requires PoolOk(cfg, pool) && PoolAgrees(cfg, pool, reg.participants) && !InPool(pool, who)
    ensures RegistryOk(cfg, Registry(pool, reg.participants[who := reg.participants[who].(prepareExitAt := Some(now))],
                                     reg.locks))
  {
    assert forall i :: 0 <= i < |pool| ==> pool[i].who != who;
  }

  lemma ExitKeepsRegistry(cfg: Config, reg: Registry, who: AccountId, now: Block)
    requires RegistryOk(cfg, reg)
    requires DoExit(cfg, reg, who, now).Ok?
    ensures RegistryOk(cfg, DoExit(cfg, reg, who, now).value)
  {
    var reg' := DoExit(cfg, reg, who, now).value;
    assert forall i :: 0 <= i < |reg.pool| ==> reg.pool[i].who != who;
    assert forall a :: a != who ==> GetOr(reg'.locks, a) == GetOr(reg.locks, a);
  }

  lemma NewcomerJoins(cfg: Config, reg: Registry, who: AccountId, amount: Balance, delegations: Option<seq<AccountId>>,
                      free: Balance, now: Block)
    returns (i: nat, item: PoolItem)
    requires cfg.Sound() && RegistryOk(cfg, reg)
    requires who !in reg.participants && |reg.pool| < cfg.maxCourtParticipants
    requires cfg.minJurorStake <= amount <= free
    ensures i <= |reg.pool| && item.who == who && item.stake == amount && item.consumed == 0
    ensures DoJoinCourt(cfg, reg, who, amount, delegations, free, now) ==
            Ok(Registry(InsertAt(reg.pool, i, item),
                        reg.participants[who := Participant(amount, 0, None, delegations)],
                        reg.locks[who := amount]))
  {
    JoinNeverHitsUnreachableBranches(cfg, reg, who, amount, delegations, free, now);
    var v := Vacate(cfg, reg, who, amount).value;
    item := NewItem(cfg, v, who, amount, now).value;
    i := Search(Keys(reg.pool), (amount, who)).at;
  }

  /** Preparing to exit takes an inserted item out again. */
  lemma PrepareExitTakesItemOut(cfg: Config, reg: Registry, reg1: Registry, i: nat, item: PoolItem, amount: Balance,
                                now: Block)
    requires RegistryOk(cfg, reg1) && i <= |reg.pool|
    requires reg1 == Registry(InsertAt(reg.pool, i, item),
                              reg.participants[item.who := Participant(amount, 0, None, None)],
                              reg.locks[item.who := amount])
    ensures DoPrepareExit(reg1, item.who, now) ==
            Ok(Registry(reg.pool, reg.participants[item.who := Participant(amount, 0, Some(now), None)],
                        reg.locks[item.who := amount]))
  {
    assert reg1.pool[i] == item;
    LookupMatchesScan(cfg, reg1, item.who);
    assert RemoveAt(reg1.pool, i) == reg.pool;
    var p := Participant(amount, 0, Some(now), None);
    assert reg1.participants[item.who := p] == reg.participants[item.who := p];
  }

  lemma NewcomerPreparesExit(cfg: Config, reg: Registry, who: AccountId, amount: Balance, free: Balance, joined: Block,
                             prepared: Block)
    requires cfg.Sound() && RegistryOk(cfg, reg)
    requires who !in reg.participants && |reg.pool| < cfg.maxCourtParticipants
    requires cfg.minJurorStake <= amount <= free
    ensures var reg1 := DoJoinCourt(cfg, reg, who, amount, None, free, joined);
            && reg1.Ok?
            && DoPrepareExit(reg1.value, who, prepared) ==
               Ok(Registry(reg.pool, reg.participants[who := Participant(amount, 0, Some(prepared), None)],
                           reg.locks[who := amount]))
  {
    var i, item := NewcomerJoins(cfg, reg, who, amount, None, free, joined);
    JoinKeepsRegistry(cfg, reg, who, amount, None, free, joined);
    var reg1 := DoJoinCourt(cfg, reg, who, amount, None, free, joined).value;
    PrepareExitTakesItemOut(cfg, reg, reg1, i, item, amount, prepared);
  }

  lemma NewcomerLeaves(cfg: Config, reg: Registry, who: AccountId, amount: Balance, prepared: Block, left: Block)
    requires RegistryOk(cfg, reg) && who !in reg.participants && prepared + cfg.inflationPeriod <= left
    ensures var reg2 := Registry(reg.pool, reg.participants[who := Participant(amount, 0, Some(prepared), None)],
                                 reg.locks[who := amount]);
            var reg3 := DoExit(cfg, reg2, who, left);
            && reg3.Ok?
            && reg3.value.pool == reg.pool
            && reg3.value.participants == reg.participants
            && forall a :: GetOr(reg3.value.locks, a) == GetOr(reg.locks, a)
  {
    assert GetOr(reg.locks, who) == StakeOf(reg.participants, who) == 0;
    assert reg.participants[who := Participant(amount, 0, Some(prepared), None)] - {who} == reg.participants;
  }

  /** Leaving undoes joining: a newcomer who joins a pool with room, prepares to exit and exits after an
      inflation period without having been drawn leaves no trace in pool, participants or locks. */
  lemma JoinThenLeaveRestores(cfg: Config, reg: Registry, who: AccountId, amount: Balance, free: Balance,
                              joined: Block, prepared: Block, left: Block)
    requires cfg.Sound() && RegistryOk(cfg, reg)
    requires who !in reg.participants && |reg.pool| < cfg.maxCourtParticipants
    requires cfg.minJurorStake <= amount <= free
    requires prepared + cfg.inflationPeriod <= left
    ensures var reg1 := DoJoinCourt(cfg, reg, who, amount, None, free, joined);
            && reg1.Ok?
            && var reg2 := DoPrepareExit(reg1.value, who, prepared);
            && reg2.Ok?
            && var reg3 := DoExit(cfg, reg2.value, who, left);
            && reg3.Ok?
            && reg3.value.pool == reg.pool
            && reg3.value.participants == reg.participants
            && forall a :: GetOr(reg3.value.locks, a) == GetOr(reg.locks, a)
  {
    NewcomerPreparesExit(cfg, reg, who, amount, free, joined, prepared);
    NewcomerLeaves(cfg, reg, who, amount, prepared, left);
  }

  // ---------- active locks ----------

  ghost predicate SameLocks(p: map<AccountId, Participant>, q: map<AccountId, Participant>) {
    forall a :: Lock(p, a) == Lock(q, a)
  }

  /** Joining, delegating, preparing to exit and exiting change nobody's active lock. */
  lemma JoinKeepsLocks(cfg: Config, reg: Registry, who: AccountId, amount: Balance, delegations: Option<seq<AccountId>>,
                       free: Balance, now: Block)
    requires DoJoinCourt(cfg, reg, who, amount, delegations, free, now).Ok?
    ensures SameLocks(reg.participants, DoJoinCourt(cfg, reg, who, amount, delegations, free, now).value.participants)
  {
    var v := Vacate(cfg, reg, who, amount).value;
    var item := NewItem(cfg, v, who, amount, now).value;
    assert Admit(cfg, reg, v.pool, item, delegations).Ok?;
  }

  lemma LeavingKeepsLocks(cfg: Config, reg: Registry, who: AccountId, now: Block)
    ensures DoPrepareExit(reg, who, now).Ok? ==>
              SameLocks(reg.participants, DoPrepareExit(reg, who, now).value.participants)
    ensures DoExit(cfg, reg, who, now).Ok? ==>
              SameLocks(reg.participants, DoExit(cfg, reg, who, now).value.participants)
  {}
}
