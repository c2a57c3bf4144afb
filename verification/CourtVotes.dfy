/** How votes evolve between two draws, and what revealed and denounced votes are bound to. */
module CourtVotes {
  import opened Collections
  import opened SortedSearch
  import opened CourtTypes
  import opened Selection
  import opened DrawTheorem
  import opened CourtMachine
  import opened CourtFrames
  import opened CourtSafety

  // ---------- evolution ----------

  /** In one step drawn may become secret, and secret may be overwritten or opened with the same commitment. */
  predicate VoteSteps(v: Vote, v': Vote) {
    || v == v'
    || (v.Drawn? && v'.Secret?)
    || (v.Secret? && (v'.Secret? || ((v'.Revealed? || v'.Denounced?) && v'.commitment == v.commitment)))
  }

  predicate DrawSteps(d: Draw, d': Draw) {
    d' == d.(vote := d'.vote) && VoteSteps(d.vote, d'.vote)
  }

  /** The same accounts with the same weights and slashable amounts; votes have made one step at most. */
  predicate Stepped(draws: seq<Draw>, draws': seq<Draw>) {
    |draws'| == |draws| && forall i :: 0 <= i < |draws| ==> DrawSteps(draws[i], draws'[i])
  }

  /** Over several steps: secret follows drawn, revealed and denounced follow both, and the rest is final. */
  predicate VoteMoves(v: Vote, v': Vote) {
    || v == v'
    || (v.Drawn? && !v'.Delegated?)
    || (v.Secret? && (v'.Secret? || v'.Revealed? || v'.Denounced?))
  }

  predicate DrawMoves(d: Draw, d': Draw) {
    d' == d.(vote := d'.vote) && VoteMoves(d.vote, d'.vote)
  }

  /** The same accounts with the same weights and slashable amounts; only votes have moved on. */
  predicate Evolved(draws: seq<Draw>, draws': seq<Draw>) {
    |draws'| == |draws| && forall i :: 0 <= i < |draws| ==> DrawMoves(draws[i], draws'[i])
  }

  /** A vote changes hands only in its window. */
  predicate InWindow(t: RoundTiming, now: Block, draws: seq<Draw>, draws': seq<Draw>) {
    forall i :: 0 <= i < |draws| && i < |draws'| && draws'[i].vote != draws[i].vote ==>
      if draws'[i].vote.Revealed? then InAggregationPeriod(t, now) else InVotePeriod(t, now)
  }

  lemma EvolvedIsTransitive(a: seq<Draw>, b: seq<Draw>, c: seq<Draw>)
    requires Evolved(a, b) && Evolved(b, c)
    ensures Evolved(a, c)
  {
    forall i | 0 <= i < |a| ensures DrawMoves(a[i], c[i]) {
      assert DrawMoves(a[i], b[i]) && DrawMoves(b[i], c[i]);
    }
  }

  lemma SetVoteMoves(s: Store, k: CourtId, i: nat, v: Vote, c: CourtId)
    requires i < |DrawsOf(s, k)| && VoteSteps(DrawsOf(s, k)[i].vote, v)
    ensures var s' := SetVote(s, k, i, v);
            c in s'.draws ==> c in s.draws && Stepped(s.draws[c], s'.draws[c])
  {}

  lemma SetVoteInWindow(s: Store, k: CourtId, i: nat, v: Vote, c: CourtId)
    requires i < |DrawsOf(s, k)| && k in s.courts && c in s.courts && c in s.draws
    requires if v.Revealed? then InAggregationPeriod(s.courts[k].roundEnds, s.now)
             else InVotePeriod(s.courts[k].roundEnds, s.now)
    ensures InWindow(s.courts[c].roundEnds, s.now, s.draws[c], SetVote(s, k, i, v).draws[c])
  {}

  /** The three voting calls, as one change of one vote. */
  lemma VoteStepMoves(s: Store, step: Step, c: CourtId)
    requires s.cfg.minJurorStake > 0 && Votes(step)
    ensures var s' := Apply(s, step);
            c in s'.draws ==>
              && c in s.draws
              && Stepped(s.draws[c], s'.draws[c])
              && (c in s.courts ==> InWindow(s.courts[c].roundEnds, s.now, s.draws[c], s'.draws[c]))
  {
    if Try(s, step).Ok? {
      var i, v := VoteStepFrame(s, step);
      SetVoteMoves(s, step.court, i, v, c);
      if c in s.courts && c in s.draws {
        SetVoteInWindow(s, step.court, i, v, c);
      }
    }
  }

  lemma RedrawLeavesOthers(s: Store, step: Step, c: CourtId)
    requires s.cfg.minJurorStake > 0 && (step.AppealTo? || step.Dispute?) && !Redraws(s, step, c)
             && c in Apply(s, step).draws
    ensures c in s.draws && Apply(s, step).draws[c] == s.draws[c]
  {
    if Try(s, step).Ok? {
      match step
      case AppealTo(who, k, rng) => AppealDraws(s, who, k, rng);
      case Dispute(m, rng) => DisputeDraws(s, m, rng);
    }
  }

  lemma OtherStepLeavesDraws(s: Store, step: Step, c: CourtId)
    requires s.cfg.minJurorStake > 0 && !Votes(step) && !Redraws(s, step, c) && c in Apply(s, step).draws
    ensures c in s.draws && Apply(s, step).draws[c] == s.draws[c]
  {
    if Quiet(step) {
      QuietDraws(s, step);
    } else if Closing(step) {
      ClosingDraws(s, step);
    } else {
      RedrawLeavesOthers(s, step, c);
    }
  }

  lemma NothingMoved(draws: seq<Draw>)
    ensures Stepped(draws, draws)
  {}

  lemma SteppedHasEvolved(draws: seq<Draw>, draws': seq<Draw>)
    requires Stepped(draws, draws')
    ensures Evolved(draws, draws')
  {
    forall i | 0 <= i < |draws| ensures DrawMoves(draws[i], draws'[i]) {
      assert DrawSteps(draws[i], draws'[i]);
    }
  }

  /** A step that does not draw anew lets votes evolve, each in its window. */
  lemma StepEvolves(s: Store, step: Step, c: CourtId)
    requires s.cfg.minJurorStake > 0 && !Redraws(s, step, c)
    ensures var s' := Apply(s, step);
            c in s'.draws ==>
              && c in s.draws
              && Stepped(s.draws[c], s'.draws[c])
              && (c in s.courts ==> InWindow(s.courts[c].roundEnds, s.now, s.draws[c], s'.draws[c]))
  {
    if Votes(step) {
      VoteStepMoves(s, step, c);
    } else if c in Apply(s, step).draws {
      OtherStepLeavesDraws(s, step, c);
      NothingMoved(s.draws[c]);
    }
  }

  predicate NoRedraw(s: Store, steps: seq<Step>, i: nat, j: nat, c: CourtId)
    requires s.cfg.minJurorStake > 0 && i <= j <= |steps|
    decreases j
  {
    i == j || (NoRedraw(s, steps, i, j - 1, c) && !Redraws(Run(s, steps, j - 1), steps[j - 1], c))
  }

  /** The draws of a court that are still there have only evolved. */
  predicate EvolvedSince(a: Store, b: Store, c: CourtId) {
    c in b.draws ==> c in a.draws && Evolved(a.draws[c], b.draws[c])
  }

  lemma EvolvedSinceIsTransitive(x: Store, y: Store, z: Store, c: CourtId)
    requires EvolvedSince(x, y, c) && EvolvedSince(y, z, c)
    ensures EvolvedSince(x, z, c)
  {
    if c in z.draws {
      EvolvedIsTransitive(x.draws[c], y.draws[c], z.draws[c]);
    }
  }

  lemma StepEvolvedSince(s: Store, step: Step, c: CourtId)
    requires s.cfg.minJurorStake > 0 && !Redraws(s, step, c)
    ensures EvolvedSince(s, Apply(s, step), c)
  {
    StepEvolves(s, step, c);
    if c in Apply(s, step).draws {
      SteppedHasEvolved(s.draws[c], Apply(s, step).draws[c]);
    }
  }

  lemma EvolvedSinceItself(s: Store, c: CourtId)
    ensures EvolvedSince(s, s, c)
  {}

  /** Between two draws of a court its draws only evolve: accounts, weights and slashable amounts stay, delegated,
      revealed and denounced votes are final. */
  lemma {:induction false} DrawsEvolve(s: Store, steps: seq<Step>, i: nat, j: nat, c: CourtId)
    requires s.cfg.minJurorStake > 0 && i <= j <= |steps| && NoRedraw(s, steps, i, j, c)
    ensures EvolvedSince(Run(s, steps, i), Run(s, steps, j), c)
    decreases j
  {
    if i < j {
      DrawsEvolve(s, steps, i, j - 1, c);
      StepEvolvedSince(Run(s, steps, j - 1), steps[j - 1], c);
      EvolvedSinceIsTransitive(Run(s, steps, i), Run(s, steps, j - 1), Run(s, steps, j), c);
    } else {
      EvolvedSinceItself(Run(s, steps, i), c);
    }
  }

  // ---------- commitments ----------

  type CastLog = map<(CourtId, AccountId), Digest>

  /** The last commitment each juror cast in each court since the court's draws were made. */
  function Log(s: Store, steps: seq<Step>, n: nat): CastLog
    requires s.cfg.minJurorStake > 0 && n <= |steps|
  {
    if n == 0 then map[] else NextLog(Log(s, steps, n - 1), Run(s, steps, n - 1), steps[n - 1])
  }

  function Forget(log: CastLog, c: CourtId): CastLog {
    map k | k in log && k.0 != c :: log[k]
  }

  function NextLog(log: CastLog, s: Store, step: Step): CastLog
    requires s.cfg.minJurorStake > 0
  {
    match step
    case Cast(who, c, commitment) => if CastVote(s, who, c, commitment).Ok? then log[(c, who) := commitment] else log
    case Dispute(m, rng) => if OnDispute(s, m, rng).Ok? then Forget(log, s.nextCourtId) else log
    case AppealTo(who, c, rng) =>
      if AppealCourt(s, who, c, rng).Ok? && |s.courts[c].appeals| + 1 < s.cfg.maxAppeals then Forget(log, c) else log
    case _ => log
  }

  /** A vote agrees with the last commitment cast; an opened one hashes to it. */
  predicate Bound(cfg: Config, log: CastLog, c: CourtId, d: Draw) {
    match d.vote
    case Delegated(_) => (c, d.who) !in log
    case Drawn => (c, d.who) !in log
    case Secret(k) => (c, d.who) in log && log[(c, d.who)] == k
    case Revealed(k, item, salt) => (c, d.who) in log && log[(c, d.who)] == k == cfg.hash(d.who, item, salt)
    case Denounced(k, item, salt) => (c, d.who) in log && log[(c, d.who)] == k == cfg.hash(d.who, item, salt)
  }

  predicate DrawsBound(cfg: Config, log: CastLog, c: CourtId, draws: seq<Draw>) {
    forall i :: 0 <= i < |draws| ==> Bound(cfg, log, c, draws[i])
  }

  predicate AllBound(s: Store, log: CastLog) {
    forall c :: c in s.draws ==> DrawsBound(s.cfg, log, c, s.draws[c])
  }

  lemma SetVoteKeepsBound(s: Store, log: CastLog, log': CastLog, c: CourtId, i: nat, v: Vote)
    requires StoreOk(s) && AllBound(s, log) && i < |DrawsOf(s, c)|
    requires Bound(s.cfg, log', c, DrawsOf(s, c)[i].(vote := v))
    requires forall k :: k != (c, DrawsOf(s, c)[i].who) ==>
               (k in log' <==> k in log) && (k in log ==> log'[k] == log[k])
    ensures AllBound(SetVote(s, c, i, v), log')
  {
    var s' := SetVote(s, c, i, v);
    forall k | k in s'.draws ensures DrawsBound(s.cfg, log', k, s'.draws[k]) {
      assert k in s.draws && DrawsBound(s.cfg, log, k, s.draws[k]);
      forall j | 0 <= j < |s'.draws[k]| ensures Bound(s.cfg, log', k, s'.draws[k][j]) {
        if k != c || j != i {
          assert s'.draws[k][j] == s.draws[k][j];
          assert (k, s.draws[k][j].who) != (c, DrawsOf(s, c)[i].who);
        }
      }
    }
  }

  lemma VoteStepKeepsBound(s: Store, log: CastLog, step: Step)
    requires StoreOk(s) && AllBound(s, log) && Votes(step)
    ensures AllBound(Apply(s, step), NextLog(log, s, step))
  {
    if Try(s, step).Ok? {
      var i, v := VoteStepFrame(s, step);
      assert Bound(s.cfg, log, step.court, DrawsOf(s, step.court)[i]);
      SetVoteKeepsBound(s, log, NextLog(log, s, step), step.court, i, v);
    }
  }

  lemma FreshDrawsAreBound(s: Store, s': Store, log: CastLog, c: CourtId, draws: seq<Draw>)
    requires AllBound(s, log) && s'.cfg == s.cfg && s'.draws == s.draws[c := draws] && Fresh(draws)
    ensures AllBound(s', Forget(log, c))
  {
    forall k | k in s'.draws ensures DrawsBound(s.cfg, Forget(log, c), k, s'.draws[k]) {
      if k != c {
        assert DrawsBound(s.cfg, log, k, s.draws[k]);
        forall j | 0 <= j < |s.draws[k]| ensures Bound(s.cfg, Forget(log, c), k, s.draws[k][j]) {
          assert Bound(s.cfg, log, k, s.draws[k][j]);
        }
      }
    }
  }

  lemma AppealKeepsBound(s: Store, log: CastLog, who: AccountId, c: CourtId, rng: Rng)
    requires StoreOk(s) && AllBound(s, log) && AppealCourt(s, who, c, rng).Ok?
    ensures AllBound(AppealCourt(s, who, c, rng).value,
                     if |s.courts[c].appeals| + 1 < s.cfg.maxAppeals then Forget(log, c) else log)
  {
    AppealDraws(s, who, c, rng);
    if |s.courts[c].appeals| + 1 < s.cfg.maxAppeals {
      NothingIsTruncated(s.cfg, s.reg, |s.courts[c].appeals| + 1, rng);
      var choice := SelectParticipants(s.cfg, s.reg, |s.courts[c].appeals| + 1, rng).value;
      FreshDrawsAreBound(s, AppealCourt(s, who, c, rng).value, log, c, choice.draws);
    }
  }

  lemma DisputeKeepsBound(s: Store, log: CastLog, m: MarketId, rng: Rng)
    requires StoreOk(s) && AllBound(s, log) && OnDispute(s, m, rng).Ok?
    ensures AllBound(OnDispute(s, m, rng).value, Forget(log, s.nextCourtId))
  {
    DisputeDraws(s, m, rng);
    NothingIsTruncated(s.cfg, s.reg, 0, rng);
    FreshDrawsAreBound(s, OnDispute(s, m, rng).value, log, s.nextCourtId,
                       SelectParticipants(s.cfg, s.reg, 0, rng).value.draws);
  }

  lemma SameDrawsKeepBound(s: Store, s': Store, log: CastLog)
    requires AllBound(s, log) && s'.cfg == s.cfg
    requires forall c :: c in s'.draws ==> c in s.draws && s'.draws[c] == s.draws[c]
    ensures AllBound(s', log)
  {}

  lemma OtherStepKeepsBound(s: Store, log: CastLog, step: Step)
    requires StoreOk(s) && AllBound(s, log) && !Votes(step) && (Quiet(step) || Closing(step))
    ensures AllBound(Apply(s, step), log)
  {
    if Quiet(step) {
      QuietDraws(s, step);
    } else {
      ClosingDraws(s, step);
    }
    ConfigIsConstant(s, step);
    SameDrawsKeepBound(s, Apply(s, step), log);
  }

  lemma AppealStepKeepsBound(s: Store, log: CastLog, who: AccountId, c: CourtId, rng: Rng)
    requires StoreOk(s) && AllBound(s, log)
    ensures AllBound(Apply(s, AppealTo(who, c, rng)), NextLog(log, s, AppealTo(who, c, rng)))
  {
    if AppealCourt(s, who, c, rng).Ok? {
      AppealKeepsBound(s, log, who, c, rng);
    }
  }

  lemma DisputeStepKeepsBound(s: Store, log: CastLog, m: MarketId, rng: Rng)
    requires StoreOk(s) && AllBound(s, log)
    ensures AllBound(Apply(s, Dispute(m, rng)), NextLog(log, s, Dispute(m, rng)))
  {
    if OnDispute(s, m, rng).Ok? {
      DisputeKeepsBound(s, log, m, rng);
    }
  }

  lemma OtherStepKeepsLog(s: Store, log: CastLog, step: Step)
    requires s.cfg.minJurorStake > 0 && !step.Cast? && !step.Dispute? && !step.AppealTo?
    ensures NextLog(log, s, step) == log
  {}

  lemma StepKeepsBound(s: Store, log: CastLog, step: Step)
    requires StoreOk(s) && AllBound(s, log)
    ensures AllBound(Apply(s, step), NextLog(log, s, step))
  {
    if Votes(step) {
      VoteStepKeepsBound(s, log, step);
    } else if step.AppealTo? {
      AppealStepKeepsBound(s, log, step.who, step.court, step.rng);
    } else if step.Dispute? {
      DisputeStepKeepsBound(s, log, step.market, step.rng);
    } else {
      OtherStepKeepsBound(s, log, step);
      OtherStepKeepsLog(s, log, step);
    }
  }

  ghost predicate Honest(s: Store, log: CastLog) {
    StoreOk(s) && AllBound(s, log)
  }

  lemma StepKeepsHonest(s: Store, log: CastLog, step: Step)
    requires Honest(s, log)
    ensures Honest(Apply(s, step), NextLog(log, s, step))
  {
    StepKeepsStore(s, step);
    StepKeepsBound(s, log, step);
  }

  /** In every reachable state a secret vote is the last commitment its juror cast, and every revealed or denounced
      triple of juror, item and salt hashes to it. */
  lemma {:induction false} OpenedVotesMatchCommitments(s: Store, steps: seq<Step>, n: nat)
    requires StoreOk(s) && s.draws == map[] && n <= |steps|
    ensures Honest(Run(s, steps, n), Log(s, steps, n))
  {
    if n > 0 {
      OpenedVotesMatchCommitments(s, steps, n - 1);
      StepKeepsHonest(Run(s, steps, n - 1), Log(s, steps, n - 1), steps[n - 1]);
    }
  }

  // ---------- opening a vote ----------

  /** In sorted draws the search finds every drawn account. */
  lemma EveryDrawIsFound(draws: seq<Draw>, i: nat)
    requires SortedDraws(draws) && i < |draws|
    ensures FindDraw(draws, draws[i].who) == Some(i)
  {
    var keys := DrawKeys(draws);
    assert forall k :: 0 <= k < |draws| ==> keys[k] == (draws[k].who, 0);
    assert Ascending(keys);
    var hit := Search(keys, (draws[i].who, 0));
    assert keys[i] == (draws[i].who, 0);
    if hit.Found? {
      assert keys[hit.at] == keys[i];
    }
  }

  /** A drawn juror who has not opened its vote can cast one in the vote window, again and again. */
  lemma DrawnJurorCanCast(s: Store, c: CourtId, i: nat, commitment: Digest)
    requires StoreOk(s) && c in s.courts && c in s.draws && i < |s.draws[c]|
    requires InVotePeriod(s.courts[c].roundEnds, s.now) && (s.draws[c][i].vote.Drawn? || s.draws[c][i].vote.Secret?)
    ensures CastVote(s, s.draws[c][i].who, c, commitment) == Ok(SetVote(s, c, i, Secret(commitment)))
  {
    EveryDrawIsFound(s.draws[c], i);
  }

  /** Calls that may change the vote of one juror in one court. */
  predicate Touches(step: Step, c: CourtId, who: AccountId) {
    Votes(step) && step.court == c && (if step.Denounce? then step.juror == who else step.who == who)
  }

  predicate LeftAlone(steps: seq<Step>, i: nat, j: nat, c: CourtId, who: AccountId) {
    forall k :: i <= k < j && k < |steps| ==> !Touches(steps[k], c, who)
  }

  /** As long as the draws are there, the juror's vote is this commitment. */
  predicate StillSecret(s: Store, c: CourtId, i: nat, who: AccountId, commitment: Digest) {
    c in s.draws ==> i < |s.draws[c]| && s.draws[c][i].who == who && s.draws[c][i].vote == Secret(commitment)
  }

  lemma StepKeepsSecret(s: Store, step: Step, c: CourtId, i: nat, who: AccountId, commitment: Digest)
    requires s.cfg.minJurorStake > 0 && !Redraws(s, step, c) && !Touches(step, c, who)
    requires StillSecret(s, c, i, who, commitment)
    ensures StillSecret(Apply(s, step), c, i, who, commitment)
  {
    if Votes(step) {
      if Try(s, step).Ok? {
        var j, v := VoteStepFrame(s, step);
        SetVoteKeepsSecret(s, step.court, j, v, c, i, who, commitment);
      }
    } else if c in Apply(s, step).draws {
      OtherStepLeavesDraws(s, step, c);
    }
  }

  lemma SetVoteKeepsSecret(s: Store, k: CourtId, j: nat, v: Vote, c: CourtId, i: nat, who: AccountId,
                           commitment: Digest)
    requires StillSecret(s, c, i, who, commitment) && j < |DrawsOf(s, k)| && (k == c ==> DrawsOf(s, k)[j].who != who)
    ensures StillSecret(SetVote(s, k, j, v), c, i, who, commitment)
  {}

  lemma {:induction false} RunKeepsSecret(s: Store, steps: seq<Step>, from: nat, n: nat, c: CourtId, i: nat,
                                          who: AccountId,
                                          commitment: Digest)
    requires s.cfg.minJurorStake > 0 && from <= n <= |steps|
    requires NoRedraw(s, steps, from, n, c) && LeftAlone(steps, from, n, c, who)
    requires StillSecret(Run(s, steps, from), c, i, who, commitment)
    ensures StillSecret(Run(s, steps, n), c, i, who, commitment)
    decreases n
  {
    if from < n {
      RunKeepsSecret(s, steps, from, n - 1, c, i, who, commitment);
      StepKeepsSecret(Run(s, steps, n - 1), steps[n - 1], c, i, who, commitment);
    }
  }

  /** Everything a reveal asks for apart from the commitment. */
  predicate MayReveal(s: Store, who: AccountId, c: CourtId, item: VoteItem) {
    && CheckMarketItem(s, c, item).None? && who in s.reg.participants
    && c in s.courts && CheckVoteItem(s.courts[c], item).None? && InAggregationPeriod(s.courts[c].roundEnds, s.now)
    && c in s.draws
  }

  lemma RevealOfSecret(s: Store, c: CourtId, i: nat, who: AccountId, commitment: Digest, item: VoteItem, salt: Digest)
    requires StoreOk(s) && StillSecret(s, c, i, who, commitment)
    ensures RevealVote(s, who, c, item, salt).Ok? <==>
            MayReveal(s, who, c, item) && s.cfg.hash(who, item, salt) == commitment
    ensures RevealVote(s, who, c, item, salt).Ok? ==>
              i < |DrawsOf(s, c)| &&
              RevealVote(s, who, c, item, salt).value == SetVote(s, c, i, Revealed(commitment, item, salt))
  {
    if c in s.draws {
      EveryDrawIsFound(s.draws[c], i);
    }
  }

  lemma CastMakesSecret(s: Store, who: AccountId, c: CourtId, commitment: Digest) returns (i: nat)
    requires s.cfg.minJurorStake > 0 && CastVote(s, who, c, commitment).Ok?
    ensures StillSecret(Apply(s, Cast(who, c, commitment)), c, i, who, commitment)
  {
    CastFrame(s, who, c, commitment);
    i := FindDraw(DrawsOf(s, c), who).value;
  }

  lemma CommittedSince(s: Store, steps: seq<Step>, k: nat, n: nat, who: AccountId, c: CourtId, commitment: Digest)
    returns (i: nat)
    requires s.cfg.minJurorStake > 0 && k < n <= |steps| && steps[k] == Cast(who, c, commitment)
    requires CastVote(Run(s, steps, k), who, c, commitment).Ok?
    requires NoRedraw(s, steps, k + 1, n, c) && LeftAlone(steps, k + 1, n, c, who)
    ensures StillSecret(Run(s, steps, n), c, i, who, commitment)
  {
    i := CastMakesSecret(Run(s, steps, k), who, c, commitment);
    RunKeepsSecret(s, steps, k + 1, n, c, i, who, commitment);
  }

  /** A juror who has committed to a triple and whose vote nobody has touched since, whatever else has happened short
      of a new draw, can open it in the aggregation window with any triple of the same hash and with no other. */
  lemma CommitThenReveal(s: Store, steps: seq<Step>, k: nat, n: nat, who: AccountId, c: CourtId,
                         item: VoteItem, salt: Digest, item': VoteItem, salt': Digest)
    requires StoreOk(s) && k < n <= |steps| && steps[k] == Cast(who, c, s.cfg.hash(who, item, salt))
    requires CastVote(Run(s, steps, k), who, c, s.cfg.hash(who, item, salt)).Ok?
    requires NoRedraw(s, steps, k + 1, n, c) && LeftAlone(steps, k + 1, n, c, who)
    ensures var s' := Run(s, steps, n);
            RevealVote(s', who, c, item', salt').Ok? <==>
            MayReveal(s', who, c, item') && s.cfg.hash(who, item', salt') == s.cfg.hash(who, item, salt)
  {
    var i := CommittedSince(s, steps, k, n, who, c, s.cfg.hash(who, item, salt));
    EveryRunIsSafe(s, steps, n);
    RevealOfSecret(Run(s, steps, n), c, i, who, s.cfg.hash(who, item, salt), item', salt');
  }
}
