/** A member across epochs: it lives through an epoch, ends the round, reconciles its
    steward list and its scores. */
module Nodes {
  import opened ByteStrings
  import opened Sorting
  import opened Protocol
  import opened MlsGroup
  import opened StewardLists
  import opened Queues
  import opened Consensus
  import opened CommitApply
  import opened CandidateIntake
  import opened Outcomes
  import opened Agreement
  import opened Confluence
  import PeerScoring

  datatype Scoring = Scoring(scores: PeerScoring.Scores, default: int, threshold: int, overrides: map<ScoreEvent, int>) {
    function Apply(ops: seq<ScoreOp>): (r: Scoring) { this.(scores := PeerScoring.FoldOps(scores, overrides, ops)) }
  }

  function ScoringOf(service: PeerScoring.PeerScoringService): (s: Scoring)
    reads service
  {
    Scoring(service.scores, service.defaultScore, service.threshold, service.overrides)
  }

  /** `left` once a round has told the member that it is out. */
  datatype Node = Node(self: Id, kMax: nat, s: RoundState, stewards: Stewards, scoring: Scoring, left: bool)

  function MemberOf(n: Node): (m: Member) { Member(n.self, n.kMax, n.stewards) }

  // ── After a commit ──

  /** The steward list after the epoch moved: kept while it lasts; replaced locally
      when it is spent and the settled members need no vote. */
  function Reconcile(w: World, q: Queues, g: Group, stewards: Stewards): (r: Stewards) {
    if !stewards.Exhausted(g.epoch) then stewards
    else
      var settled := q.Settled(Members(g.seats), g.epoch);
      if stewards.config.ElectionRequired(|settled|) then stewards
      else match stewards.Install(w, g.epoch, settled, stewards.config.ListSize(|settled|), 0)
        case Ok(installed) => installed
        case Err(_) => stewards
  }

  /** Reconciling a spent list over few enough settled members puts all of them on the
      list, from this epoch on, in the order everybody computes. */
  lemma ReconcileInstallsSettled(w: World, q: Queues, g: Group, stewards: Stewards)
    requires stewards.config.Valid() && stewards.Exhausted(g.epoch)
    ensures var settled, after := q.Settled(Members(g.seats), g.epoch), Reconcile(w, q, g, stewards);
            if settled == [] || |settled| > stewards.config.snMax then after == stewards
            else
              && after.list.Some? && !after.Exhausted(g.epoch)
              && after.list.value.members == Canonical(w, g.epoch, settled, stewards.config, 0)
              && multiset(after.list.value.members) == multiset(settled)
  {
    hide Members, SettledIn, Canonical, Generate;
    var settled := q.Settled(Members(g.seats), g.epoch);
    if settled != [] && |settled| <= stewards.config.snMax {
      ValidateAcceptsExactlyCanonical(w, [], g.epoch, settled, stewards.config, 0);
      CanonicalIsWholePool(w, g.epoch, settled, stewards.config, 0);
      GeneratedFields(w, g.epoch, settled, stewards.config.ListSize(|settled|), stewards.config, 0);
    } else {
      GeneratedFields(w, g.epoch, settled, 0, stewards.config, 0);
    }
  }

  lemma GeneratedFields(w: World, epoch: nat, pool: seq<Id>, sn: nat, config: Config, round: nat)
    ensures var r := Generate(w, epoch, pool, sn, config, round);
            (pool == [] ==> r.Err?) && (r.Ok? ==> r.value.config == config && r.value.electionEpoch == epoch && r.value.retryRound == round)
  {}

  /** Departed leaves lose their score, seated ones start at the default. */
  function RescoreMembers(scores: PeerScoring.Scores, d: Delta, default: int): (r: PeerScoring.Scores) {
    ScoreAll(scores - SeatIds(d.removed), d.added, default)
  }

  function ScoreAll(scores: PeerScoring.Scores, added: Seats, default: int): (r: PeerScoring.Scores) {
    scores + map id | id in SeatIds(added) :: default
  }

  lemma ScoreGrow(scores: PeerScoring.Scores, added: Seats, leaf: Leaf, key: Bytes, default: int)
    ensures ScoreAll(scores, added[leaf := key], default) == ScoreAll(scores, added, default)[MemberIdOf(leaf) := default]
  {
    SeatIdsGrow(added, leaf, key);
  }

  /** A merged commit: the retry ladder starts over, the delta reaches the scores, the
      list is reconciled. */
  function Updated(w: World, n: Node): (r: Node) {
    var d := match n.s.queues.delta case Some(stored) => stored case None => Delta(map[], map[]);
    var q := n.s.queues.(delta := None);
    n.(s := n.s.(queues := q),
       scoring := n.scoring.(scores := RescoreMembers(n.scoring.scores, d, n.scoring.default)),
       stewards := Reconcile(w, q, n.s.mls.group, n.stewards.(nextRound := 0)))
  }

  /** A round without a commit: work left undone is held against the steward on duty;
      without work the buffer is cleared. */
  function Missed(n: Node): (r: Node) {
    if n.s.queues.approved == [] then n.(s := n.s.(queues := n.s.queues.(round := n.s.queues.round.(candidates := []))))
    else match n.stewards.DutySteward(n.s.mls.group.epoch, n.s.queues.Eligible(n.s.mls.group.seats))
      case Some(steward) =>
        if steward != [] && steward != n.self then n.(scoring := n.scoring.Apply([ScoreOp(steward, CensorshipInactivity)])) else n
      case None => n
  }

  function EndRound(w: World, n: Node): (r: Node) {
    var (after, result) := FinalizeRound(w, n.s, n.stewards, false, n.stewards.config.allowSubset, n.self);
    var scored := n.(s := after, scoring := n.scoring.Apply(result.scoreOps));
    match result.outcome
    case Applied(true) => scored.(left := true)
    case Applied(false) => Updated(w, scored)
    case NoCandidate => Missed(scored)
  }

  // ── Runs ──

  /** An epoch: its events, among `universe`'s candidates, up to the end of a round. */
  datatype NodeStep = Epoch(events: seq<Event>, universe: set<Candidate>)

  /** Score changes of the votes that resolve during an epoch. */
  function VoteScores(es: seq<Event>): (ops: seq<ScoreOp>) {
    if es == [] then []
    else VoteScores(es[..|es| - 1]) + match es[|es| - 1] case Decide(_, approved, request) => EmergencyScoreOps(request, approved) case _ => []
  }

  function LiveThrough(w: World, n: Node, es: seq<Event>): (r: Node) {
    n.(s := RunRound(w, MemberOf(n), n.s, es),
       stewards := MemberAfter(w, MemberOf(n), n.s, es).stewards,
       scoring := n.scoring.Apply(VoteScores(es)))
  }

  function StepNode(w: World, n: Node, step: NodeStep): (r: Node) {
    if n.left then n else EndRound(w, LiveThrough(w, n, step.events))
  }

  function RunNode(w: World, n: Node, steps: seq<NodeStep>): (r: Node) {
    if steps == [] then n else StepNode(w, RunNode(w, n, steps[..|steps| - 1]), steps[|steps| - 1])
  }

  // ── What holds between rounds ──

  /** Between rounds nothing is pending: both commit slots and the buffer are empty,
      the stash holds only what came before its approval. */
  ghost predicate NodeOk(w: World, n: Node) {
    && n.s.mls.own.None? && n.s.mls.staged.None?
    && n.s.queues.urgent.None?
    && n.s.queues.round.For(n.s.mls.group.epoch) == []
    && InRound(w, n.s.mls.group, n.s.queues, Known(n.s.queues, n.s.mls.group.epoch))
  }

  /** Votes other than below-threshold emergencies; elections come as list votes. */
  predicate Ordinary(e: Event) {
    e.Decide? ==> !e.request.StewardElection? && !(e.approved && HasEvidence(e.request, ScoreBelowThreshold))
  }

  /** Outside recovery: what the round is about to merge is a peer's, or would pass at a
      peer. A strict round meets this while the list names whoever minted
      (`Agreement.StrictOwnPasses`). */
  ghost predicate MergesForAll(w: World, n: Node) {
    BestPasses(w, n.s, n.stewards, false, n.stewards.config.allowSubset, n.self)
  }

  /** The epoch's events are in order, and when the round ends we do not merge a commit of
      our own that would not pass at a peer. */
  ghost predicate StepOk(w: World, n: Node, step: NodeStep) {
    && FitsRound(w, n.s.mls.group, step.universe)
    && Known(n.s.queues, n.s.mls.group.epoch) <= step.universe
    && RunOk(w, MemberOf(n), n.s, step.events, step.universe)
    && MergesForAll(w, LiveThrough(w, n, step.events))
    && forall e :: e in step.events ==> Ordinary(e)
  }

  ghost predicate StepsOk(w: World, n: Node, steps: seq<NodeStep>) {
    steps != [] ==>
      && StepsOk(w, n, steps[..|steps| - 1])
      && StepOk(w, RunNode(w, n, steps[..|steps| - 1]), steps[|steps| - 1])
  }

  lemma InRoundWidens(w: World, g: Group, q: Queues, universe: set<Candidate>, wider: set<Candidate>)
    requires InRound(w, g, q, universe) && Known(q, g.epoch) <= wider
    ensures InRound(w, g, q, wider)
  {}

  lemma StartsRound(w: World, n: Node, universe: set<Candidate>)
    requires NodeOk(w, n) && Known(n.s.queues, n.s.mls.group.epoch) <= universe
    ensures MemberOk(w, MemberOf(n), n.s, universe)
  {
    hide InRound;
    InRoundWidens(w, n.s.mls.group, n.s.queues, Known(n.s.queues, n.s.mls.group.epoch), universe);
  }

  lemma OrdinaryIsNotUrgent(w: World, g: Group, q: Queues, id: nat, approved: bool, request: Request)
    requires q.urgent.None? && !(approved && HasEvidence(request, ScoreBelowThreshold))
    ensures OnOutcome(w, g, q, id, approved, request).0.urgent.None?
  {
    hide Replay;
    var marked := q.(resolved := q.resolved.Insert(id));
    ReplayTouches(w, g, ApplyConsensus(w, marked, id, approved, request).0);
  }

  /** Ordinary votes never set an urgent target. */
  lemma {:induction false} NothingUrgent(w: World, m: Member, s: RoundState, es: seq<Event>)
    requires s.queues.urgent.None? && forall e :: e in es ==> Ordinary(e)
    ensures RunRound(w, m, s, es).queues.urgent.None?
  {
    hide Receive, MintInputs, OnOutcome, Elect;
    if es != [] {
      var rest, last := es[..|es| - 1], es[|es| - 1];
      assert last in es && forall e :: e in rest ==> e in es;
      NothingUrgent(w, m, s, rest);
      var mid := RunRound(w, m, s, rest);
      match last
      case Decide(id, approved, request) => OrdinaryIsNotUrgent(w, mid.mls.group, mid.queues, id, approved, request);
      case ListVote(id, accepted, election) =>
        OrdinaryIsNotUrgent(w, mid.mls.group, mid.queues, id, accepted, StewardElection(election));
      case Arrive(msg) => ReceiveTouches(w, mid.mls.group, mid.queues, msg);
      case MintOwn(_) =>
      case Silent =>
    }
  }

  // ── The end of a round ──

  /** What a round that merges `won` leaves in the queues. */
  lemma AfterMergeNothingUrgent(s: RoundState, commit: Option<Pending>, hash: Bytes, epoch: nat)
    requires s.queues.urgent.None?
    ensures var after := AfterMerge(s, commit, hash, epoch).0;
            var d := MergedDelta(s.mls.group, commit);
            && after.mls == Mls(Merged(s.mls.group, commit), None, None)
            && after.queues == s.queues.(approved := [], committed := s.queues.committed.Insert(hash),
                                         joinEpoch := Stamped(s.queues.joinEpoch, d, epoch + 1), delta := Some(d))
  {}

  lemma NoEarlyAhead(q: Queues, epoch: nat)
    requires forall e :: e in q.early ==> e.epoch < epoch
    ensures q.EarlyFor(epoch) == []
  {
    KeepNothing(OfEpoch(epoch), q.early);
  }

  /** A quiet state: nothing approved, buffered, stashed for this epoch or urgent. */
  lemma FreshEpochInRound(w: World, g: Group, q: Queues)
    requires q.approved == [] && q.urgent.None? && q.round.For(g.epoch) == []
    requires forall e :: e in q.early ==> e.epoch < g.epoch
    ensures InRound(w, g, q, {}) && Known(q, g.epoch) == {}
  {
    NoEarlyAhead(q, g.epoch);
  }

  /** The queues after a round without a commit: only the buffer is gone. */
  lemma UnbufferedInRound(w: World, g: Group, q: Queues, q': Queues, universe: set<Candidate>)
    requires InRound(w, g, q, universe) && q' == q.(round := q'.round) && q'.round.For(g.epoch) == []
    ensures InRound(w, g, q', Known(q', g.epoch)) && Known(q', g.epoch) == Stashed(q, g.epoch)
  {
    hide Hygienic, Admissible;
    HygieneReads(w, q, q');
    assert q'.EarlyFor(g.epoch) == q.EarlyFor(g.epoch);
    assert forall c :: c in Stashed(q, g.epoch) ==> c in Known(q, g.epoch);
  }
}
