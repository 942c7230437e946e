/** What a resolved vote does to a conversation, whatever it was about: to the phase, to
    recovery, to the steward list and to the scores. */
module VoteEffects {
  import opened ByteStrings
  import opened Protocol
  import opened MlsGroup
  import opened StewardLists
  import opened Queues
  import opened Consensus
  import opened CandidateIntake
  import opened Outcomes
  import opened Nodes
  import opened Lifecycle
  import opened ConversationModel
  import PeerScoring

  /** A proposal whose outcome is still remembered does nothing a second time. */
  lemma VoteCountsOnce(w: World, p: Policy, c: Conversing, id: nat, approved: bool, request: Request, now: nat,
        minted: Option<Mint>)
    requires c.node.s.queues.resolved.Has(id)
    ensures StepLife(w, p, c, Outcome(id, approved, request, now, minted)) == c
  {}

  // ── Votes on lists ──

  /** The proposed list is the one everybody computes over who was settled at its epoch. */
  ghost predicate ChecksOut(w: World, n: Node, e: Election) {
    var pool := n.s.queues.Settled(Members(n.s.mls.group.seats), e.epoch);
    pool != [] && e.stewards == Canonical(w, e.epoch, pool, n.stewards.config, e.retryRound)
  }

  lemma ChecksOutMeaning(w: World, n: Node, e: Election)
    requires n.stewards.config.Valid()
    ensures ValidateElection(w, n.s.queues.joinEpoch, n.s.mls.group, n.stewards, e) <==> ChecksOut(w, n, e)
  {
    hide Members, Canonical;
    var pool := n.s.queues.Settled(Members(n.s.mls.group.seats), e.epoch);
    if pool != [] {
      ValidateAcceptsExactlyCanonical(w, e.stewards, e.epoch, pool, n.stewards.config, e.retryRound);
    }
  }

  /** A list vote that passes: if the list checks out it is in force, recovery is over and
      a reelection gives way to work under the short window; if not, nothing moves. */
  lemma ListVotePasses(w: World, p: Policy, c: Conversing, id: nat, e: Election, now: nat, minted: Option<Mint>)
    requires !c.node.left && !c.node.s.queues.resolved.Has(id) && c.node.stewards.config.Valid()
    ensures var after := StepLife(w, p, c, Outcome(id, true, StewardElection(e), now, minted));
            if ChecksOut(w, c.node, e) then
              && after.node.stewards == c.node.stewards.(list := Some(StewardList(e.stewards, c.node.stewards.config, e.epoch, e.retryRound)))
              && after.life == if c.life.phase == Reelection
                               then c.life.(mode := Normal, phase := Working, anchor := None, recovered := true)
                               else c.life.(mode := Normal)
            else after.node.stewards == c.node.stewards && after.life == c.life
  {
    hide Replay, ValidateElection, Generate, ChecksOut;
    OutcomeKeepsJoinEpochs(w, c.node.s.mls.group, c.node.s.queues, id, true, StewardElection(e));
    ChecksOutMeaning(w, c.node, e);
    if ChecksOut(w, c.node, e) {
      ValidElectionInstalls(w, c.node.s.queues.joinEpoch, c.node.s.mls.group, c.node.stewards, e);
      GeneratedFields(w, e.epoch, e.stewards, |e.stewards|, c.node.stewards.config, e.retryRound);
    }
  }

  /** A list vote that fails costs a retry round, up to the widest counter. */
  lemma ListVoteFails(w: World, p: Policy, c: Conversing, id: nat, e: Election, now: nat, minted: Option<Mint>)
    requires !c.node.left && !c.node.s.queues.resolved.Has(id)
    ensures var after, round := StepLife(w, p, c, Outcome(id, false, StewardElection(e), now, minted)), c.node.stewards.nextRound;
            && after.life == c.life
            && after.node.stewards == c.node.stewards.(nextRound := after.node.stewards.nextRound)
            && after.node.stewards.nextRound == if round < 0xffff_ffff then round + 1 else round
  {
    hide Replay;
  }

  // ── Other votes ──

  /** The freeze a vote opens: timed from now, from work or reelection only. */
  function Frozen(l: Life, now: nat): (r: Life) {
    if l.phase == Working || l.phase == Reelection then l.(phase := Freezing, anchor := Some(now)) else l
  }

  /** An accepted Deadlock opens recovery, with fresh counters, and a freeze. */
  lemma DeadlockOpensRecovery(w: World, p: Policy, c: Conversing, id: nat, evidence: Evidence, now: nat,
        minted: Option<Mint>)
    requires !c.node.left && !c.node.s.queues.resolved.Has(id) && evidence.violation == Deadlock
    requires c.life.phase != Selection
    ensures var after := StepLife(w, p, c, Outcome(id, true, EmergencyCriteria(Some(evidence)), now, minted));
            && after.life == Frozen(c.life, now).(mode := Recovery, rounds := 0, exhausted := 0)
            && after.node.stewards == c.node.stewards
            && after.node.s.queues.approved == c.node.s.queues.approved
  {
    hide Replay, EmergencyScoreOps;
    var marked := c.node.s.queues.(resolved := c.node.s.queues.resolved.Insert(id));
    ReplayTouches(w, c.node.s.mls.group, marked);
  }

  /** The vote makes a removal urgent: it finds a member below the threshold whose removal
      is not queued yet. */
  predicate MakesUrgent(q: Queues, approved: bool, request: Request) {
    && approved && request.EmergencyCriteria? && request.evidence.Some?
    && request.evidence.value.violation == ScoreBelowThreshold
    && forall a | a in q.approved :: a.request != RemoveMember(request.evidence.value.target)
  }

  /** Every other vote leaves recovery and the list alone. An urgent removal opens a
      freeze; any other emergency with evidence, accepted or not, ends a reelection. */
  lemma OtherVotes(w: World, p: Policy, c: Conversing, id: nat, approved: bool, request: Request, now: nat,
        minted: Option<Mint>)
    requires !c.node.left && !c.node.s.queues.resolved.Has(id) && !request.StewardElection?
    requires !(approved && request.EmergencyCriteria? && request.evidence.Some? && request.evidence.value.violation == Deadlock)
    ensures var after := StepLife(w, p, c, Outcome(id, approved, request, now, minted));
            && after.node.stewards == c.node.stewards
            && after.life == if MakesUrgent(c.node.s.queues, approved, request) then Frozen(c.life, now)
                             else if request.EmergencyCriteria? && request.evidence.Some? && c.life.phase == Reelection
                             then c.life.(phase := Working, anchor := None)
                             else c.life
  {
    hide Replay, Minting;
    var (q, f) := OnOutcome(w, c.node.s.mls.group, c.node.s.queues, id, approved, request);
    var told := c.(node := c.node.(s := c.node.s.(queues := q)));
    FollowUpOfOthers(w, c.node.s.mls.group, c.node.s.queues, id, approved, request);
    MintingSameLife(w, told.(life := told.life.StartFreezing(now)), minted);
  }

  lemma MintingSameLife(w: World, c: Conversing, minted: Option<Mint>)
    ensures var after := Minting(w, c, minted);
            after.life == c.life && after.node.stewards == c.node.stewards && after.node.scoring == c.node.scoring
  {}

  lemma FollowUpOfOthers(w: World, g: Group, q: Queues, id: nat, approved: bool, request: Request)
    requires !q.resolved.Has(id) && !request.StewardElection?
    requires !(approved && request.EmergencyCriteria? && request.evidence.Some? && request.evidence.value.violation == Deadlock)
    ensures var f := OnOutcome(w, g, q, id, approved, request).1;
            && (f.UrgentRemoval? <==> MakesUrgent(q, approved, request))
            && !f.ElectionAccepted? && !f.ElectionRejected? && !f.RecoveryModeOpened?
  {
    hide Replay;
    if request.EmergencyCriteria? && request.evidence.Some? {
      assert q.HasApprovedRemoval(request.evidence.value.target)
        <==> exists a :: a in q.approved && a.request == RemoveMember(request.evidence.value.target);
    }
  }

  // ── Scores ──

  /** What an accepted accusation is called, and what it costs. */
  function FineFor(v: Violation): (fine: Option<(ScoreEvent, int)>) {
    match v
    case BrokenCommitViolation => Some((BrokenCommit, -50))
    case BrokenMlsProposalViolation => Some((BrokenMlsProposal, -30))
    case CensorshipViolation => Some((CensorshipInactivity, -40))
    case MisbehavingCommitViolation => Some((MisbehavingCommit, -10))
    case _ => None
  }

  /** An emergency that passes is worth 20 to whoever raised it and then costs its target
      the fine for the violation, if there is one; an emergency that fails costs whoever
      raised it 50, and its target nothing. Nobody else's score moves. */
  ghost predicate VoteScored(overrides: map<ScoreEvent, int>, evidence: Evidence, approved: bool,
        before: PeerScoring.Scores, after: PeerScoring.Scores) {
    && after.Keys == before.Keys
    && forall m :: m in before ==> exists between: int :: MemberScored(overrides, evidence, approved, m, before[m], between, after[m])
  }

  ghost predicate MemberScored(overrides: map<ScoreEvent, int>, evidence: Evidence, approved: bool, m: Id, before: int,
        between: int, after: int) {
    && (if m != evidence.creator then between == before
        else if approved then PeerScoring.MovedBy(overrides, EmergencyYesCreator, 20, before, between)
        else PeerScoring.MovedBy(overrides, EmergencyNoCreator, -50, before, between))
    && (if approved && m == evidence.target && FineFor(evidence.violation).Some?
        then var (event, weight) := FineFor(evidence.violation).value; PeerScoring.MovedBy(overrides, event, weight, between, after)
        else after == between)
  }

  lemma OneOpFold(scores: PeerScoring.Scores, overrides: map<ScoreEvent, int>, op: ScoreOp)
    ensures PeerScoring.FoldOps(scores, overrides, [op]) == PeerScoring.ApplyOp(scores, overrides, op)
  {
    assert [op][..0] == [];
  }

  lemma TwoOpFold(scores: PeerScoring.Scores, overrides: map<ScoreEvent, int>, a: ScoreOp, b: ScoreOp)
    ensures PeerScoring.FoldOps(scores, overrides, [a] + [b]) == PeerScoring.ApplyOp(PeerScoring.ApplyOp(scores, overrides, a), overrides, b)
  {
    hide PeerScoring.ApplyOp;
    assert ([a] + [b])[..1] == [a];
    OneOpFold(scores, overrides, a);
  }

  lemma VoteMovesScores(w: World, p: Policy, c: Conversing, id: nat, approved: bool, evidence: Evidence, now: nat,
        minted: Option<Mint>)
    requires !c.node.left && !c.node.s.queues.resolved.Has(id)
    ensures var after := StepLife(w, p, c, Outcome(id, approved, EmergencyCriteria(Some(evidence)), now, minted)).node.scoring;
            && after == c.node.scoring.(scores := after.scores)
            && VoteScored(c.node.scoring.overrides, evidence, approved, c.node.scoring.scores, after.scores)
  {
    hide OnOutcome, FollowUpOn, VoteScored, PeerScoring.FoldOps;
    var request := EmergencyCriteria(Some(evidence));
    var (q, f) := OnOutcome(w, c.node.s.mls.group, c.node.s.queues, id, approved, request);
    FollowUpKeepsScores(w, c.(node := c.node.(s := c.node.s.(queues := q))), f, now, minted);
    EmergencyTable(c.node.scoring, evidence, approved);
  }

  lemma FollowUpKeepsScores(w: World, c: Conversing, f: FollowUp, now: nat, minted: Option<Mint>)
    ensures FollowUpOn(w, c, f, now, minted).node.scoring == c.node.scoring
  {
    hide Minting, ValidateElection, Generate;
    MintingSameLife(w, c.(life := c.life.StartFreezing(now)), minted);
  }

  lemma EmergencyTable(scoring: Scoring, evidence: Evidence, approved: bool)
    ensures var after := scoring.Apply(EmergencyScoreOps(EmergencyCriteria(Some(evidence)), approved)).scores;
            VoteScored(scoring.overrides, evidence, approved, scoring.scores, after)
    ensures EmergencyScoreOps(EmergencyCriteria(Some(evidence)), approved) != []
  {
    hide PeerScoring.ApplyOp, PeerScoring.FoldOps, PeerScoring.MovedBy;
    var scores, overrides := scoring.scores, scoring.overrides;
    var first := ScoreOp(evidence.creator, if approved then EmergencyYesCreator else EmergencyNoCreator);
    var between := PeerScoring.ApplyOp(scores, overrides, first);
    PeerScoring.EventWeights(scores, overrides, first);
    OneOpFold(scores, overrides, first);
    if approved && FineFor(evidence.violation).Some? {
      var second := ScoreOp(evidence.target, FineFor(evidence.violation).value.0);
      PeerScoring.EventWeights(between, overrides, second);
      TwoOpFold(scores, overrides, first, second);
    }
    var after := scoring.Apply(EmergencyScoreOps(EmergencyCriteria(Some(evidence)), approved)).scores;
    assert [first] + [] == [first];
    forall m | m in scores ensures MemberScored(overrides, evidence, approved, m, scores[m], between[m], after[m]) {}
  }

  /** A request that is no emergency, or one without evidence, moves no score. */
  lemma OtherVotesKeepScores(w: World, p: Policy, c: Conversing, id: nat, approved: bool, request: Request, now: nat,
        minted: Option<Mint>)
    requires !request.EmergencyCriteria? || request.evidence.None?
    ensures StepLife(w, p, c, Outcome(id, approved, request, now, minted)).node.scoring == c.node.scoring
  {
    hide OnOutcome, FollowUpOn;
    var (q, f) := OnOutcome(w, c.node.s.mls.group, c.node.s.queues, id, approved, request);
    FollowUpKeepsScores(w, c.(node := c.node.(s := c.node.s.(queues := q))), f, now, minted);
  }
}
