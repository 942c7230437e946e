/** Seen from the protocol, a conversation outside recovery is a member that lives
    through epochs: its run is a run of rounds and the events since the last one. */
module Projection {
  import opened ByteStrings
  import opened Protocol
  import opened StewardLists
  import opened Queues
  import opened CommitApply
  import opened CandidateIntake
  import opened Outcomes
  import opened Confluence
  import opened Nodes
  import opened Lockstep
  import opened Lifecycle
  import opened SyncMessages
  import opened ConversationModel
  import PeerScoring

  /** Rounds that are over, and what has happened since. */
  datatype History = History(rounds: seq<NodeStep>, since: seq<Event>)

  function Replayed(w: World, n: Node, h: History): (r: Node) {
    var rested := RunNode(w, n, h.rounds);
    if rested.left then rested else LiveThrough(w, rested, h.since)
  }

  /** A steward that enters a freeze mints. */
  function MintEvents(c: Conversing, minted: Option<Mint>): (es: seq<Event>) {
    if c.life.CanFreeze() && c.node.stewards.IsSteward(c.node.self) then [MintOwn(minted)] else []
  }

  /** What a step that ends no round amounts to. */
  function EventsOf(w: World, p: Policy, c: Conversing, step: LifeStep): (es: seq<Event>) {
    match step
    case Outcome(id, approved, request, now, minted) =>
      if c.node.s.queues.resolved.Has(id) then []
      else if request.StewardElection? then [ListVote(id, approved, request.election)]
      else
        [Decide(id, approved, request)]
        + if OnOutcome(w, c.node.s.mls.group, c.node.s.queues, id, approved, request).1.UrgentRemoval? then MintEvents(c, minted) else []
    case Arrived(msg, now, minted) =>
      [Arrive(msg)] + if Receive(w, c.node.s.mls.group, c.node.s.queues, msg).1.Received? then MintEvents(c, minted) else []
    case Inactivity(now, inFlight, minted) =>
      if !inFlight && c.life.phase.Working? && c.node.s.queues.approved != [] && Elapsed(c.life.anchor, now, InactivityWindow(p, c))
      then MintEvents(c, minted)
      else []
    case Silence(now, inFlight) =>
      if c.life.phase.Reelection? && !inFlight && Elapsed(c.life.silence, now, p.retryWindow) then [Silent] else []
    case _ => []
  }

  predicate EndsRound(w: World, p: Policy, c: Conversing, step: LifeStep) {
    step.Freeze? && c.life.phase.Freezing? && RoundDue(p, c, step.now)
  }

  /** Add a step to the history. Which candidates were in circulation is not recorded. */
  function Recorded(w: World, p: Policy, c: Conversing, h: History, step: LifeStep): (r: History) {
    if c.node.left then h
    else if EndsRound(w, p, c, step) then History(h.rounds + [Epoch(h.since, {})], [])
    else h.(since := h.since + EventsOf(w, p, c, step))
  }

  function HistoryOf(w: World, p: Policy, c: Conversing, steps: seq<LifeStep>): (h: History) {
    if steps == [] then History([], [])
    else Recorded(w, p, RunLife(w, p, c, steps[..|steps| - 1]), HistoryOf(w, p, c, steps[..|steps| - 1]), steps[|steps| - 1])
  }

  // ── One event at a time ──

  /** What one event does to a node. */
  function OneEvent(w: World, n: Node, e: Event): (r: Node) {
    n.(s := StepRound(w, MemberOf(n), n.s, e),
       stewards := StepMember(w, MemberOf(n), n.s, e).stewards,
       scoring := match e case Decide(_, approved, request) => n.scoring.Apply(EmergencyScoreOps(request, approved)) case _ => n.scoring)
  }

  lemma {:induction false} ScoresConcat(s: PeerScoring.Scores, overrides: map<ScoreEvent, int>, a: seq<ScoreOp>,
        b: seq<ScoreOp>)
    ensures PeerScoring.FoldOps(s, overrides, a + b) == PeerScoring.FoldOps(PeerScoring.FoldOps(s, overrides, a), overrides, b)
  {
    if b == [] {
      assert a + b == a;
    } else {
      assert (a + b)[..|a + b| - 1] == a + b[..|b| - 1];
      ScoresConcat(s, overrides, a, b[..|b| - 1]);
    }
  }

  lemma {:induction false} OnlyStewardsMove(w: World, m: Member, s: RoundState, es: seq<Event>)
    ensures MemberAfter(w, m, s, es) == m.(stewards := MemberAfter(w, m, s, es).stewards)
  {
    hide StepRound, Elect;
    if es != [] {
      OnlyStewardsMove(w, m, s, es[..|es| - 1]);
    }
  }

  lemma LiveOneMore(w: World, n: Node, es: seq<Event>, e: Event)
    ensures LiveThrough(w, n, es + [e]) == OneEvent(w, LiveThrough(w, n, es), e)
  {
    hide StepRound, StepMember, EmergencyScoreOps;
    assert (es + [e])[..|es|] == es;
    OnlyStewardsMove(w, MemberOf(n), n.s, es);
    var more := match e case Decide(_, approved, request) => EmergencyScoreOps(request, approved) case _ => [];
    assert VoteScores(es + [e]) == VoteScores(es) + more;
    ScoresConcat(n.scoring.scores, n.scoring.overrides, VoteScores(es), more);
  }

  function Events(w: World, n: Node, es: seq<Event>): (r: Node) {
    if es == [] then n else OneEvent(w, Events(w, n, es[..|es| - 1]), es[|es| - 1])
  }

  lemma {:induction false} LiveMore(w: World, n: Node, es: seq<Event>, more: seq<Event>)
    ensures LiveThrough(w, n, es + more) == Events(w, LiveThrough(w, n, es), more)
  {
    hide LiveThrough, OneEvent;
    if more == [] {
      assert es + more == es;
    } else {
      var rest := more[..|more| - 1];
      assert es + more == (es + rest) + [more[|more| - 1]];
      LiveMore(w, n, es, rest);
      LiveOneMore(w, n, es + rest, more[|more| - 1]);
    }
  }

  lemma OneOrTwo(w: World, n: Node, a: Event, b: Event)
    ensures Events(w, n, []) == n
    ensures Events(w, n, [a]) == OneEvent(w, n, a)
    ensures Events(w, n, [a] + [b]) == OneEvent(w, OneEvent(w, n, a), b)
  {
    assert [a][..0] == [] && ([a] + [b])[..1] == [a];
  }

  // ── Steps as events ──

  lemma MintingIsEvent(w: World, c: Conversing, minted: Option<Mint>)
    requires c.life.mode.Normal?
    ensures Minting(w, c, minted).node == OneEvent(w, c.node, MintOwn(minted))
  {
    hide MintInputs;
  }

  lemma EnterFreezeIsEvents(w: World, c: Conversing, now: nat, minted: Option<Mint>)
    requires c.life.mode.Normal?
    ensures EnterFreeze(w, c, now, minted).node == Events(w, c.node, MintEvents(c, minted))
  {
    hide Minting, OneEvent;
    OneOrTwo(w, c.node, MintOwn(minted), MintOwn(minted));
    MintingIsEvent(w, c.(life := c.life.StartFreezing(now)), minted);
  }

  lemma ElectionIsEvent(w: World, c: Conversing, id: nat, approved: bool, e: Election, now: nat, minted: Option<Mint>)
    requires !c.node.s.queues.resolved.Has(id)
    ensures HandleOutcome(w, c, id, approved, StewardElection(e), now, minted).node == OneEvent(w, c.node, ListVote(id, approved, e))
  {
    hide Replay, ValidateElection, Generate;
    OutcomeKeepsJoinEpochs(w, c.node.s.mls.group, c.node.s.queues, id, approved, StewardElection(e));
  }

  /** The queue and score effect of a vote that is not on a list. */
  function Decided(w: World, c: Conversing, id: nat, approved: bool, request: Request): (r: Conversing) {
    c.(node := c.node.(s := c.node.s.(queues := OnOutcome(w, c.node.s.mls.group, c.node.s.queues, id, approved, request).0)))
  }

  lemma DecisionIsEvents(w: World, c: Conversing, id: nat, approved: bool, request: Request, now: nat,
        minted: Option<Mint>)
    requires !c.node.s.queues.resolved.Has(id) && c.life.mode.Normal? && !request.StewardElection?
    ensures HandleOutcome(w, c, id, approved, request, now, minted).node
         == Events(w, c.node, [Decide(id, approved, request)]
              + if OnOutcome(w, c.node.s.mls.group, c.node.s.queues, id, approved, request).1.UrgentRemoval? then MintEvents(c, minted) else [])
  {
    hide OnOutcome, Minting, BuildLocal, EmergencyScoreOps;
    var (q, f) := OnOutcome(w, c.node.s.mls.group, c.node.s.queues, id, approved, request);
    var decided := Decided(w, c, id, approved, request);
    NoListFollowUp(w, c.node.s.mls.group, c.node.s.queues, id, approved, request);
    OneOrTwo(w, c.node, Decide(id, approved, request), MintOwn(minted));
    assert [Decide(id, approved, request)] + [] == [Decide(id, approved, request)];
    MintingIsEvent(w, decided.(life := decided.life.StartFreezing(now)), minted);
  }

  lemma NoListFollowUp(w: World, g: Group, q: Queues, id: nat, approved: bool, request: Request)
    requires !request.StewardElection?
    ensures var f := OnOutcome(w, g, q, id, approved, request).1; !f.ElectionAccepted? && !f.ElectionRejected?
  {
    hide Replay;
  }

  lemma ArrivalIsEvents(w: World, c: Conversing, msg: Candidate, now: nat, minted: Option<Mint>)
    requires c.life.mode.Normal?
    ensures CandidateArrived(w, c, msg, now, minted).node
         == Events(w, c.node, [Arrive(msg)]
              + if Receive(w, c.node.s.mls.group, c.node.s.queues, msg).1.Received? then MintEvents(c, minted) else [])
  {
    hide Receive, Minting, BuildLocal;
    var heard := c.(node := c.node.(s := c.node.s.(queues := Receive(w, c.node.s.mls.group, c.node.s.queues, msg).0)));
    OneOrTwo(w, c.node, Arrive(msg), MintOwn(minted));
    assert [Arrive(msg)] + [] == [Arrive(msg)];
    MintingIsEvent(w, heard.(life := heard.life.StartFreezing(now)), minted);
  }

  /** A normal step that ends no round and takes no sync over is its events. */
  lemma StepIsEvents(w: World, p: Policy, c: Conversing, step: LifeStep)
    requires c.life.mode.Normal? && !c.node.left && !EndsRound(w, p, c, step) && !Adopting(w, c, step)
    ensures StepLife(w, p, c, step).node == Events(w, c.node, EventsOf(w, p, c, step))
  {
    hide HandleOutcome, CandidateArrived, EnterFreeze, OneEvent, OnOutcome, Receive, MintEvents, CloseRound, Adopts;
    match step
    case Outcome(id, approved, request, now, minted) =>
      if c.node.s.queues.resolved.Has(id) {
        HandledOnce(w, c, id, approved, request, now, minted);
      } else if request.StewardElection? {
        ElectionIsEvent(w, c, id, approved, request.election, now, minted);
        OneOrTwo(w, c.node, ListVote(id, approved, request.election), Silent);
      } else {
        DecisionIsEvents(w, c, id, approved, request, now, minted);
      }
    case Arrived(msg, now, minted) => ArrivalIsEvents(w, c, msg, now, minted);
    case Inactivity(now, inFlight, minted) => EnterFreezeIsEvents(w, c, now, minted);
    case Silence(now, inFlight) =>
      OneOrTwo(w, c.node, Silent, Silent);
      SilenceIsEvent(w, c.node);
    case _ =>
  }

  lemma HandledOnce(w: World, c: Conversing, id: nat, approved: bool, request: Request, now: nat, minted: Option<Mint>)
    requires c.node.s.queues.resolved.Has(id)
    ensures HandleOutcome(w, c, id, approved, request, now, minted) == c
  {}

  lemma SilenceIsEvent(w: World, n: Node)
    ensures OneEvent(w, n, Silent) == n.(stewards := Bumped(n.stewards))
  {}

  // ── Whole runs ──

  /** No step of the run takes a sync over. */
  predicate NoneAdopts(w: World, p: Policy, c: Conversing, steps: seq<LifeStep>) {
    steps != [] ==>
      && NoneAdopts(w, p, c, steps[..|steps| - 1])
      && !Adopting(w, RunLife(w, p, c, steps[..|steps| - 1]), steps[|steps| - 1])
  }

  /** Outside recovery, with nothing opening it, no finalization failing and no list
      taken over from a sync. */
  ghost predicate NormalRun(w: World, p: Policy, c: Conversing, steps: seq<LifeStep>) {
    && c.life.mode.Normal?
    && NoneOpens(w, p, c, steps) && NoneAdopts(w, p, c, steps)
    && forall s :: s in steps && s.Freeze? ==> !s.finalizeFails
  }

  lemma OutcomeStaysNormal(w: World, c: Conversing, id: nat, approved: bool, request: Request, now: nat,
        minted: Option<Mint>)
    requires c.life.mode.Normal? && !c.node.left && !Opens(w, c, Outcome(id, approved, request, now, minted))
    ensures HandleOutcome(w, c, id, approved, request, now, minted).life.mode.Normal?
  {
    hide OnOutcome, Minting, ValidateElection, Generate, EmergencyScoreOps;
    MintingKeeps(w, Decided(w, c, id, approved, request).(life := c.life.StartFreezing(now)), minted);
  }

  lemma FreezeStaysNormal(w: World, p: Policy, c: Conversing, step: LifeStep)
    requires c.life.mode.Normal? && step.Freeze?
    ensures AdvanceFreezing(w, p, c, step.now, step.minted, step.finalizeFails).life.mode.Normal?
  {
    hide FinalizeRound, Missed, Updated, RoundDue;
  }

  lemma StaysNormal(w: World, p: Policy, c: Conversing, step: LifeStep)
    requires c.life.mode.Normal? && !Opens(w, c, step)
    ensures StepLife(w, p, c, step).life.mode.Normal?
  {
    hide HandleOutcome, AdvanceFreezing, Minting, Receive, Opens;
    if !c.node.left {
      match step
      case Outcome(id, approved, request, now, minted) => OutcomeStaysNormal(w, c, id, approved, request, now, minted);
      case Freeze(_, _, _) => FreezeStaysNormal(w, p, c, step);
      case Arrived(msg, now, minted) =>
        var heard := c.(node := c.node.(s := c.node.s.(queues := Receive(w, c.node.s.mls.group, c.node.s.queues, msg).0)));
        MintingKeeps(w, heard.(life := c.life.StartFreezing(now)), minted);
      case Inactivity(now, inFlight, minted) => MintingKeeps(w, c.(life := c.life.StartFreezing(now)), minted);
      case _ =>
    }
  }

  lemma {:induction false} RunStaysNormal(w: World, p: Policy, c: Conversing, steps: seq<LifeStep>)
    requires NormalRun(w, p, c, steps)
    ensures RunLife(w, p, c, steps).life.mode.Normal?
  {
    hide StepLife, Opens, Adopting;
    if steps != [] {
      var rest, last := steps[..|steps| - 1], steps[|steps| - 1];
      RunStaysNormal(w, p, c, rest);
      StaysNormal(w, p, RunLife(w, p, c, rest), last);
    }
  }

  /** Every run of a conversation that stays out of recovery and takes no sync over leaves
      its protocol state where the recorded rounds and events leave a member of the
      lockstep runs. */
  lemma {:induction false} NormalRunIsNodeRun(w: World, p: Policy, c: Conversing, steps: seq<LifeStep>)
    requires NormalRun(w, p, c, steps) && !c.node.left
    ensures RunLife(w, p, c, steps).node == Replayed(w, c.node, HistoryOf(w, p, c, steps))
    ensures RunLife(w, p, c, steps).node.left == RunNode(w, c.node, HistoryOf(w, p, c, steps).rounds).left
  {
    hide StepLife, Opens, Adopting, LiveThrough, EndRound, EventsOf, RoundDue, Events;
    if steps == [] {
      LiveNothing(w, c.node);
    } else {
      var rest, last := steps[..|steps| - 1], steps[|steps| - 1];
      assert steps == rest + [last] && last in steps;
      var mid, h := RunLife(w, p, c, rest), HistoryOf(w, p, c, rest);
      NormalRunIsNodeRun(w, p, c, rest);
      RunStaysNormal(w, p, c, rest);
      if mid.node.left {
        LeftTakesNoStep(w, p, mid, last);
      } else if EndsRound(w, p, mid, last) {
        RoundIsRecorded(w, p, mid, last);
        assert (h.rounds + [Epoch(h.since, {})])[..|h.rounds|] == h.rounds;
        LiveNothing(w, EndRound(w, mid.node));
      } else {
        StepIsEvents(w, p, mid, last);
        StepKeepsLeft(w, p, mid, last);
        LiveMore(w, RunNode(w, c.node, h.rounds), h.since, EventsOf(w, p, mid, last));
      }
    }
  }

  lemma LiveNothing(w: World, n: Node)
    ensures LiveThrough(w, n, []) == n
  {}

  lemma LeftTakesNoStep(w: World, p: Policy, c: Conversing, step: LifeStep)
    requires c.node.left
    ensures StepLife(w, p, c, step) == c
  {}

  lemma RoundIsRecorded(w: World, p: Policy, c: Conversing, step: LifeStep)
    requires c.life.mode.Normal? && !c.node.left && EndsRound(w, p, c, step) && !step.finalizeFails
    ensures StepLife(w, p, c, step).node == EndRound(w, c.node)
  {
    hide CloseRound, EndRound;
    NormalRoundIsEndRound(w, p, c, step.now);
  }

  lemma StepKeepsLeft(w: World, p: Policy, c: Conversing, step: LifeStep)
    requires c.life.mode.Normal? && !c.node.left && !EndsRound(w, p, c, step)
    ensures !StepLife(w, p, c, step).node.left
  {
    hide OnOutcome, Minting, Receive, ValidateElection, Generate, EmergencyScoreOps, CloseRound, RoundDue;
    match step
    case Outcome(id, approved, request, now, minted) =>
      MintingKeeps(w, Decided(w, c, id, approved, request).(life := c.life.StartFreezing(now)), minted);
    case Arrived(msg, now, minted) =>
      var heard := c.(node := c.node.(s := c.node.s.(queues := Receive(w, c.node.s.mls.group, c.node.s.queues, msg).0)));
      MintingKeeps(w, heard.(life := c.life.StartFreezing(now)), minted);
    case Inactivity(now, inFlight, minted) => MintingKeeps(w, c.(life := c.life.StartFreezing(now)), minted);
    case _ =>
  }

  // ── Lockstep of conversations ──

  /** The same events, epoch by epoch; a run does not read which candidates were around. */
  ghost predicate SameEvents(steps: seq<NodeStep>, others: seq<NodeStep>) {
    |steps| == |others| && forall i :: 0 <= i < |steps| ==> steps[i].events == others[i].events
  }

  lemma {:induction false} UniverseUnread(w: World, n: Node, steps: seq<NodeStep>, others: seq<NodeStep>)
    requires SameEvents(steps, others)
    ensures RunNode(w, n, steps) == RunNode(w, n, others)
  {
    hide LiveThrough, EndRound;
    if steps != [] {
      UniverseUnread(w, n, steps[..|steps| - 1], others[..|others| - 1]);
    }
  }

  /** Lockstep for conversations: two of them that start alike, stay out of recovery, and
      whose epochs match, are alike whenever both have just ended a round. */
  lemma ConversationsStayAlike(w: World, p: Policy, a: Conversing, steps: seq<LifeStep>, epochs: seq<NodeStep>,
        q: Policy, b: Conversing, others: seq<LifeStep>, otherEpochs: seq<NodeStep>)
    requires NormalRun(w, p, a, steps) && NormalRun(w, q, b, others) && !a.node.left && !b.node.left
    requires HistoryOf(w, p, a, steps).since == [] && HistoryOf(w, q, b, others).since == []
    requires SameEvents(epochs, HistoryOf(w, p, a, steps).rounds)
    requires SameEvents(otherEpochs, HistoryOf(w, q, b, others).rounds)
    requires NodeOk(w, a.node) && NodeOk(w, b.node) && Alike(w, a.node, b.node)
    requires StepsOk(w, a.node, epochs) && StepsOk(w, b.node, otherEpochs)
    requires SameSteps(w, a.node, epochs, b.node, otherEpochs)
    requires !RunLife(w, p, a, steps).node.left && !RunLife(w, q, b, others).node.left
    ensures Alike(w, RunLife(w, p, a, steps).node, RunLife(w, q, b, others).node)
  {
    hide Alike, NodeOk, StepsOk, SameSteps, RunNode, RunLife, HistoryOf, LiveThrough, NormalRun;
    NormalRunIsNodeRun(w, p, a, steps);
    NormalRunIsNodeRun(w, q, b, others);
    UniverseUnread(w, a.node, epochs, HistoryOf(w, p, a, steps).rounds);
    UniverseUnread(w, b.node, otherEpochs, HistoryOf(w, q, b, others).rounds);
    LiveNothing(w, RunNode(w, a.node, epochs));
    LiveNothing(w, RunNode(w, b.node, otherEpochs));
    LockstepConvergence(w, a.node, epochs, b.node, otherEpochs);
  }
}
