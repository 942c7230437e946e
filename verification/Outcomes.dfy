/** Handling a resolved vote on the queues, and what whole runs of votes and merges
    keep: a clean approved queue in arrival order. */
module Outcomes {
  import opened ByteStrings
  import opened Sorting
  import opened Protocol
  import opened MlsGroup
  import opened StewardLists
  import opened Queues
  import opened Consensus
  import opened CommitApply
  import opened CandidateIntake

  /** The queue side of a consensus outcome: drop a repeat, record the id, apply the
      decision, and let stashed candidates back in. */
  function OnOutcome(w: World, g: Group, q: Queues, id: nat, approved: bool, request: Request): (r: (Queues,
        FollowUp)) {
    if q.resolved.Has(id) then (q, NoAction)
    else
      var (decided, followUp) := ApplyConsensus(w, q.(resolved := q.resolved.Insert(id)), id, approved, request);
      (Replay(w, g, decided), followUp)
  }

  method HandleQueueOutcome(w: World, conversation: ConversationQueues, mls: MlsService, id: nat, approved: bool,
        request: Request)
    returns (followUp: FollowUp)
    modifies conversation, conversation.commitRound
    ensures (conversation.Value(), followUp) == OnOutcome(w, mls.group, old(conversation.Value()), id, approved, request)
  {
    hide Replay, ApplyConsensus;
    if conversation.resolvedProposals.Has(id) {
      return NoAction;
    }
    conversation.MarkConsensusOutcomeApplied(id);
    followUp := ApplyConsensusResult(w, conversation, id, approved, request);
    ReplayEarlyCandidates(w, conversation, mls);
  }

  // ── Elections ──

  /** Does the proposed list match what we would build? */
  function ValidateElection(w: World, joinEpoch: map<Id, nat>, g: Group, stewards: Stewards, e: Election): (ok: bool) {
    Validate(w, e.stewards, e.epoch, Keep(SettledIn(joinEpoch, e.epoch), Members(g.seats)), stewards.config, e.retryRound) == Ok(true)
  }

  /** A failed round costs a retry, saturating. */
  function Bumped(stewards: Stewards): (r: Stewards) {
    stewards.(nextRound := if stewards.nextRound < U32_MAX then stewards.nextRound + 1 else stewards.nextRound)
  }

  /** An accepted list is installed if it checks out; a rejected one costs a round. */
  function Elect(w: World, joinEpoch: map<Id, nat>, g: Group, stewards: Stewards, accepted: bool,
        e: Election): (r: Stewards) {
    if !accepted then Bumped(stewards)
    else if !ValidateElection(w, joinEpoch, g, stewards, e) then stewards
    else match stewards.Install(w, e.epoch, e.stewards, |e.stewards|, e.retryRound)
      case Ok(installed) => installed
      case Err(_) => stewards
  }

  /** A list that checks out always installs, member for member. */
  lemma ValidElectionInstalls(w: World, joinEpoch: map<Id, nat>, g: Group, stewards: Stewards, e: Election)
    requires stewards.config.Valid() && ValidateElection(w, joinEpoch, g, stewards, e)
    ensures var installed := stewards.Install(w, e.epoch, e.stewards, |e.stewards|, e.retryRound);
            && installed.Ok? && installed.value == Elect(w, joinEpoch, g, stewards, true, e)
            && installed.value.list.Some? && installed.value.list.value.members == e.stewards
  {
    var pool := Keep(SettledIn(joinEpoch, e.epoch), Members(g.seats));
    ValidateAcceptsExactlyCanonical(w, e.stewards, e.epoch, pool, stewards.config, e.retryRound);
    ReinstallReproduces(w, e.epoch, pool, stewards.config.ListSize(|pool|), stewards.config, e.retryRound);
  }

  // ── Replay touches only the round and the stash ──

  lemma {:induction false} ReceiveAllTouches(w: World, g: Group, q: Queues, msgs: seq<Candidate>)
    ensures var q' := ReceiveAll(w, g, q, msgs); q' == q.(round := q'.round, early := q'.early)
  {
    if msgs != [] {
      ReceiveAllTouches(w, g, q, msgs[..|msgs| - 1]);
    }
  }

  lemma ReplayTouches(w: World, g: Group, q: Queues)
    ensures var q' := Replay(w, g, q); q' == q.(round := q'.round, early := q'.early)
  {
    ReceiveAllTouches(w, g, q.(early := []), q.EarlyFor(g.epoch));
  }

  lemma OutcomeKeepsJoinEpochs(w: World, g: Group, q: Queues, id: nat, approved: bool, request: Request)
    ensures OnOutcome(w, g, q, id, approved, request).0.joinEpoch == q.joinEpoch
  {
    hide Replay;
    var marked := q.(resolved := q.resolved.Insert(id));
    ReplayTouches(w, g, ApplyConsensus(w, marked, id, approved, request).0);
  }

  lemma HygieneReads(w: World, q: Queues, q': Queues)
    requires Hygienic(w, q) && q'.approved == q.approved && q'.urgent == q.urgent
    ensures Hygienic(w, q')
  {}

  /** An outcome under a fresh id keeps the queue clean and approves exactly the
      change it stands for. */
  lemma OutcomeEffect(w: World, g: Group, q: Queues, id: nat, approved: bool, request: Request)
    requires Hygienic(w, q) && FreshId(q, id) && !q.resolved.Has(id) && WellFormed(w, request)
    ensures var q' := OnOutcome(w, g, q, id, approved, request).0;
            && Hygienic(w, q')
            && q'.approved == q.approved + Entry(w, q, id, approved, request)
            && ApprovedActions(w, q'.approved) == ApprovedActions(w, q.approved) + Gain(w, approved, request)
            && q'.resolved == q.resolved.Insert(id)
            && q'.committed == q.committed && q'.joinEpoch == q.joinEpoch && q'.delta == q.delta
  {
    hide Hygienic, ApplyConsensus, Entry, Gain, Replay;
    var marked := q.(resolved := q.resolved.Insert(id));
    var decided := ApplyConsensus(w, marked, id, approved, request).0;
    HygieneReads(w, q, marked);
    OutcomeKeepsHygiene(w, marked, id, approved, request);
    EntryReads(w, q, marked, id, approved, request);
    ReplayTouches(w, g, decided);
    HygieneReads(w, decided, Replay(w, g, decided));
  }

  lemma EntryReads(w: World, q: Queues, q': Queues, id: nat, approved: bool, request: Request)
    requires q'.approved == q.approved
    ensures Entry(w, q', id, approved, request) == Entry(w, q, id, approved, request)
  {}

  // ── Runs ──

  /** What can happen to the queues: a vote resolves, or a commit merges. */
  datatype QueueStep =
    | Decided(group: Group, id: nat, approved: bool, request: Request)
    | Committed(delta: Delta, hash: Bytes, epoch: nat)

  function StepQueues(w: World, q: Queues, step: QueueStep): (r: Queues) {
    match step
    case Decided(g, id, approved, request) => OnOutcome(w, g, q, id, approved, request).0
    case Committed(d, hash, epoch) => FinalizeBatch(q.(delta := Some(d)), hash, epoch).0
  }

  function RunQueues(w: World, q: Queues, steps: seq<QueueStep>): (r: Queues) {
    if steps == [] then q else StepQueues(w, RunQueues(w, q, steps[..|steps| - 1]), steps[|steps| - 1])
  }

  /** Proposal ids in the order their votes resolved. */
  function Arrivals(steps: seq<QueueStep>): (ids: seq<nat>) {
    if steps == [] then []
    else Arrivals(steps[..|steps| - 1]) + match steps[|steps| - 1] case Decided(_, id, _, _) => [id] case Committed(_, _, _) => []
  }

  ghost predicate Precedes(s: seq<nat>, x: nat, y: nat) { exists k, l :: 0 <= k < l < |s| && s[k] == x && s[l] == y }

  /** The entries sit in the order their votes resolved. */
  ghost predicate InArrivalOrder(approved: seq<Approval>, arrivals: seq<nat>) {
    && (forall a :: a in approved ==> a.proposalId in arrivals)
    && (forall i, j :: 0 <= i < j < |approved| ==> Precedes(arrivals, approved[i].proposalId, approved[j].proposalId))
  }

  lemma OrderSurvivesFilter(p: Approval -> bool, approved: seq<Approval>, arrivals: seq<nat>)
    requires InArrivalOrder(approved, arrivals)
    ensures InArrivalOrder(Keep(p, approved), arrivals)
  {
    var kept := Keep(p, approved);
    forall a | a in kept ensures a.proposalId in arrivals { KeepMembers(p, approved, a); }
    forall i, j | 0 <= i < j < |kept| ensures Precedes(arrivals, kept[i].proposalId, kept[j].proposalId) {
      var k, l := KeepOrder(p, approved, i, j);
    }
  }

  lemma PrecedesGrows(arrivals: seq<nat>, id: nat, x: nat, y: nat)
    requires Precedes(arrivals, x, y) || (x in arrivals && y == id)
    ensures Precedes(arrivals + [id], x, y)
  {
    var grown := arrivals + [id];
    if Precedes(arrivals, x, y) {
      var k, l :| 0 <= k < l < |arrivals| && arrivals[k] == x && arrivals[l] == y;
      assert grown[k] == x && grown[l] == y;
    } else {
      var k :| 0 <= k < |arrivals| && arrivals[k] == x;
      assert grown[k] == x && grown[|arrivals|] == y;
    }
  }

  lemma OrderSurvivesArrival(approved: seq<Approval>, entry: seq<Approval>, arrivals: seq<nat>, id: nat)
    requires InArrivalOrder(approved, arrivals)
    requires |entry| <= 1 && forall a :: a in entry ==> a.proposalId == id
    ensures InArrivalOrder(approved + entry, arrivals + [id])
  {
    var grown := approved + entry;
    forall i, j | 0 <= i < j < |grown| ensures Precedes(arrivals + [id], grown[i].proposalId, grown[j].proposalId) {
      assert grown[i] in approved;
      if j >= |approved| { assert grown[j] in entry; }
      PrecedesGrows(arrivals, id, grown[i].proposalId, grown[j].proposalId);
    }
  }

  lemma CommitKeepsHygiene(w: World, q: Queues, d: Delta, hash: Bytes, epoch: nat, arrivals: seq<nat>)
    requires Hygienic(w, q) && InArrivalOrder(q.approved, arrivals)
    ensures var q' := StepQueues(w, q, Committed(d, hash, epoch));
            Hygienic(w, q') && InArrivalOrder(q'.approved, arrivals) && q'.resolved == q.resolved
  {
    hide Hygienic, InArrivalOrder;
    var gone := SeatIds(d.removed);
    var noted := q.(committed := q.committed.Insert(hash), delta := Some(d));
    var stamped := noted.Bookkept(epoch);
    var q' := StepQueues(w, q, Committed(d, hash, epoch));
    HygieneReads(w, q, noted);
    RemovedIsFiltered(w, noted, gone);
    OrderSurvivesFilter(Survives(gone), q.approved, arrivals);
    if stamped.urgent.Some? {
      var cleared := stamped.(urgent := None);
      HygieneReads(w, noted.DropRemovals(gone).(urgent := None), cleared);
      RemovedIsFiltered(w, cleared, {stamped.urgent.value});
      HygieneReads(w, cleared.DropRemovals({stamped.urgent.value}).(urgent := None), q');
      OrderSurvivesFilter(Survives({stamped.urgent.value}), stamped.approved, arrivals);
    } else {
      EmptyIsClean(w, q', arrivals);
    }
  }

  lemma EmptyIsClean(w: World, q: Queues, arrivals: seq<nat>)
    requires q.approved == [] && q.urgent.None?
    ensures Hygienic(w, q) && InArrivalOrder(q.approved, arrivals)
  {}

  /** The run's invariant. */
  ghost predicate CleanRun(w: World, q: Queues, arrivals: seq<nat>) {
    && Hygienic(w, q)
    && InArrivalOrder(q.approved, arrivals)
    && (forall id :: id in q.resolved.items ==> id in arrivals)
  }

  lemma {:induction false} RunIsClean(w: World, window: nat, steps: seq<QueueStep>)
    requires Distinct(Arrivals(steps))
    requires forall s :: s in steps && s.Decided? ==> WellFormed(w, s.request)
    ensures CleanRun(w, RunQueues(w, NewQueues(window), steps), Arrivals(steps))
  {
    hide Hygienic, InArrivalOrder, Entry, OnOutcome, FinalizeBatch;
    if steps == [] {
      EmptyIsClean(w, NewQueues(window), []);
    } else {
      var rest, last := steps[..|steps| - 1], steps[|steps| - 1];
      assert steps == rest + [last];
      var q := RunQueues(w, NewQueues(window), rest);
      var before, after := Arrivals(rest), Arrivals(steps);
      assert Distinct(before) by { assert forall i :: 0 <= i < |before| ==> before[i] == after[i]; }
      RunIsClean(w, window, rest);
      if last.Decided? {
        assert after == before + [last.id];
        assert last.id !in before by { assert forall i :: 0 <= i < |before| ==> before[i] == after[i] != after[|before|]; }
        CleanRunDecides(w, q, before, last);
      } else {
        assert after == before;
        CommitKeepsHygiene(w, q, last.delta, last.hash, last.epoch, before);
      }
    }
  }

  lemma CleanRunDecides(w: World, q: Queues, arrivals: seq<nat>, step: QueueStep)
    requires CleanRun(w, q, arrivals) && step.Decided? && step.id !in arrivals && WellFormed(w, step.request)
    ensures CleanRun(w, StepQueues(w, q, step), arrivals + [step.id])
  {
    hide Hygienic, OnOutcome, Gain;
    OutcomeEffect(w, step.group, q, step.id, step.approved, step.request);
    OrderSurvivesArrival(q.approved, Entry(w, q, step.id, step.approved, step.request), arrivals, step.id);
  }

  /** Hashes of the commits, in the order they merged. */
  function Hashes(steps: seq<QueueStep>): (hs: seq<Bytes>) {
    if steps == [] then []
    else Hashes(steps[..|steps| - 1]) + match steps[|steps| - 1] case Committed(_, hash, _) => [hash] case Decided(_, _, _, _) => []
  }

  lemma InsertOneMore<T>(window: Window<T>, items: seq<T>, item: T)
    ensures InsertAll(window, items + [item]) == InsertAll(window, items).Insert(item)
    ensures InsertAll(window, items + []) == InsertAll(window, items)
  {
    assert (items + [item])[..|items|] == items;
    assert items + [] == items;
  }

  lemma StepRemembers(w: World, q: Queues, step: QueueStep)
    ensures var q' := StepQueues(w, q, step);
            match step
            case Decided(_, id, _, _) => q'.committed == q.committed && q'.resolved == q.resolved.Insert(id)
            case Committed(_, hash, _) => q'.resolved == q.resolved && q'.committed == q.committed.Insert(hash)
  {
    hide Replay, InsertApproval;
    if step.Decided? && !q.resolved.Has(step.id) {
      var marked := q.(resolved := q.resolved.Insert(step.id));
      ReplayTouches(w, step.group, ApplyConsensus(w, marked, step.id, step.approved, step.request).0);
    }
  }

  /** Over any run: the outcomes remembered are the last 256 that came in, and the commits
      remembered the last that merged, as many as the window holds. */
  lemma {:induction false} RecentIsRemembered(w: World, window: nat, steps: seq<QueueStep>)
    ensures var q := RunQueues(w, NewQueues(window), steps);
            && q.resolved == InsertAll(EmptyWindow(256), Arrivals(steps))
            && q.committed == InsertAll(EmptyWindow(window), Hashes(steps))
  {
    hide StepQueues;
    if steps != [] {
      var rest, last := steps[..|steps| - 1], steps[|steps| - 1];
      RecentIsRemembered(w, window, rest);
      StepRemembers(w, RunQueues(w, NewQueues(window), rest), last);
      match last
      case Decided(_, id, _, _) =>
        InsertOneMore(EmptyWindow(256), Arrivals(rest), id);
        assert Hashes(rest) + [] == Hashes(rest);
      case Committed(_, hash, _) =>
        InsertOneMore(EmptyWindow(window), Hashes(rest), hash);
        assert Arrivals(rest) + [] == Arrivals(rest);
    }
  }

  /** Over any run of well-formed votes under distinct ids, with commits in between:
      one removal per member, one invite per joiner key, nothing but membership
      changes, arrival order, and an urgent target whose removal is queued. */
  lemma ApprovedQueueHygiene(w: World, window: nat, steps: seq<QueueStep>)
    requires Distinct(Arrivals(steps))
    requires forall s :: s in steps && s.Decided? ==> WellFormed(w, s.request)
    ensures var q := RunQueues(w, NewQueues(window), steps);
            && (forall a :: a in q.approved ==> ProducesMlsAction(a.request))
            && (forall i, j :: 0 <= i < j < |q.approved| && q.approved[i].request.RemoveMember? && q.approved[j].request.RemoveMember?
                  ==> q.approved[i].request.target != q.approved[j].request.target)
            && (forall i, j :: 0 <= i < j < |q.approved| && q.approved[i].request.MemberInvite? && q.approved[j].request.MemberInvite?
                  ==> w.keyOf(q.approved[i].request.keyPackage) != w.keyOf(q.approved[j].request.keyPackage))
            && InArrivalOrder(q.approved, Arrivals(steps))
            && (q.urgent.Some? ==> q.HasApprovedRemoval(q.urgent.value))
  {
    RunIsClean(w, window, steps);
    var q := RunQueues(w, NewQueues(window), steps);
    forall i, j | 0 <= i < j < |q.approved|
      ensures ActionOf(w, q.approved[i].request) != ActionOf(w, q.approved[j].request)
    {}
  }
}
