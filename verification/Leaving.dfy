/** When a round tells a member that it is out, and when it is. */
module Leaving {
  import opened ByteStrings
  import opened Sorting
  import opened Protocol
  import opened MlsGroup
  import opened Seating
  import opened StewardLists
  import opened CommitBuffer
  import opened Queues
  import opened Consensus
  import opened CommitValidation
  import opened CommitApply
  import opened CandidateIntake
  import opened Agreement
  import opened Outcomes
  import opened Confluence
  import opened Nodes
  import opened Lifecycle
  import opened SyncMessages
  import opened ConversationModel
  import opened Membership

  // ── One round ──

  /** What a commit does to the member that judges it: our own never removes us, and a
      peer's removes us exactly if its verdict says so. */
  lemma VerdictKnowsRemoval(w: World, s: RoundState, stewards: Stewards, inRecovery: bool, self: Id, c: Buffered)
    requires self in SeatIds(s.mls.group.seats) && LocalOk(w, s, self) && c in s.queues.round.For(s.mls.group.epoch)
    ensures var v := VerdictOn(w, s, stewards, Snapshot(s.queues, s.mls.group, stewards, inRecovery, self), self, c);
            v.Accept? ==>
              && v.commit.Some?
              && (self in SeatIds(DeltaOf(s.mls.group.seats, v.commit.value.actions).removed) <==> !c.isLocal && v.leave)
              && (c.isLocal ==> v.leave == s.queues.HasApprovedRemoval(self))
  {
    hide SeatIds, ApplyActions;
    var v := VerdictOn(w, s, stewards, Snapshot(s.queues, s.mls.group, stewards, inRecovery, self), self, c);
    if v.Accept? {
      RemovedIds(s.mls.group.seats, v.commit.value.actions);
    }
  }

  /** In any round that merges a commit, a seated member is told to leave exactly if the
      commit removes it, or the commit is its own and its removal has been approved; and
      its own commit never removes it. */
  lemma LeaveIff(w: World, s: RoundState, stewards: Stewards, inRecovery: bool, allowSubset: bool, self: Id)
    requires self in SeatIds(s.mls.group.seats) && LocalOk(w, s, self)
    ensures var (after, r) := FinalizeRound(w, s, stewards, inRecovery, allowSubset, self);
            var best := Best(w, s, stewards, inRecovery, allowSubset, self);
            r.outcome.Applied? ==>
              && best.Some? && after.queues.delta.Some?
              && var removed := SeatIds(after.queues.delta.value.removed);
                 && (r.outcome.leave <==> self in removed || (best.value.isLocal && s.queues.HasApprovedRemoval(self)))
                 && (best.value.isLocal ==> self !in removed)
  {
    hide FinalizeRound, Best, VerdictOn, LocalOk, SeatIds, DeltaOf, Stamped, ApplyActions;
    var best := Best(w, s, stewards, inRecovery, allowSubset, self);
    RoundMergesWinner(w, s, stewards, inRecovery, allowSubset, self);
    BestIsAccepted(w, s, stewards, inRecovery, allowSubset, self);
    if best.Some? {
      VerdictKnowsRemoval(w, s, stewards, inRecovery, self, best.value);
    }
  }

  /** A complete own commit carries every approved change, so not while our removal is
      one of them. */
  lemma CompleteCommitStays(w: World, s: RoundState, self: Id, c: Buffered)
    requires IsOwn(w, s, self, c) && |c.msg.proposals| == |ApprovedActions(w, s.queues.approved)|
    ensures !s.queues.HasApprovedRemoval(self)
  {
    hide ApprovedActions;
    OwnActionsDistinct(w, s, self, c);
    SubsetCardinality(ActionSet(s.mls.own.value.actions), ApprovedActions(w, s.queues.approved));
    ApprovedActionsHas(w, s.queues);
  }

  /** In a strict round a seated member is told to leave exactly if the commit removes it. */
  lemma StrictRoundLeavesIff(w: World, s: RoundState, stewards: Stewards, self: Id)
    requires self in SeatIds(s.mls.group.seats) && LocalOk(w, s, self)
    ensures var (after, r) := FinalizeRound(w, s, stewards, false, false, self);
            r.outcome.Applied? ==> after.queues.delta.Some? && (r.outcome.leave <==> self in SeatIds(after.queues.delta.value.removed))
  {
    hide FinalizeRound, Best, SeatIds, IsOwn, ApprovedActions;
    LeaveIff(w, s, stewards, false, false, self);
    BestIsAccepted(w, s, stewards, false, false, self);
    var best := Best(w, s, stewards, false, false, self);
    if best.Some? && best.value.isLocal {
      OwnActionsExact(w, s, self, best.value);
      OwnActionsDistinct(w, s, self, best.value);
      CompleteCommitStays(w, s, self, best.value);
    }
  }

  // ── What the own path relies on, over every run ──

  /** Receiving makes no candidate ours. */
  lemma ReceiveKeepsLocals(w: World, g: Group, q: Queues, msg: Candidate)
    ensures forall c :: c in Receive(w, g, q, msg).0.round.For(g.epoch) && c.isLocal ==> c in q.round.For(g.epoch)
  {
    hide WireKindsOk, Members;
  }

  lemma {:induction false} ReceiveAllKeepsLocals(w: World, g: Group, q: Queues, msgs: seq<Candidate>)
    ensures forall c :: c in ReceiveAll(w, g, q, msgs).round.For(g.epoch) && c.isLocal ==> c in q.round.For(g.epoch)
  {
    hide Receive;
    if msgs != [] {
      ReceiveAllKeepsLocals(w, g, q, msgs[..|msgs| - 1]);
      ReceiveKeepsLocals(w, g, ReceiveAll(w, g, q, msgs[..|msgs| - 1]), msgs[|msgs| - 1]);
    }
  }

  /** A vote under a fresh id only adds to what is approved. */
  lemma VoteOnlyAdds(w: World, q: Queues, id: nat, approved: bool, request: Request)
    requires FreshId(q, id)
    ensures var q' := ApplyConsensus(w, q, id, approved, request).0; q.approved <= q'.approved && q'.round == q.round && q'.early == q.early
  {
    InsertFresh(q.approved, Approval(id, request));
    var target := PendingRemovalTarget(request, approved);
    if target.Some? { InsertFresh(q.approved, Approval(id, RemoveMember(target.value))); }
  }

  lemma PrefixActions(w: World, fewer: seq<Approval>, more: seq<Approval>)
    requires fewer <= more
    ensures ApprovedActions(w, fewer) <= ApprovedActions(w, more)
  {
    assert forall a :: a in fewer ==> a in more;
  }

  lemma OutcomeKeepsLocal(w: World, m: Member, s: RoundState, id: nat, approved: bool, request: Request)
    requires LocalOk(w, s, m.self) && FreshId(s.queues, id)
    ensures LocalOk(w, s.(queues := OnOutcome(w, s.mls.group, s.queues, id, approved, request).0), m.self)
  {
    hide LocalOk, ApplyConsensus, ReceiveAll, ApprovedActions;
    var q := s.queues;
    if !q.resolved.Has(id) {
      var marked := q.(resolved := q.resolved.Insert(id));
      var decided := ApplyConsensus(w, marked, id, approved, request).0;
      VoteOnlyAdds(w, marked, id, approved, request);
      ReplayTouches(w, s.mls.group, decided);
      ReceiveAllKeepsLocals(w, s.mls.group, decided.(early := []), decided.EarlyFor(s.mls.group.epoch));
      PrefixActions(w, q.approved, decided.approved);
      LocalOkCarries(w, m, s, OnOutcome(w, s.mls.group, q, id, approved, request).0);
    } else {
      assert s.(queues := q) == s;
    }
  }

  /** If the library answers, it keeps its promise on what the member would put in. */
  ghost predicate Promised(w: World, recovery: bool, n: Node, minted: Option<Mint>) {
    var inputs := MintInputs(w, recovery, n.kMax, n.s.mls.group, n.s.queues, n.stewards, n.self);
    inputs.Ok? && inputs.value != [] ==> MintPromise(w, n.s.mls, n.self, inputs.value, minted)
  }

  /** Votes come under fresh ids, and the library keeps its promise whenever it mints. */
  ghost predicate FairStep(w: World, c: Conversing, step: LifeStep) {
    var n, recovery := c.node, c.life.mode.Recovery?;
    match step
    case Outcome(id, approved, request, _, minted) =>
      && FreshId(n.s.queues, id)
      && Promised(w, recovery, n.(s := n.s.(queues := OnOutcome(w, n.s.mls.group, n.s.queues, id, approved, request).0)), minted)
    case Arrived(msg, _, minted) => Promised(w, recovery, n.(s := n.s.(queues := Receive(w, n.s.mls.group, n.s.queues, msg).0)), minted)
    case Manual(minted) => Promised(w, recovery, n, minted)
    case Freeze(_, minted, _) => Promised(w, recovery, n, minted)
    case Inactivity(_, _, minted) => Promised(w, recovery, n, minted)
    case _ => true
  }

  ghost predicate FairRun(w: World, p: Policy, c: Conversing, steps: seq<LifeStep>) {
    steps != [] ==>
      && FairRun(w, p, c, steps[..|steps| - 1])
      && FairStep(w, RunLife(w, p, c, steps[..|steps| - 1]), steps[|steps| - 1])
  }

  /** Nothing staged, and what is buffered as ours is the commit we have pending. */
  ghost predicate InOrder(w: World, n: Node) { n.s.mls.staged.None? && LocalOk(w, n.s, n.self) }

  /** The step keeps the group, who we are, and our own candidate in order. */
  ghost predicate KeepsOrder(w: World, n: Node, n': Node) {
    InOrder(w, n') && n'.self == n.self && n'.s.mls.group == n.s.mls.group && n'.left == n.left
  }

  lemma MintingInOrder(w: World, c: Conversing, minted: Option<Mint>)
    requires InOrder(w, c.node) && Promised(w, c.life.mode.Recovery?, c.node, minted)
    ensures KeepsOrder(w, c.node, Minting(w, c, minted).node)
  {
    hide LocalOk, MintInputs, MintPromise;
    var n := c.node;
    MintKeepsLocalOk(w, c.life.mode.Recovery?, n.kMax, n.s, n.stewards, n.self, minted);
  }

  lemma EnterFreezeInOrder(w: World, c: Conversing, now: nat, minted: Option<Mint>)
    requires InOrder(w, c.node) && Promised(w, c.life.mode.Recovery?, c.node, minted)
    ensures KeepsOrder(w, c.node, EnterFreeze(w, c, now, minted).node)
  {
    hide InOrder, Promised, Minting;
    MintingInOrder(w, c.(life := c.life.StartFreezing(now)), minted);
  }

  lemma OutcomeInOrder(w: World, c: Conversing, step: LifeStep)
    requires InOrder(w, c.node) && step.Outcome? && FairStep(w, c, step)
    ensures KeepsOrder(w, c.node, HandleOutcome(w, c, step.id, step.approved, step.request, step.now, step.minted).node)
  {
    hide LocalOk, OnOutcome, Promised, Minting, EnterFreeze, EmergencyScoreOps, ValidateElection, Generate, FreshId;
    var n := c.node;
    var q := OnOutcome(w, n.s.mls.group, n.s.queues, step.id, step.approved, step.request).0;
    OutcomeKeepsLocal(w, MemberOf(n), n.s, step.id, step.approved, step.request);
    EnterFreezeInOrder(w, c.(node := n.(s := n.s.(queues := q))), step.now, step.minted);
  }

  lemma ArrivalInOrder(w: World, c: Conversing, msg: Candidate, now: nat, minted: Option<Mint>)
    requires InOrder(w, c.node) && FairStep(w, c, Arrived(msg, now, minted))
    ensures KeepsOrder(w, c.node, CandidateArrived(w, c, msg, now, minted).node)
  {
    hide LocalOk, Receive, Promised, EnterFreeze, ApprovedActions;
    var n := c.node;
    var q := Receive(w, n.s.mls.group, n.s.queues, msg).0;
    ReceiveKeepsLocals(w, n.s.mls.group, n.s.queues, msg);
    ReceiveTouches(w, n.s.mls.group, n.s.queues, msg);
    LocalOkCarries(w, MemberOf(n), n.s, q);
    EnterFreezeInOrder(w, c.(node := n.(s := n.s.(queues := q))), now, minted);
  }

  /** Steps that end no round. */
  lemma QuietStepInOrder(w: World, p: Policy, c: Conversing, step: LifeStep)
    requires InOrder(w, c.node) && FairStep(w, c, step) && !step.Freeze? && !c.node.left
    ensures KeepsOrder(w, c.node, StepLife(w, p, c, step).node)
  {
    hide InOrder, Promised, HandleOutcome, CandidateArrived, Minting, EnterFreeze, OnSync;
    match step
    case Outcome(_, _, _, _, _) => OutcomeInOrder(w, c, step);
    case Arrived(msg, now, minted) => ArrivalInOrder(w, c, msg, now, minted);
    case Manual(minted) => MintingInOrder(w, c, minted);
    case Inactivity(now, _, minted) => EnterFreezeInOrder(w, c, now, minted);
    case Silence(_, _) => SameRoundInOrder(w, c.node, StepLife(w, p, c, step).node);
    case Synced(sync) =>
      SyncMoves(w, c.node, sync);
      SameRoundInOrder(w, c.node, OnSync(w, c.node, sync));
  }

  lemma SameRoundInOrder(w: World, n: Node, n': Node)
    requires InOrder(w, n) && n'.s == n.s && n'.self == n.self && n'.left == n.left
    ensures KeepsOrder(w, n, n')
  {}

  // ── The end of a round ──

  lemma EmptyIsInOrder(w: World, n: Node)
    requires n.s.mls.staged.None? && n.s.queues.round.For(n.s.mls.group.epoch) == []
    ensures InOrder(w, n)
  {}

  /** However a round closes, the member is in order and still seated unless it has been
      told to leave; it is told to leave if the commit removes it, and only then if the
      round was strict. */
  lemma CloseRoundLeaves(w: World, p: Policy, c: Conversing, now: nat, finalizeFails: bool)
    requires InOrder(w, c.node) && !c.node.left && c.node.self in SeatIds(c.node.s.mls.group.seats)
    ensures var n, n', gone := c.node, CloseRound(w, p, c, now, finalizeFails).node, if finalizeFails then {} else RoundDepartures(w, c);
            && InOrder(w, n') && n'.self == n.self
            && (!n'.left ==> n'.self in SeatIds(n'.s.mls.group.seats))
            && (n.self in gone ==> n'.left)
            && (c.life.mode.Normal? && !n.stewards.config.allowSubset ==> (n'.left <==> n.self in gone))
  {
    hide FinalizeRound, LocalOk, Best, Updated, Missed, SeatIds, DeltaOf, ApplyActions, Stamped;
    var n, recovery := c.node, c.life.mode.Recovery?;
    var subset := recovery || n.stewards.config.allowSubset;
    if finalizeFails {
      EmptyIsInOrder(w, CloseRound(w, p, c, now, finalizeFails).node);
    } else {
      var (after, r) := FinalizeRound(w, n.s, n.stewards, recovery, subset, n.self);
      var scored := n.(s := after, scoring := n.scoring.Apply(r.scoreOps));
      RoundEmptiesSlots(w, n.s, n.stewards, recovery, subset, n.self);
      LeaveIff(w, n.s, n.stewards, recovery, subset, n.self);
      if !subset { StrictRoundLeavesIff(w, n.s, n.stewards, n.self); }
      var actions := RoundMembership(w, n.s, n.stewards, recovery, subset, n.self);
      IdsAfterMerge(n.s.mls.group.seats, actions);
      RestIsInOrder(w, scored);
    }
  }

  /** Bringing scores and list up to date touches neither the group nor our candidate. */
  lemma RestIsInOrder(w: World, n: Node)
    requires n.s.mls.staged.None? && n.s.queues.round.For(n.s.mls.group.epoch) == []
    ensures InOrder(w, n) && InOrder(w, n.(left := true)) && InOrder(w, Updated(w, n)) && InOrder(w, Missed(n))
    ensures Updated(w, n).self == n.self && Updated(w, n).left == n.left && Updated(w, n).s.mls == n.s.mls
    ensures Missed(n).self == n.self && Missed(n).left == n.left && Missed(n).s.mls == n.s.mls
  {
    hide LocalOk, Reconcile, RescoreMembers;
    EmptyIsInOrder(w, n);
    EmptyIsInOrder(w, n.(left := true));
    EmptyIsInOrder(w, Updated(w, n));
    EmptyIsInOrder(w, Missed(n));
  }

  /** The step ends no round, or a strict one. */
  predicate StrictStep(c: Conversing, step: LifeStep) {
    step.Freeze? && c.life.phase.Freezing? ==> c.life.mode.Normal? && !c.node.stewards.config.allowSubset
  }

  predicate StrictRun(w: World, p: Policy, c: Conversing, steps: seq<LifeStep>) {
    steps != [] ==>
      && StrictRun(w, p, c, steps[..|steps| - 1])
      && StrictStep(RunLife(w, p, c, steps[..|steps| - 1]), steps[|steps| - 1])
  }

  lemma FreezeLeaves(w: World, p: Policy, c: Conversing, step: LifeStep)
    requires InOrder(w, c.node) && !c.node.left && c.node.self in SeatIds(c.node.s.mls.group.seats)
    requires step.Freeze? && FairStep(w, c, step)
    ensures var n, n', gone := c.node, StepLife(w, p, c, step).node, Departures(w, p, c, step);
            && InOrder(w, n') && n'.self == n.self
            && (!n'.left ==> n'.self in SeatIds(n'.s.mls.group.seats))
            && (n.self in gone ==> n'.left)
            && (StrictStep(c, step) ==> (n'.left <==> n.self in gone))
  {
    hide InOrder, Promised, Minting, CloseRound, RoundDue, RoundDepartures, SeatIds;
    if c.life.phase.Freezing? {
      var ready := AutoCommit(w, p, c, step.now, step.minted);
      MintingInOrder(w, c, step.minted);
      MintingSameList(w, c, step.minted);
      CloseRoundLeaves(w, p, ready, step.now, step.finalizeFails);
    }
  }

  lemma MintingSameList(w: World, c: Conversing, minted: Option<Mint>)
    ensures Minting(w, c, minted).node.stewards == c.node.stewards && Minting(w, c, minted).life == c.life
  {}

  /** Over every run a member stays seated until it is told to leave, and is told as soon
      as a commit removes it. In a run of strict rounds it is told only then. */
  lemma {:induction false} LeavesWhenRemoved(w: World, p: Policy, c: Conversing, steps: seq<LifeStep>)
    requires InOrder(w, c.node) && !c.node.left && c.node.self in SeatIds(c.node.s.mls.group.seats)
    requires FairRun(w, p, c, steps)
    ensures var n', gone := RunLife(w, p, c, steps).node, DeparturesIn(w, p, c, steps);
            && InOrder(w, n') && n'.self == c.node.self
            && (!n'.left ==> n'.self in SeatIds(n'.s.mls.group.seats))
            && (n'.self in gone ==> n'.left)
            && (StrictRun(w, p, c, steps) ==> (n'.left <==> n'.self in gone))
  {
    hide InOrder, FairStep, StepLife, Departures, StrictStep, SeatIds;
    if steps != [] {
      var rest, last := steps[..|steps| - 1], steps[|steps| - 1];
      var mid := RunLife(w, p, c, rest);
      LeavesWhenRemoved(w, p, c, rest);
      if mid.node.left {
        OutTakesNoStep(w, p, mid, last);
      } else if last.Freeze? {
        FreezeLeaves(w, p, mid, last);
      } else {
        QuietStepInOrder(w, p, mid, last);
        OnlyFreezesTakeOut(w, p, mid, last);
      }
    }
  }

  lemma OutTakesNoStep(w: World, p: Policy, c: Conversing, step: LifeStep)
    requires c.node.left
    ensures StepLife(w, p, c, step) == c && Departures(w, p, c, step) == {}
  {}

  lemma OnlyFreezesTakeOut(w: World, p: Policy, c: Conversing, step: LifeStep)
    requires !step.Freeze?
    ensures Departures(w, p, c, step) == {}
  {}

  /** From the start of a conversation, in a run of strict rounds: it rests in selection
      only once a commit has removed the member. */
  lemma SelectionMeansRemoved(w: World, p: Policy, n: Node, steps: seq<LifeStep>)
    requires InOrder(w, n) && !n.left && n.self in SeatIds(n.s.mls.group.seats)
    requires FairRun(w, p, Conversing(NewLife(), n), steps) && StrictRun(w, p, Conversing(NewLife(), n), steps)
    ensures var c := Conversing(NewLife(), n);
            RunLife(w, p, c, steps).life.phase.Selection? ==> n.self in DeparturesIn(w, p, c, steps)
  {
    hide InOrder, FairRun, StrictRun, RunLife, DeparturesIn, SeatIds;
    LifecycleSafety(w, p, n, steps);
    LeavesWhenRemoved(w, p, Conversing(NewLife(), n), steps);
  }

  // ── Keys ──

  /** What a member accepts is a valid commit of the group it is in. */
  lemma AcceptedIsValid(w: World, s: RoundState, stewards: Stewards, inRecovery: bool, self: Id, c: Buffered)
    requires LocalOk(w, s, self) && c in s.queues.round.For(s.mls.group.epoch)
    ensures var v := VerdictOn(w, s, stewards, Snapshot(s.queues, s.mls.group, stewards, inRecovery, self), self, c);
            v.Accept? ==> v.commit.Some? && ValidCommit(s.mls.group.seats, v.committer, v.commit.value.actions)
  {
    hide ValidCommit;
  }

  lemma RoundKeepsKeys(w: World, s: RoundState, stewards: Stewards, inRecovery: bool, allowSubset: bool, self: Id)
    requires LocalOk(w, s, self) && KeysDistinct(s.mls.group.seats)
    ensures KeysDistinct(FinalizeRound(w, s, stewards, inRecovery, allowSubset, self).0.mls.group.seats)
  {
    hide FinalizeRound, Best, VerdictOn, LocalOk, ApplyActions, KeysDistinct, ValidCommit, FinalizeBatch;
    RoundMergesWinner(w, s, stewards, inRecovery, allowSubset, self);
    BestIsAccepted(w, s, stewards, inRecovery, allowSubset, self);
    var best := Best(w, s, stewards, inRecovery, allowSubset, self);
    if best.Some? {
      var v := VerdictOn(w, s, stewards, Snapshot(s.queues, s.mls.group, stewards, inRecovery, self), self, best.value);
      AcceptedIsValid(w, s, stewards, inRecovery, self, best.value);
      ValidCommitSeatsEverybody(s.mls.group.seats, v.committer, v.commit.value.actions);
    }
  }

  lemma FreezeKeepsKeys(w: World, p: Policy, c: Conversing, step: LifeStep)
    requires InOrder(w, c.node) && !c.node.left && step.Freeze?
    requires FairStep(w, c, step) && KeysDistinct(c.node.s.mls.group.seats)
    ensures KeysDistinct(StepLife(w, p, c, step).node.s.mls.group.seats)
  {
    hide FinalizeRound, LocalOk, Promised, Minting, RoundDue, KeysDistinct, Updated, Missed;
    var ready := AutoCommit(w, p, c, step.now, step.minted);
    MintingInOrder(w, c, step.minted);
    var n, recovery := ready.node, ready.life.mode.Recovery?;
    var subset := recovery || n.stewards.config.allowSubset;
    RoundKeepsKeys(w, n.s, n.stewards, recovery, subset, n.self);
    var (after, r) := FinalizeRound(w, n.s, n.stewards, recovery, subset, n.self);
    RoundEmptiesSlots(w, n.s, n.stewards, recovery, subset, n.self);
    RestIsInOrder(w, n.(s := after, scoring := n.scoring.Apply(r.scoreOps)));
  }

  /** Over every run, recovery, subset rounds and syncs included, no key is ever seated
      twice. */
  lemma {:induction false} KeysNeverCollide(w: World, p: Policy, c: Conversing, steps: seq<LifeStep>)
    requires InOrder(w, c.node) && !c.node.left && c.node.self in SeatIds(c.node.s.mls.group.seats)
    requires FairRun(w, p, c, steps) && KeysDistinct(c.node.s.mls.group.seats)
    ensures KeysDistinct(RunLife(w, p, c, steps).node.s.mls.group.seats)
  {
    hide InOrder, FairStep, StepLife, KeysDistinct, SeatIds;
    if steps != [] {
      var rest, last := steps[..|steps| - 1], steps[|steps| - 1];
      var mid := RunLife(w, p, c, rest);
      KeysNeverCollide(w, p, c, rest);
      LeavesWhenRemoved(w, p, c, rest);
      if mid.node.left {
        OutTakesNoStep(w, p, mid, last);
      } else if last.Freeze? {
        FreezeKeepsKeys(w, p, mid, last);
      } else {
        QuietStepInOrder(w, p, mid, last);
      }
    }
  }
}
