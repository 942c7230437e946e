/** A three-member conversation in which the weak spots show: a subset round that splits
    the group, a sync that is refused because one listed steward has left, one that puts
    a stranger among the scores, and a member that leaves while it is seated. Every state
    in it is reached by the steps the program takes. */
module Examples {
  import opened ByteStrings
  import opened Sorting
  import opened Protocol
  import opened MlsGroup
  import opened StewardLists
  import opened CommitBuffer
  import opened Queues
  import opened Consensus
  import opened CommitValidation
  import opened CommitApply
  import opened CandidateIntake
  import opened Agreement
  import opened Outcomes
  import opened Nodes
  import opened Lifecycle
  import opened SyncMessages
  import opened ConversationModel
  import opened Membership
  import opened ConversationSync

  /** An accepted removal, nothing stashed: one entry more. */
  lemma RemovalVoted(w: World, g: Group, q: Queues, id: nat, target: Id)
    requires !q.resolved.Has(id) && FreshId(q, id) && !q.HasApprovedRemoval(target) && q.early == []
    ensures OnOutcome(w, g, q, id, true, RemoveMember(target))
         == (q.(approved := q.approved + [Approval(id, RemoveMember(target))], resolved := q.resolved.Insert(id)), QueuedRemoval(target))
  {
    InsertFresh(q.approved, Approval(id, RemoveMember(target)));
    assert Keep(OfEpoch(g.epoch), q.early) == [];
  }

  // ── A conversation of three ──

  /** Three seated members under one list, and a commit of the first that removes the
      second. */
  datatype Trio = Trio(w: World, g: Group, first: Id, second: Id, third: Id, proposal: Bytes, commit: Bytes, stewards: Stewards) {
    function Minted(): (m: Mint) { Mint(Artifacts([proposal], commit), [Remove(second)]) }

    function Message(): (c: Candidate) { Candidate([proposal], commit, first) }

    function Mine(): (c: Buffered) { Buffered(Message(), w.commitHash(commit), true) }

    function Fresh(): (s: Mls) { Mls(g, None, None) }

    /** After the vote on the second member... */
    function Voted(): (q: Queues) { OnOutcome(w, g, NewQueues(8), 1, true, RemoveMember(second)).0 }

    /** ...and after the one on the third. */
    function VotedTwice(): (q: Queues) { OnOutcome(w, g, Voted(), 2, true, RemoveMember(third)).0 }
  }

  /** Everybody is seated, and the messages are of the right kinds and stage as they
      should. */
  ghost predicate Present(t: Trio) {
    && t.first != t.second && t.second != t.third && t.first != t.third && t.first != []
    && SeatIds(t.g.seats) == {t.first, t.second, t.third} && |Members(t.g.seats)| >= 1
    && t.w.messageKind(t.proposal) == ProposalKind && t.w.messageKind(t.commit) == CommitKind && t.commit != []
    && Stage(t.w, t.g, [t.proposal], t.commit) == Staged(t.first, [Remove(t.second)])
    && t.stewards.IsSteward(t.first) && t.stewards.nextRound == 0
  }

  /** And everybody is on the list of an election in this epoch. */
  ghost predicate Seated(t: Trio) {
    && Present(t)
    && t.stewards.config == Config(1, 3, true)
    && Canonical(t.w, t.g.epoch, Members(t.g.seats), t.stewards.config, 0) == t.stewards.list.value.members
    && t.stewards.list.value == StewardList(t.stewards.list.value.members, t.stewards.config, t.g.epoch, 0)
    && |t.stewards.list.value.members| == 3 && (forall id :: id in SeatIds(t.g.seats) ==> id in t.stewards.list.value.members)
  }

  lemma TheVote(t: Trio)
    ensures var q := NewQueues(8);
            OnOutcome(t.w, t.g, q, 1, true, RemoveMember(t.second))
            == (q.(approved := [Approval(1, RemoveMember(t.second))], resolved := q.resolved.Insert(1)), QueuedRemoval(t.second))
  {
    RemovalVoted(t.w, t.g, NewQueues(8), 1, t.second);
  }

  lemma TheVotes(t: Trio)
    requires t.second != t.third
    ensures var q := t.VotedTwice();
            && q.approved == [Approval(1, RemoveMember(t.second)), Approval(2, RemoveMember(t.third))]
            && q == NewQueues(8).(approved := q.approved, resolved := q.resolved)
  {
    hide OnOutcome;
    TheVote(t);
    RemovalVoted(t.w, t.g, t.Voted(), 2, t.third);
  }

  lemma OneEntryBatch(t: Trio, approved: seq<Approval>)
    requires approved != [] && approved[0].request == RemoveMember(t.second) && t.second in SeatIds(t.g.seats)
    ensures SelectInputs(t.w, t.g.seats, None, Batch(approved, 1)) == Ok([RemoveId(t.second)])
  {
    hide SeatIds;
    var batch := Batch(approved, 1);
    assert batch == [approved[0]] && batch[..0] == [];
    assert SelectInputs(t.w, t.g.seats, None, []) == Ok([]);
    assert SelectInputs(t.w, t.g.seats, None, batch) == Ok([] + [RemoveId(t.second)]);
    assert [] + [RemoveId(t.second)] == [RemoveId(t.second)];
  }

  /** With a batch limit of one the first member commits the first removal, as the
      library promised. */
  lemma MintsFirstRemoval(t: Trio, q: Queues)
    requires Present(t) && q.approved != [] && q.approved[0].request == RemoveMember(t.second) && q.urgent.None?
    requires forall a :: a in q.approved ==> a.request.RemoveMember? && a.request.target != t.first
    ensures MintInputs(t.w, false, 1, t.g, q, t.stewards, t.first) == Ok([RemoveId(t.second)])
    ensures MintPromise(t.w, t.Fresh(), t.first, [RemoveId(t.second)], Some(t.Minted()))
  {
    hide Members, Stage, SelectInputs, Canonical;
    GovernanceShows(q.approved);
    OneEntryBatch(t, q.approved);
    OneInput(t.w, RemoveId(t.second));
  }

  /** What it mints is pending and alone in the buffer. */
  lemma MintsAlone(t: Trio, q: Queues)
    requires Present(t) && q.approved != [] && q.approved[0].request == RemoveMember(t.second) && q.urgent.None?
    requires forall a :: a in q.approved ==> a.request.RemoveMember? && a.request.target != t.first
    requires q.round.candidates == []
    ensures BuildLocal(t.w, false, 1, RoundState(t.Fresh(), q), t.stewards, t.first, Some(t.Minted()))
         == (RoundState(t.Fresh().(own := Some(Pending(t.commit, [Remove(t.second)]))), q.(round := CommitRound(t.g.epoch, [t.Mine()]))),
             Ok(Some(t.Message())))
  {
    hide Members, MintInputs, Present;
    MintsFirstRemoval(t, q);
    HasRoom(t);
    AddAlone(t.w, q.round, t.Message(), true, t.g.epoch, |Members(t.g.seats)|);
  }

  lemma AddAlone(w: World, r: CommitRound, msg: Candidate, isLocal: bool, epoch: nat, cap: nat)
    requires r.candidates == [] && cap >= 1
    ensures r.Add(w, msg, isLocal, epoch, cap) == CommitRound(epoch, [Buffered(msg, w.commitHash(msg.commit), isLocal)])
    ensures r.Admit(w, msg, epoch, cap) == Added
  {}

  lemma HasRoom(t: Trio)
    requires Present(t)
    ensures |Members(t.g.seats)| >= 1
  {}

  lemma ReceivesAlone(t: Trio, q: Queues)
    requires Present(t) && q.approved != [] && q.round.candidates == [] && q.committed.items == []
    ensures Receive(t.w, t.g, q, t.Message()) == (q.(round := CommitRound(t.g.epoch, [t.Mine().(isLocal := false)])), Received(t.first))
  {
    hide Members, Stage, Canonical;
    AddAlone(t.w, q.round, t.Message(), false, t.g.epoch, |Members(t.g.seats)|);
  }

  // ── A subset round that splits the group ──

  lemma SplitsOnTwoRemovals(t: Trio, mine: RoundState, theirs: RoundState)
    requires Seated(t) && mine.queues == t.VotedTwice().(round := CommitRound(t.g.epoch, [t.Mine()]))
    requires mine.mls == t.Fresh().(own := Some(Pending(t.commit, [Remove(t.second)])))
    requires theirs == RoundState(t.Fresh(), t.VotedTwice().(round := CommitRound(t.g.epoch, [t.Mine().(isLocal := false)])))
    ensures FinalizeRound(t.w, mine, t.stewards, false, true, t.first).1.outcome.Applied?
    ensures FinalizeRound(t.w, theirs, t.stewards, false, true, t.third).1.outcome.NoCandidate?
  {
    hide FinalizeRound, Stage, Members, Canonical, OnOutcome;
    TheVotes(t);
    TwoRemovalsApproved(t.w, mine.queues.approved[0], mine.queues.approved[1]);
    assert Remove(t.second) in ApprovedActions(t.w, mine.queues.approved) by { assert mine.queues.approved[0] in mine.queues.approved; }
    SubsetRoundSplits(t.w, mine, theirs, t.stewards, false, t.first, t.third, t.Mine());
  }

  /** Two removals are voted through and the batch limit is one. The first member, on the
      list, mints and buffers its commit as the library promised; the third receives it;
      the round accepts subsets. The first member merges and the third does not. */
  lemma SubsetRoundSplitExists() returns (t: Trio, mine: RoundState, theirs: RoundState)
    ensures Seated(t) && t.stewards.IsSteward(t.first) && t.stewards.config.allowSubset
    ensures MintInputs(t.w, false, 1, t.g, t.VotedTwice(), t.stewards, t.first) == Ok([RemoveId(t.second)])
    ensures MintPromise(t.w, t.Fresh(), t.first, [RemoveId(t.second)], Some(t.Minted()))
    ensures BuildLocal(t.w, false, 1, RoundState(t.Fresh(), t.VotedTwice()), t.stewards, t.first, Some(t.Minted())) == (mine, Ok(Some(t.Message())))
    ensures theirs.mls == t.Fresh()
    ensures Receive(t.w, t.g, t.VotedTwice(), t.Message()) == (theirs.queues, Received(t.first))
    ensures FinalizeRound(t.w, mine, t.stewards, false, true, t.first).1.outcome.Applied?
    ensures FinalizeRound(t.w, theirs, t.stewards, false, true, t.third).1.outcome.NoCandidate?
  {
    hide FinalizeRound, Stage, Members, MintInputs, BuildLocal, Receive, Canonical, OnOutcome;
    t := TrioExists();
    TheVotes(t);
    MintsFirstRemoval(t, t.VotedTwice());
    MintsAlone(t, t.VotedTwice());
    ReceivesAlone(t, t.VotedTwice());
    mine := BuildLocal(t.w, false, 1, RoundState(t.Fresh(), t.VotedTwice()), t.stewards, t.first, Some(t.Minted())).0;
    theirs := RoundState(t.Fresh(), Receive(t.w, t.g, t.VotedTwice(), t.Message()).0);
    SplitsOnTwoRemovals(t, mine, theirs);
  }

  // ── A sync refused because one steward has left ──

  lemma RankOne(c: Buffered, ctx: Context, allowSubset: bool)
    requires Applicable(ctx.mlsCount, allowSubset)(c)
    ensures Rank([c], ctx, allowSubset) == [c]
  {
    KeepOne(Applicable(ctx.mlsCount, allowSubset), c);
    assert [c][1..] == [];
    assert SortBy(Priority(ctx.epochSteward), []) == [];
  }

  /** A round over nothing but our own candidate merges our pending commit. */
  lemma LoneRound(w: World, s: RoundState, stewards: Stewards, inRecovery: bool, allowSubset: bool, self: Id,
        c: Buffered)
    requires s.queues.round.For(s.mls.group.epoch) == [c] && c.isLocal
    requires Applicable(MlsCount(s.queues.approved), allowSubset)(c)
    ensures var (after, r) := FinalizeRound(w, s, stewards, inRecovery, allowSubset, self);
            var taken := s.(queues := s.queues.(round := s.queues.round.Take(s.mls.group.epoch)));
            && (after, r.batch) == AfterMerge(taken, s.mls.own, c.hash, s.mls.group.epoch)
            && r.outcome == Applied(s.queues.HasApprovedRemoval(self))
  {
    hide AfterMerge, JudgeRemote, Rank;
    var taken := s.(queues := s.queues.(round := s.queues.round.Take(s.mls.group.epoch)));
    var ctx := Snapshot(taken.queues, s.mls.group, stewards, inRecovery, self);
    RankOne(c, ctx, allowSubset);
    SettleAt(w, taken, stewards, ctx, self, [c], 0);
  }

  function Clockwork(): (p: Policy) { Policy(10, 5, 10, None, 0) }

  function Start(t: Trio): (c: Conversing) {
    Conversing(NewLife(), Node(t.first, 1, RoundState(t.Fresh(), NewQueues(8)), t.stewards, Scoring(map[], 100, 0, map[]), false))
  }

  /** The vote passes, nobody commits, the inactivity window runs out, the first member
      mints, and the freeze ends. */
  function VotePasses(t: Trio): (s: LifeStep) { Outcome(1, true, RemoveMember(t.second), 0, None) }
  function WindowOpens(): (s: LifeStep) { Inactivity(0, false, None) }
  function WindowCloses(t: Trio): (s: LifeStep) { Inactivity(10, false, Some(t.Minted())) }
  function FreezeEnds(): (s: LifeStep) { Freeze(20, None, false) }
  function UpToTheMint(t: Trio): (steps: seq<LifeStep>) { [VotePasses(t)] + [WindowOpens()] + [WindowCloses(t)] }
  function Departing(t: Trio): (steps: seq<LifeStep>) { UpToTheMint(t) + [FreezeEnds()] }

  /** Right before the freeze ends. */
  function AboutToEnd(t: Trio): (c: Conversing) {
    Start(t).(life := NewLife().(phase := Freezing, anchor := Some(10)),
              node := Start(t).node.(s := RoundState(t.Fresh().(own := Some(Pending(t.commit, [Remove(t.second)]))),
                                                     t.Voted().(round := CommitRound(t.g.epoch, [t.Mine()])))))
  }

  lemma VoteStep(t: Trio)
    ensures StepLife(t.w, Clockwork(), Start(t), VotePasses(t)) == Start(t).(node := Start(t).node.(s := RoundState(t.Fresh(), t.Voted())))
  {
    hide OnOutcome;
    TheVote(t);
  }

  lemma ReachesTheEnd(t: Trio)
    requires Seated(t)
    ensures RunLife(t.w, Clockwork(), Start(t), UpToTheMint(t)) == AboutToEnd(t)
  {
    hide OnOutcome, HandleOutcome, BuildLocal, Members, Stage, Canonical, RunLife;
    TheVote(t);
    VoteStep(t);
    MintsAlone(t, t.Voted());
    RunLonger(t.w, Clockwork(), Start(t), [], VotePasses(t));
    RunLonger(t.w, Clockwork(), Start(t), [VotePasses(t)], WindowOpens());
    RunLonger(t.w, Clockwork(), Start(t), [VotePasses(t)] + [WindowOpens()], WindowCloses(t));
    assert [] + [VotePasses(t)] == [VotePasses(t)];
    NoSteps(t.w, Clockwork(), Start(t));
    var c1 := Start(t).(node := Start(t).node.(s := RoundState(t.Fresh(), t.Voted())));
    var c2 := StepLife(t.w, Clockwork(), c1, WindowOpens());
    assert c2 == c1.(life := c1.life.(anchor := Some(0)));
  }

  lemma NoSteps(w: World, p: Policy, c: Conversing)
    ensures RunLife(w, p, c, []) == c
  {}

  lemma LastDepartures(w: World, p: Policy, c: Conversing, steps: seq<LifeStep>, step: LifeStep)
    ensures Departures(w, p, RunLife(w, p, c, steps), step) <= DeparturesIn(w, p, c, steps + [step])
  {
    hide Departures, RunLife;
    assert (steps + [step])[..|steps|] == steps;
  }

  /** The round that ends: the second member is out, and the batch handed out for history
      does not mention the removal. */
  lemma RoundDropsSecond(t: Trio)
    requires Seated(t)
    ensures var s := AboutToEnd(t).node.s;
            var (after, r) := FinalizeRound(t.w, s, t.stewards, false, true, t.first);
            var actions := [Remove(t.second)];
            && r.outcome == Applied(false) && r.batch == [] && s.queues.approved != []
            && after.mls.group == Merge(t.g, t.commit, actions)
            && after.queues.delta == Some(DeltaOf(t.g.seats, actions))
            && t.second in SeatIds(DeltaOf(t.g.seats, actions).removed)
  {
    hide FinalizeRound, Members, Stage, Canonical, OnOutcome, ApplyActions, Stamped, SeatIds;
    var s := AboutToEnd(t).node.s;
    TheVote(t);
    MlsCountAll(s.queues.approved);
    LoneRound(t.w, s, t.stewards, false, true, t.first, t.Mine());
    RemovedIds(t.g.seats, [Remove(t.second)]);
    assert Remove(t.second) in [Remove(t.second)];
    KeepNothing(Survives(SeatIds(DeltaOf(t.g.seats, [Remove(t.second)]).removed)), s.queues.approved);
  }

  lemma EndStep(t: Trio)
    requires Seated(t)
    ensures var c4 := StepLife(t.w, Clockwork(), AboutToEnd(t), FreezeEnds());
            && !c4.node.left && c4.node.stewards.list == t.stewards.list
            && c4.node.s.mls.group == Merge(t.g, t.commit, [Remove(t.second)])
            && t.second in Departures(t.w, Clockwork(), AboutToEnd(t), FreezeEnds())
  {
    hide FinalizeRound, Members, Stage, Canonical, OnOutcome, ApplyActions, Generate, RescoreMembers;
    RoundDropsSecond(t);
  }

  lemma FirstStays(t: Trio)
    requires Seated(t)
    ensures t.first in Members(Merge(t.g, t.commit, [Remove(t.second)]).seats)
  {
    hide Members, Stage, Canonical, ApplyActions;
    IdsAfterMerge(t.g.seats, [Remove(t.second)]);
    RemovedIds(t.g.seats, [Remove(t.second)]);
    MembersHas(ApplyActions(t.g.seats, [Remove(t.second)]), t.first);
  }

  lemma StartIsElected(t: Trio)
    requires Seated(t)
    ensures ElectedAt(t.w, Start(t).node, t.stewards.list.value)
  {
    hide Members, Stage, Canonical;
    KeepAll(SettledIn(map[], t.g.epoch), Members(t.g.seats));
  }

  /** One departed steward is enough: the list stays in force, another of its stewards is
      still there, and the sync built from it is refused by a joiner of the same group. */
  lemma SyncRefusedThoughStewardsRemain() returns (t: Trio)
    ensures Seated(t)
    ensures var after := RunLife(t.w, Clockwork(), Start(t), Departing(t)).node;
            var members := Members(after.s.mls.group.seats);
            && !after.left && after.stewards.list.Some? && after.stewards.list == Start(t).node.stewards.list
            && t.first in after.stewards.list.value.members && t.first in members
            && BuildSync(after, []).Some?
            && ValidateSync(t.w, BuildSync(after, []).value, after.s.mls.group.epoch, members) != Ok(true)
  {
    hide Members, StepLife, RunLife, DeparturesIn, ValidateSync, Departures, Canonical, Stage, Merge;
    t := TrioExists();
    ReachesTheEnd(t);
    EndStep(t);
    FirstStays(t);
    RunLonger(t.w, Clockwork(), Start(t), UpToTheMint(t), FreezeEnds());
    LastDepartures(t.w, Clockwork(), Start(t), UpToTheMint(t), FreezeEnds());
    StartIsElected(t);
    SyncPassesIff(t.w, Clockwork(), Start(t), Departing(t), t.stewards.list.value, []);
  }

  /** The batch that goes out for history is empty although the commit carried out the
      only approved change. */
  lemma BatchOmitsTheRemoval() returns (t: Trio)
    ensures Seated(t)
    ensures var s := AboutToEnd(t).node.s;
            var (after, r) := FinalizeRound(t.w, s, t.stewards, false, true, t.first);
            && r.outcome == Applied(false) && s.queues.HasApprovedRemoval(t.second)
            && t.second !in SeatIds(after.mls.group.seats) && r.batch == []
  {
    hide FinalizeRound, Members, Stage, Canonical, OnOutcome, ApplyActions, Seated;
    t := TrioExists();
    RoundDropsSecond(t);
    TheVote(t);
    var q := AboutToEnd(t).node.s.queues;
    assert q.approved[0] in q.approved;
    SecondIsOut(t.g.seats, t.second);
  }

  lemma SecondIsOut(seats: Seats, gone: Id)
    ensures gone !in SeatIds(ApplyActions(seats, [Remove(gone)]))
  {
    var vacated := Vacate(seats, [Remove(gone)]);
    assert [Remove(gone)][1..] == [];
    assert SeatJoiners(vacated, []) == vacated;
    assert ApplyActions(seats, [Remove(gone)]) == vacated;
    forall leaf | leaf in vacated ensures MemberIdOf(leaf) != gone { assert Remove(gone) in [Remove(gone)]; }
  }

  // ── A member that leaves while it is seated ──

  /** After the mint the first member's own removal is voted through, too. */
  function OwnRemovalPasses(t: Trio): (s: LifeStep) { Outcome(2, true, RemoveMember(t.first), 15, None) }

  lemma OwnRemovalStep(t: Trio)
    requires Seated(t)
    ensures var c := AboutToEnd(t);
            var c' := StepLife(t.w, Clockwork(), c, OwnRemovalPasses(t));
            && c'.life == c.life && c'.node == c.node.(s := c'.node.s) && c'.node.s.mls == c.node.s.mls
            && c'.node.s.queues.round == c.node.s.queues.round
            && c'.node.s.queues.approved == c.node.s.queues.approved + [Approval(2, RemoveMember(t.first))]
            && |c'.node.s.queues.approved| == 2
  {
    hide OnOutcome, Members, Stage, Canonical;
    TheVote(t);
    RemovalVoted(t.w, t.g, AboutToEnd(t).node.s.queues, 2, t.first);
  }

  lemma LeavingRound(t: Trio, c: Conversing)
    requires Seated(t) && c.node == AboutToEnd(t).node.(s := c.node.s) && c.life == AboutToEnd(t).life
    requires c.node.s.mls == AboutToEnd(t).node.s.mls && c.node.s.queues.round == CommitRound(t.g.epoch, [t.Mine()])
    requires MlsCount(c.node.s.queues.approved) >= 1 && c.node.s.queues.HasApprovedRemoval(t.first)
    ensures var c' := StepLife(t.w, Clockwork(), c, FreezeEnds());
            c'.node.left && c'.life.phase.Selection? && c'.node.s.mls.group == Merge(t.g, t.commit, [Remove(t.second)])
  {
    hide FinalizeRound, Members, Stage, Canonical, OnOutcome, ApplyActions, DeltaOf, FinalizeBatch;
    LoneRound(t.w, c.node.s, t.stewards, false, true, t.first, t.Mine());
  }

  /** In a subset round a member that minted before its own removal was approved merges
      its own commit, is told that it is out, rests in selection for good, and is still
      seated. */
  lemma LeavesWhileSeated() returns (t: Trio)
    ensures Seated(t)
    ensures var after := RunLife(t.w, Clockwork(), Start(t), UpToTheMint(t) + [OwnRemovalPasses(t)] + [FreezeEnds()]);
            && after.node.left && after.life.phase.Selection?
            && after.node.s.mls.group == Merge(t.g, t.commit, [Remove(t.second)])
            && t.first in SeatIds(after.node.s.mls.group.seats)
  {
    hide Members, StepLife, RunLife, Canonical, Stage, Merge, OnOutcome, AboutToEnd, SeatIds;
    t := TrioExists();
    ReachesTheEnd(t);
    RunLonger(t.w, Clockwork(), Start(t), UpToTheMint(t), OwnRemovalPasses(t));
    RunLonger(t.w, Clockwork(), Start(t), UpToTheMint(t) + [OwnRemovalPasses(t)], FreezeEnds());
    var c := StepLife(t.w, Clockwork(), AboutToEnd(t), OwnRemovalPasses(t));
    OwnRemovalStep(t);
    VotedOnce(t);
    RemovalsCount(c.node.s.queues);
    LeavingRound(t, c);
    FirstStays(t);
    MembersHas(Merge(t.g, t.commit, [Remove(t.second)]).seats, t.first);
  }

  lemma VotedOnce(t: Trio)
    ensures AboutToEnd(t).node.s.queues.approved == [Approval(1, RemoveMember(t.second))]
    ensures AboutToEnd(t).node.s.queues.round == CommitRound(t.g.epoch, [t.Mine()])
  {
    hide OnOutcome;
    TheVote(t);
  }

  lemma RemovalsCount(q: Queues)
    requires |q.approved| == 2 && q.approved[0].request.RemoveMember? && q.approved[1].request.RemoveMember?
    ensures MlsCount(q.approved) == 2 && q.HasApprovedRemoval(q.approved[1].request.target)
  {
    MlsCountAll(q.approved);
    assert q.approved[1] in q.approved;
  }

  // ── A sync that lists a stranger ──

  /** The third member, before it has a list. */
  function Newcomer(t: Trio): (n: Node) {
    Node(t.third, 1, RoundState(t.Fresh(), NewQueues(8)), Stewards(None, Config(1, 3, true), 0, 0),
         Scoring(map id | id in SeatIds(t.g.seats) :: 100, 100, 0, map[]), false)
  }

  lemma StrangerIsTracked() returns (t: Trio, sync: Sync, stranger: Id)
    ensures Seated(t) && KeyedBySeats(Newcomer(t)) && stranger !in SeatIds(t.g.seats)
    ensures Adopts(t.w, Newcomer(t), sync) && stranger in OnSync(t.w, Newcomer(t), sync).scoring.scores
  {
    hide Members, Canonical, Stage, ValidateSync, OnSync, BuildSync, RunLife, DeparturesIn;
    t := TrioExists();
    StartIsElected(t);
    NoSteps(t.w, Clockwork(), Start(t));
    SyncPassesIff(t.w, Clockwork(), Start(t), [], t.stewards.list.value, []);
    NobodyDeparted(t.w, Clockwork(), Start(t));
    SomethingBuilt(Start(t).node);
    var honest := BuildSync(Start(t).node, []).value;
    stranger := [];
    forall leaf: Leaf ensures MemberIdOf(leaf) != [] { IdIsNotEmpty(leaf); }
    StrangerGetsScore(t.w, Newcomer(t), honest, stranger, 7);
    sync := honest.(scores := honest.scores + [(stranger, 7)]);
  }

  lemma NobodyDeparted(w: World, p: Policy, c: Conversing)
    ensures DeparturesIn(w, p, c, []) == {}
  {}

  lemma SomethingBuilt(n: Node)
    requires n.stewards.list.Some?
    ensures BuildSync(n, []).Some?
  {}

  // ── There is one ──

  /** Seats for three members. */
  lemma ThreeSeats(l0: Leaf, l1: Leaf, l2: Leaf, key: Bytes)
    requires l0 != l1 && l1 != l2 && l0 != l2
    ensures var seats: Seats := map[l0 := key, l1 := key, l2 := key];
            var ids := {MemberIdOf(l0), MemberIdOf(l1), MemberIdOf(l2)};
            && SeatIds(seats) == ids && |ids| == 3 && |seats| == 3
            && |Members(seats)| == 3 && forall id :: id in Members(seats) <==> id in ids
  {
    hide Members, MemberIdOf;
    var seats: Seats := map[l0 := key, l1 := key, l2 := key];
    var ids := {MemberIdOf(l0), MemberIdOf(l1), MemberIdOf(l2)};
    MemberIdInjective(l0, l1);
    MemberIdInjective(l1, l2);
    MemberIdInjective(l0, l2);
    assert seats.Keys == {l0, l1, l2};
    forall id ensures id in Members(seats) <==> id in ids {
      MembersHas(seats, id);
      SeatIdsHas(seats, l0);
      SeatIdsHas(seats, l1);
      SeatIdsHas(seats, l2);
    }
    forall id ensures id in SeatIds(seats) <==> id in ids { MembersHas(seats, id); }
    MembersDistinct(seats);
    DistinctCardinality(Members(seats));
    assert ToSet(Members(seats)) == ids;
  }

  /** A world in which one commit is around. The third member comes last in the order of
      round 0, the first one in that of every later round. */
  function OneCommitWorld(first: Id, second: Id, third: Id): (w: World) {
    World([], (b: Bytes) => b,
          (epoch: nat, round: nat, id: Bytes, salt: Bytes) => if id == (if round == 0 then third else first) then [1] else [0],
          (b: Bytes) => None,
          (b: Bytes) => if |b| == 1 then CommitKind else if |b| == 2 then ProposalKind else OtherKind,
          (g: Group, proposals: seq<Bytes>, commit: Bytes) => Opened([first], first, [Remove(second)]))
  }

  lemma ItStages(g: Group, first: Id, second: Id, third: Id, proposals: seq<Bytes>, commit: Bytes)
    requires first in SeatIds(g.seats) && second in SeatIds(g.seats) && first != second && |g.seats| < 0x1_0000_0000
    ensures Stage(OneCommitWorld(first, second, third), g, proposals, commit) == Staged(first, [Remove(second)])
  {
    hide ValidCommit, SeatIds;
    OneRemovalIsValid(g.seats, first, second);
  }

  lemma WholeList(w: World, epoch: nat, pool: seq<Id>) returns (list: StewardList)
    requires |pool| == 3
    ensures Generate(w, epoch, pool, Config(1, 3, true).ListSize(|pool|), Config(1, 3, true), 0) == Ok(list)
    ensures list == StewardList(Canonical(w, epoch, pool, Config(1, 3, true), 0), Config(1, 3, true), epoch, 0)
    ensures |list.members| == 3 && forall id :: id in pool ==> id in list.members
  {
    hide Canonical;
    var config := Config(1, 3, true);
    ValidateAcceptsExactlyCanonical(w, [], epoch, pool, config, 0);
    CanonicalIsWholePool(w, epoch, pool, config, 0);
    GeneratedFields(w, epoch, pool, config.ListSize(|pool|), config, 0);
    list := Generate(w, epoch, pool, config.ListSize(|pool|), config, 0).value;
    assert list.config == config;
    forall id | id in pool ensures id in list.members { assert id in multiset(pool) && id in multiset(list.members); }
  }

  lemma TrioOf(l0: Leaf, l1: Leaf, l2: Leaf, key: Bytes, proposal: Bytes, commit: Bytes, epoch: nat) returns (t: Trio)
    requires l0 != l1 && l1 != l2 && l0 != l2 && |proposal| == 2 && |commit| == 1
    ensures Seated(t)
  {
    hide Members, Canonical, Stage, MemberIdOf, Generate;
    var seats: Seats := map[l0 := key, l1 := key, l2 := key];
    var first, second, third := MemberIdOf(l0), MemberIdOf(l1), MemberIdOf(l2);
    var g := Group(epoch, seats, []);
    var w := OneCommitWorld(first, second, third);
    ThreeSeats(l0, l1, l2, key);
    ItStages(g, first, second, third, [proposal], commit);
    var list := WholeList(w, epoch, Members(seats));
    t := Trio(w, g, first, second, third, proposal, commit, Stewards(Some(list), Config(1, 3, true), 0, 0));
    IdIsNotEmpty(l0);
  }

  lemma IdIsNotEmpty(leaf: Leaf)
    ensures MemberIdOf(leaf) != []
  {}

  lemma TrioExists() returns (t: Trio)
    ensures Seated(t)
  {
    var l0: Leaf, l1: Leaf, l2: Leaf := 0, 1, 2;
    var proposal: Bytes, commit: Bytes := [1, 1], [2];
    t := TrioOf(l0, l1, l2, [], proposal, commit, 1);
  }
}
