/** Members that start alike and see the same votes and the same candidates stay alike,
    epoch after epoch, whatever the order in which things reach each of them. */
module Lockstep {
  import opened ByteStrings
  import opened Sorting
  import opened Protocol
  import opened MlsGroup
  import opened StewardLists
  import opened Queues
  import opened Consensus
  import opened CommitApply
  import opened CandidateIntake
  import opened Outcomes
  import opened Agreement
  import opened Confluence
  import opened Nodes

  /** The same commit history and seats, the same changes approved, the same join
      epochs, commit memory, stewards and candidates at hand. */
  ghost predicate Alike(w: World, a: Node, b: Node) {
    && a.s.mls.group == b.s.mls.group
    && ApprovedActions(w, a.s.queues.approved) == ApprovedActions(w, b.s.queues.approved)
    && a.s.queues.committed == b.s.queues.committed
    && a.s.queues.joinEpoch == b.s.queues.joinEpoch
    && Known(a.s.queues, a.s.mls.group.epoch) == Known(b.s.queues, b.s.mls.group.epoch)
    && a.stewards == b.stewards
  }

  // ── One round at one member ──

  /** How the member looks once a round without a winner is over. */
  ghost predicate StayedPut(n: Node, n': Node) {
    && n'.s.mls.group == n.s.mls.group && n'.stewards == n.stewards
    && n'.s.queues.approved == n.s.queues.approved
    && n'.s.queues.committed == n.s.queues.committed && n'.s.queues.joinEpoch == n.s.queues.joinEpoch
    && Known(n'.s.queues, n.s.mls.group.epoch) == Stashed(n.s.queues, n.s.mls.group.epoch)
  }

  /** How it looks once `won` is merged. */
  ghost predicate MovedOn(w: World, n: Node, n': Node, won: (Bytes, Option<Pending>)) {
    && n'.s.mls.group == Merged(n.s.mls.group, won.1)
    && n'.s.queues.approved == []
    && n'.s.queues.committed == n.s.queues.committed.Insert(won.0)
    && n'.s.queues.joinEpoch == Stamped(n.s.queues.joinEpoch, MergedDelta(n.s.mls.group, won.1), n.s.mls.group.epoch + 1)
    && n'.stewards == Reconcile(w, n'.s.queues, n'.s.mls.group, n.stewards.(nextRound := 0))
    && Known(n'.s.queues, n'.s.mls.group.epoch) == {}
  }

  lemma RoundWithoutWinner(w: World, n: Node, universe: set<Candidate>)
    requires MemberOk(w, MemberOf(n), n.s, universe) && n.s.queues.urgent.None?
    requires Winner(w, n.s, n.stewards, false, n.stewards.config.allowSubset, n.self).None?
    ensures StayedPut(n, EndRound(w, n)) && NodeOk(w, EndRound(w, n)) && EndRound(w, n).left == n.left
  {
    hide FinalizeRound, Winner, InRound, LocalOk, Known, Stashed;
    RoundMergesWinner(w, n.s, n.stewards, false, n.stewards.config.allowSubset, n.self);
    var after := FinalizeRound(w, n.s, n.stewards, false, n.stewards.config.allowSubset, n.self).0;
    var q' := EndRound(w, n).s.queues;
    UnbufferedInRound(w, n.s.mls.group, n.s.queues, q', universe);
  }

  lemma RoundWithWinner(w: World, n: Node, universe: set<Candidate>)
    requires MemberOk(w, MemberOf(n), n.s, universe) && n.s.queues.urgent.None?
    requires Winner(w, n.s, n.stewards, false, n.stewards.config.allowSubset, n.self).Some?
    requires !EndRound(w, n).left
    ensures MovedOn(w, n, EndRound(w, n), Winner(w, n.s, n.stewards, false, n.stewards.config.allowSubset, n.self).value)
    ensures NodeOk(w, EndRound(w, n))
  {
    hide FinalizeRound, Winner, Best, InRound, LocalOk, Known, Merged, MergedDelta, Stamped, AfterMerge, RescoreMembers, VerdictOn;
    RoundMergesWinner(w, n.s, n.stewards, false, n.stewards.config.allowSubset, n.self);
    RoundEmptiesSlots(w, n.s, n.stewards, false, n.stewards.config.allowSubset, n.self);
    var won := Winner(w, n.s, n.stewards, false, n.stewards.config.allowSubset, n.self).value;
    var taken := n.s.(queues := n.s.queues.(round := n.s.queues.round.Take(n.s.mls.group.epoch)));
    AfterMergeNothingUrgent(taken, won.1, won.0, n.s.mls.group.epoch);
    var (after, result) := FinalizeRound(w, n.s, n.stewards, false, n.stewards.config.allowSubset, n.self);
    var n' := EndRound(w, n);
    assert n' == Updated(w, n.(s := after, scoring := n.scoring.Apply(result.scoreOps)));
    assert n'.s.queues == after.queues.(delta := None);
    EarlyIsPast(w, n.s.mls.group, n.s.queues, universe);
    FreshEpochInRound(w, n'.s.mls.group, n'.s.queues);
    ReconcileKeepsConfig(w, n'.s.queues, n'.s.mls.group, n.stewards.(nextRound := 0));
  }

  lemma EarlyIsPast(w: World, g: Group, q: Queues, universe: set<Candidate>)
    requires InRound(w, g, q, universe)
    ensures forall e :: e in q.early ==> e.epoch <= g.epoch
  {}

  lemma ReconcileKeepsConfig(w: World, q: Queues, g: Group, stewards: Stewards)
    ensures Reconcile(w, q, g, stewards).config == stewards.config
  {}

  // ── One round at two members ──

  /** What moves the steward list, in order. */
  function ListEvents(es: seq<Event>): (r: seq<Event>) { Keep(MovesList(), es) }

  function MovesList(): Event -> bool { (e: Event) => e.ListVote? || e.Silent? }

  /** The same votes resolve, those on lists in the same order, and the same admissible
      candidates are at hand by the end of the round, each member's own among them. */
  ghost predicate SameEpoch(w: World, a: Node, es: seq<Event>, b: Node, fs: seq<Event>) {
    && (forall e: Event :: e.Decide? ==> (e in es <==> e in fs))
    && ListEvents(es) == ListEvents(fs)
    && HeardIn(w, MemberOf(a), a.s, es) == HeardIn(w, MemberOf(b), b.s, fs)
  }

  lemma SameGains(w: World, es: seq<Event>, fs: seq<Event>)
    requires forall e: Event :: e.Decide? ==> (e in es <==> e in fs)
    ensures GainedIn(w, es) == GainedIn(w, fs)
  {
    forall a ensures a in GainedIn(w, es) <==> a in GainedIn(w, fs) {
      GainedInHas(w, es, a);
      GainedInHas(w, fs, a);
    }
  }

  function MoveList(w: World, joinEpoch: map<Id, nat>, g: Group, stewards: Stewards, e: Event): (r: Stewards) {
    match e
    case ListVote(_, accepted, election) => Elect(w, joinEpoch, g, stewards, accepted, election)
    case Silent => Bumped(stewards)
    case _ => stewards
  }

  /** The stewards after a sequence of list events, whatever else went on. */
  function FoldLists(w: World, joinEpoch: map<Id, nat>, g: Group, stewards: Stewards, ls: seq<Event>): (r: Stewards) {
    if ls == [] then stewards
    else MoveList(w, joinEpoch, g, FoldLists(w, joinEpoch, g, stewards, ls[..|ls| - 1]), ls[|ls| - 1])
  }

  lemma FoldListsGrow(w: World, joinEpoch: map<Id, nat>, g: Group, stewards: Stewards, es: seq<Event>, e: Event)
    ensures FoldLists(w, joinEpoch, g, stewards, ListEvents(es + [e]))
         == MoveList(w, joinEpoch, g, FoldLists(w, joinEpoch, g, stewards, ListEvents(es)), e)
  {
    hide Elect;
    KeepConcat(MovesList(), es, [e]);
    KeepOne(MovesList(), e);
    if MovesList()(e) {
      assert ListEvents(es + [e])[..|ListEvents(es)|] == ListEvents(es);
    } else {
      assert ListEvents(es + [e]) == ListEvents(es);
    }
  }

  lemma StepMovesList(w: World, m: Member, s: RoundState, e: Event, universe: set<Candidate>)
    requires EventOk(w, m, s, e, universe)
    ensures StepMember(w, m, s, e).stewards == MoveList(w, s.queues.joinEpoch, s.mls.group, m.stewards, e)
    ensures StepMember(w, m, s, e).stewards.config == m.stewards.config
  {
    if e.ListVote? {
      ElectKeepsConfig(w, s.queues.joinEpoch, s.mls.group, m.stewards, e.accepted, e.election);
    }
  }

  lemma {:induction false} StewardsFollowListEvents(w: World, m: Member, s: RoundState, es: seq<Event>,
        universe: set<Candidate>)
    requires MemberOk(w, m, s, universe) && FitsRound(w, s.mls.group, universe) && RunOk(w, m, s, es, universe)
    ensures MemberAfter(w, m, s, es).stewards == FoldLists(w, s.queues.joinEpoch, s.mls.group, m.stewards, ListEvents(es))
    ensures MemberAfter(w, m, s, es).stewards.config == m.stewards.config
  {
    hide MemberOk, FitsRound, StepRound, StepMember, MoveList, EventOk;
    if es != [] {
      var rest, last := es[..|es| - 1], es[|es| - 1];
      assert es == rest + [last];
      StewardsFollowListEvents(w, m, s, rest, universe);
      RunEffect(w, m, s, rest, universe);
      FoldListsGrow(w, s.queues.joinEpoch, s.mls.group, m.stewards, rest, last);
      StepMovesList(w, MemberAfter(w, m, s, rest), RunRound(w, m, s, rest), last, universe);
    }
  }

  lemma ElectKeepsConfig(w: World, joinEpoch: map<Id, nat>, g: Group, stewards: Stewards, accepted: bool,
        election: Election)
    ensures Elect(w, joinEpoch, g, stewards, accepted, election).config == stewards.config
  {}

  lemma CleanMatched(w: World, a: Node, b: Node, universe: set<Candidate>)
    requires Alike(w, a, b)
    requires InRound(w, a.s.mls.group, a.s.queues, universe) && InRound(w, b.s.mls.group, b.s.queues, universe)
    ensures Matched(w, a.s, b.s)
    ensures Stashed(a.s.queues, a.s.mls.group.epoch) == Stashed(b.s.queues, b.s.mls.group.epoch)
  {
    hide Admissible, ActionOf;
    CleanCountIsExact(w, a.s.queues.approved);
    CleanCountIsExact(w, b.s.queues.approved);
    KnownSplits(w, a.s.mls.group, a.s.queues, universe);
    KnownSplits(w, b.s.mls.group, b.s.queues, universe);
  }

  lemma EndRoundGroup(w: World, n: Node)
    ensures EndRound(w, n).s.mls.group == FinalizeRound(w, n.s, n.stewards, false, n.stewards.config.allowSubset, n.self).0.mls.group
  {
    hide FinalizeRound, Reconcile, RescoreMembers;
  }

  /** Alike at the end of an epoch, two members end the round in the same group exactly if
      neither merges a commit of its own that would not pass at a peer. */
  lemma AlikeRoundAgreesIff(w: World, a: Node, b: Node, universe: set<Candidate>)
    requires Alike(w, a, b) && a.self != b.self
    requires MemberOk(w, MemberOf(a), a.s, universe) && MemberOk(w, MemberOf(b), b.s, universe)
    ensures EndRound(w, a).s.mls.group == EndRound(w, b).s.mls.group <==> MergesForAll(w, a) && MergesForAll(w, b)
  {
    hide EndRound, FinalizeRound, BestPasses, InRound, LocalOk, Matched, Known, ApprovedActions;
    CleanMatched(w, a, b, universe);
    EndRoundGroup(w, a);
    EndRoundGroup(w, b);
    RoundAgreementIff(w, a.s, b.s, a.stewards, false, a.stewards.config.allowSubset, a.self, b.self);
  }

  /** Alike at the end of an epoch, alike once the round is over. */
  lemma RoundKeepsAlike(w: World, a: Node, b: Node, universe: set<Candidate>)
    requires Alike(w, a, b)
    requires MemberOk(w, MemberOf(a), a.s, universe) && MemberOk(w, MemberOf(b), b.s, universe)
    requires MergesForAll(w, a) && MergesForAll(w, b)
    requires a.s.queues.urgent.None? && b.s.queues.urgent.None?
    requires !EndRound(w, a).left && !EndRound(w, b).left
    ensures Alike(w, EndRound(w, a), EndRound(w, b))
    ensures NodeOk(w, EndRound(w, a)) && NodeOk(w, EndRound(w, b))
  {
    hide EndRound, Winner, BestPasses, InRound, LocalOk, Matched, NodeOk, Known, ApprovedActions, Stamped, MergedDelta;
    CleanMatched(w, a, b, universe);
    SameWinner(w, a.s, b.s, a.stewards, false, a.stewards.config.allowSubset, a.self, b.self);
    if Winner(w, a.s, a.stewards, false, a.stewards.config.allowSubset, a.self).None? {
      RoundWithoutWinner(w, a, universe);
      RoundWithoutWinner(w, b, universe);
    } else {
      RoundWithWinner(w, a, universe);
      RoundWithWinner(w, b, universe);
      SameReconcile(w, EndRound(w, a).s.queues, EndRound(w, b).s.queues, EndRound(w, a).s.mls.group, a.stewards.(nextRound := 0));
    }
  }

  lemma SameReconcile(w: World, q: Queues, q': Queues, g: Group, stewards: Stewards)
    requires q.joinEpoch == q'.joinEpoch
    ensures Reconcile(w, q, g, stewards) == Reconcile(w, q', g, stewards)
  {}

  lemma EpochKeepsAlike(w: World, a: Node, es: seq<Event>, b: Node, fs: seq<Event>, universe: set<Candidate>)
    requires NodeOk(w, a) && NodeOk(w, b) && Alike(w, a, b) && !a.left && !b.left
    requires StepOk(w, a, Epoch(es, universe)) && StepOk(w, b, Epoch(fs, universe)) && SameEpoch(w, a, es, b, fs)
    requires !StepNode(w, a, Epoch(es, universe)).left && !StepNode(w, b, Epoch(fs, universe)).left
    ensures Alike(w, StepNode(w, a, Epoch(es, universe)), StepNode(w, b, Epoch(fs, universe)))
    ensures NodeOk(w, StepNode(w, a, Epoch(es, universe))) && NodeOk(w, StepNode(w, b, Epoch(fs, universe)))
  {
    hide EndRound, InRound, LocalOk, Known, ApprovedActions, RunBoth, HeardIn, GainedIn, RunOk, FitsRound, FoldLists, MergesForAll;
    StartsRound(w, a, universe);
    StartsRound(w, b, universe);
    RunEffect(w, MemberOf(a), a.s, es, universe);
    RunEffect(w, MemberOf(b), b.s, fs, universe);
    StewardsFollowListEvents(w, MemberOf(a), a.s, es, universe);
    StewardsFollowListEvents(w, MemberOf(b), b.s, fs, universe);
    SameGains(w, es, fs);
    NothingUrgent(w, MemberOf(a), a.s, es);
    NothingUrgent(w, MemberOf(b), b.s, fs);
    RoundKeepsAlike(w, LiveThrough(w, a, es), LiveThrough(w, b, fs), universe);
  }

  // ── Whole runs ──

  ghost predicate SameStep(w: World, a: Node, step: NodeStep, b: Node, other: NodeStep) {
    step.universe == other.universe && SameEpoch(w, a, step.events, b, other.events)
  }

  ghost predicate SameSteps(w: World, a: Node, steps: seq<NodeStep>, b: Node, others: seq<NodeStep>) {
    && |steps| == |others|
    && (steps != [] ==>
          && SameSteps(w, a, steps[..|steps| - 1], b, others[..|others| - 1])
          && SameStep(w, RunNode(w, a, steps[..|steps| - 1]), steps[|steps| - 1],
                      RunNode(w, b, others[..|others| - 1]), others[|others| - 1]))
  }

  /** Lockstep convergence. Two members that start alike, and in every epoch see the
      same votes resolve and the same candidates arrive, each in its own order and each
      minting its own commits but merging none that would not pass at a peer, are alike
      after any number of rounds, elections among them, as long as both are still in. */
  lemma {:induction false} LockstepConvergence(w: World, a: Node, steps: seq<NodeStep>, b: Node, others: seq<NodeStep>)
    requires NodeOk(w, a) && NodeOk(w, b) && Alike(w, a, b)
    requires StepsOk(w, a, steps) && StepsOk(w, b, others) && SameSteps(w, a, steps, b, others)
    requires !RunNode(w, a, steps).left && !RunNode(w, b, others).left
    ensures Alike(w, RunNode(w, a, steps), RunNode(w, b, others))
    ensures NodeOk(w, RunNode(w, a, steps)) && NodeOk(w, RunNode(w, b, others))
  {
    hide NodeOk, Alike, StepOk, SameEpoch, StepNode;
    if steps != [] {
      var rest, otherRest := steps[..|steps| - 1], others[..|others| - 1];
      LeftStays(w, RunNode(w, a, rest), steps[|steps| - 1]);
      LeftStays(w, RunNode(w, b, otherRest), others[|others| - 1]);
      LockstepConvergence(w, a, rest, b, otherRest);
      var step, other := steps[|steps| - 1], others[|others| - 1];
      EpochKeepsAlike(w, RunNode(w, a, rest), step.events, RunNode(w, b, otherRest), other.events, step.universe);
    }
  }

  lemma LeftStays(w: World, n: Node, step: NodeStep)
    ensures n.left ==> StepNode(w, n, step) == n
  {}
}
