/** Every list that comes into force is the list of an election on record, so what a
    member sends to a joiner can be judged after any run. */
module ListsInForce {
  import opened ByteStrings
  import opened Sorting
  import opened Protocol
  import opened MlsGroup
  import opened StewardLists
  import opened Queues
  import opened CommitApply
  import opened CandidateIntake
  import opened Outcomes
  import opened Nodes
  import opened SyncMessages
  import opened Lifecycle
  import opened ConversationModel
  import opened Membership
  import opened ConversationSync
  import PeerScoring

  /** A list vote that passes installs the list of that election, if it is not dated
      ahead. */
  lemma ElectGivesElected(w: World, joinEpoch: map<Id, nat>, g: Group, stewards: Stewards, accepted: bool, e: Election)
    requires stewards.config.Valid() && e.epoch <= g.epoch
    ensures var after := Elect(w, joinEpoch, g, stewards, accepted, e);
            && after.config == stewards.config
            && (after.list == stewards.list || (after.list.Some? && Elected(w, joinEpoch, g, after.list.value)))
  {
    hide Members, Validate, Canonical;
    if accepted && ValidateElection(w, joinEpoch, g, stewards, e) {
      var pool := Keep(SettledIn(joinEpoch, e.epoch), Members(g.seats));
      ValidElectionInstalls(w, joinEpoch, g, stewards, e);
      ValidateReadsSizes(w, e.stewards, e.epoch, pool, stewards.config, e.retryRound);
      ValidateAcceptsExactlyCanonical(w, e.stewards, e.epoch, pool, stewards.config, e.retryRound);
      GeneratedFields(w, e.epoch, e.stewards, |e.stewards|, stewards.config, e.retryRound);
    }
  }

  /** Dated ahead, it installs all the same: the voters' check does not look at the epoch.
      It covers nothing yet, and no joiner takes it. */
  lemma ListDatedAheadInstalls(w: World, n: Node, e: Election, diverged: seq<(Id, int)>)
    requires n.stewards.config.Valid() && e.epoch > n.s.mls.group.epoch
    requires var pool := n.s.queues.Settled(Members(n.s.mls.group.seats), e.epoch);
             pool != [] && e.stewards == Canonical(w, e.epoch, pool, n.stewards.config, e.retryRound)
    ensures var g := n.s.mls.group;
            var after := Elect(w, n.s.queues.joinEpoch, g, n.stewards, true, e);
            && after.list.Some? && after.list.value.members == e.stewards && after.Exhausted(g.epoch)
            && ValidateSync(w, BuildSync(n.(stewards := after), diverged).value, g.epoch, Members(g.seats)) == Ok(false)
  {
    hide Members, Validate, Canonical, Generate;
    var pool := n.s.queues.Settled(Members(n.s.mls.group.seats), e.epoch);
    ValidateAcceptsExactlyCanonical(w, e.stewards, e.epoch, pool, n.stewards.config, e.retryRound);
    ValidElectionInstalls(w, n.s.queues.joinEpoch, n.s.mls.group, n.stewards, e);
    GeneratedFields(w, e.epoch, e.stewards, |e.stewards|, n.stewards.config, e.retryRound);
  }

  /** Reconciling keeps the list or installs the one elected in this epoch. */
  lemma ReconcileGivesElected(w: World, q: Queues, g: Group, stewards: Stewards)
    requires stewards.config.Valid()
    ensures var after := Reconcile(w, q, g, stewards);
            && after.config == stewards.config
            && (after == stewards || (after.list.Some? && Elected(w, q.joinEpoch, g, after.list.value)))
  {
    hide Members, Canonical, Generate;
    var settled := q.Settled(Members(g.seats), g.epoch);
    if Reconcile(w, q, g, stewards) != stewards {
      GeneratedFields(w, g.epoch, settled, stewards.config.ListSize(|settled|), stewards.config, 0);
      ValidateAcceptsExactlyCanonical(w, [], g.epoch, settled, stewards.config, 0);
    }
  }

  /** By our own record, nobody else was settled at the election than the sync says. */
  predicate SettledAlike(n: Node, sync: Sync) {
    forall m | m in Members(n.s.mls.group.seats) :: m in sync.unsettled <==> !SettledIn(n.s.queues.joinEpoch, sync.electionEpoch)(m)
  }

  /** A sync that is taken installs the list of its election, if our record agrees with
      it on who was settled then. */
  lemma AdoptGivesElected(w: World, n: Node, sync: Sync)
    requires Adopts(w, n, sync) && SettledAlike(n, sync)
    ensures var after := OnSync(w, n, sync).stewards;
            after.config.Valid() && after.list.Some? && ElectedAt(w, n, after.list.value)
  {
    hide Members, Canonical, Generate, Validate;
    var members := Members(n.s.mls.group.seats);
    var pool := Keep(Without(sync.unsettled), members);
    var config := NewConfig(sync.snMin, sync.snMax).value;
    KeepSame(Without(sync.unsettled), SettledIn(n.s.queues.joinEpoch, sync.electionEpoch), members);
    AcceptedSyncInstalls(w, n.stewards, sync, n.s.mls.group.epoch, members);
    ValidateReadsSizes(w, sync.stewards, sync.electionEpoch, pool, config, sync.retryRound);
    ValidateAcceptsExactlyCanonical(w, sync.stewards, sync.electionEpoch, pool, config, sync.retryRound);
    GeneratedFields(w, sync.electionEpoch, sync.stewards, |sync.stewards|, config.(allowSubset := sync.allowSubset), sync.retryRound);
    assert Canonical(w, sync.electionEpoch, pool, config, sync.retryRound)
        == Canonical(w, sync.electionEpoch, pool, config.(allowSubset := sync.allowSubset), sync.retryRound) by {
      CanonicalIgnoresSubsetFlag(w, sync.electionEpoch, pool, config, sync.allowSubset, sync.retryRound);
    }
  }

  lemma CanonicalIgnoresSubsetFlag(w: World, epoch: nat, pool: seq<Id>, config: Config, allowSubset: bool, round: nat)
    ensures Canonical(w, epoch, pool, config, round) == Canonical(w, epoch, pool, config.(allowSubset := allowSubset), round)
  {}

  /** List votes are not dated ahead of the epoch they resolve in, and a sync that is
      taken agrees with our own record. */
  predicate DatedStep(w: World, c: Conversing, step: LifeStep) {
    && (step.Outcome? && step.request.StewardElection? ==> step.request.election.epoch <= c.node.s.mls.group.epoch)
    && (Adopting(w, c, step) ==> SettledAlike(c.node, step.sync))
  }

  predicate DatedRun(w: World, p: Policy, c: Conversing, steps: seq<LifeStep>) {
    steps != [] ==>
      && DatedRun(w, p, c, steps[..|steps| - 1])
      && DatedStep(w, RunLife(w, p, c, steps[..|steps| - 1]), steps[|steps| - 1])
  }

  /** The step keeps the list or installs the one of an election on record. */
  ghost predicate KeepsOrElects(w: World, n: Node, n': Node) {
    && n'.stewards.config.Valid()
    && (n'.stewards.list == n.stewards.list || (n'.stewards.list.Some? && ElectedAt(w, n', n'.stewards.list.value)))
  }

  lemma OutcomeElects(w: World, c: Conversing, id: nat, approved: bool, request: Request, now: nat,
        minted: Option<Mint>)
    requires c.node.stewards.config.Valid()
    requires request.StewardElection? ==> request.election.epoch <= c.node.s.mls.group.epoch
    ensures KeepsOrElects(w, c.node, HandleOutcome(w, c, id, approved, request, now, minted).node)
  {
    hide Replay, Minting, ValidateElection, Generate, EmergencyScoreOps, Elected, Elect;
    var g, q := c.node.s.mls.group, c.node.s.queues;
    OutcomeKeepsJoinEpochs(w, g, q, id, approved, request);
    if request.StewardElection? {
      ElectGivesElected(w, q.joinEpoch, g, c.node.stewards, approved, request.election);
      ListVoteElects(w, c, id, approved, request.election, now, minted);
    } else {
      OtherVoteKeepsList(w, c, id, approved, request, now, minted);
    }
  }

  lemma ListVoteElects(w: World, c: Conversing, id: nat, approved: bool, e: Election, now: nat, minted: Option<Mint>)
    ensures var n, n' := c.node, HandleOutcome(w, c, id, approved, StewardElection(e), now, minted).node;
            && n'.s.mls == n.s.mls && n'.s.queues.joinEpoch == n.s.queues.joinEpoch
            && n'.stewards == if n.s.queues.resolved.Has(id) then n.stewards
                              else Elect(w, n.s.queues.joinEpoch, n.s.mls.group, n.stewards, approved, e)
  {
    hide Replay, ValidateElection, Generate;
    OutcomeKeepsJoinEpochs(w, c.node.s.mls.group, c.node.s.queues, id, approved, StewardElection(e));
  }

  lemma MintingKeepsList(w: World, c: Conversing, minted: Option<Mint>)
    ensures Minting(w, c, minted).node.stewards == c.node.stewards
  {}

  lemma OtherVoteKeepsList(w: World, c: Conversing, id: nat, approved: bool, request: Request, now: nat,
        minted: Option<Mint>)
    requires !request.StewardElection?
    ensures HandleOutcome(w, c, id, approved, request, now, minted).node.stewards == c.node.stewards
  {
    hide Replay, Minting, EmergencyScoreOps;
    var (q, f) := OnOutcome(w, c.node.s.mls.group, c.node.s.queues, id, approved, request);
    var told := c.(node := c.node.(s := c.node.s.(queues := q)));
    assert !f.ElectionAccepted? && !f.ElectionRejected?;
    MintingKeepsList(w, told.(life := told.life.StartFreezing(now)), minted);
  }

  lemma CloseRoundElects(w: World, p: Policy, c: Conversing, now: nat, finalizeFails: bool)
    requires c.node.stewards.config.Valid()
    ensures KeepsOrElects(w, c.node, CloseRound(w, p, c, now, finalizeFails).node)
  {
    hide FinalizeRound, Reconcile, Elected, RescoreMembers;
    var n, recovery := c.node, c.life.mode.Recovery?;
    var (after, r) := FinalizeRound(w, n.s, n.stewards, recovery, recovery || n.stewards.config.allowSubset, n.self);
    ReconcileGivesElected(w, after.queues.(delta := None), after.mls.group, n.stewards.(nextRound := 0));
  }

  lemma FreezeElects(w: World, p: Policy, c: Conversing, step: LifeStep)
    requires step.Freeze? && c.node.stewards.config.Valid()
    ensures KeepsOrElects(w, c.node, AdvanceFreezing(w, p, c, step.now, step.minted, step.finalizeFails).node)
  {
    hide CloseRound, Minting, RoundDue, Elected;
    MintingKeepsList(w, c, step.minted);
    CloseRoundElects(w, p, AutoCommit(w, p, c, step.now, step.minted), step.now, step.finalizeFails);
  }

  lemma StepElects(w: World, p: Policy, c: Conversing, step: LifeStep)
    requires c.node.stewards.config.Valid() && DatedStep(w, c, step)
    ensures KeepsOrElects(w, c.node, StepLife(w, p, c, step).node)
  {
    hide HandleOutcome, AdvanceFreezing, Minting, Receive, Elected, OnSync, Adopts, SettledAlike;
    if !c.node.left {
      match step
      case Outcome(id, approved, request, now, minted) => OutcomeElects(w, c, id, approved, request, now, minted);
      case Freeze(_, _, _) => FreezeElects(w, p, c, step);
      case Synced(sync) =>
        SyncRecord(w, c.node, sync);
        SyncMoves(w, c.node, sync);
        if Adopts(w, c.node, sync) { AdoptGivesElected(w, c.node, sync); }
      case _ => OtherStepKeepsList(w, p, c, step);
    }
  }

  lemma OtherStepKeepsList(w: World, p: Policy, c: Conversing, step: LifeStep)
    requires step.Arrived? || step.Manual? || step.Inactivity? || step.Silence?
    ensures var before, after := c.node.stewards, StepLife(w, p, c, step).node.stewards;
            after.config == before.config && after.list == before.list
  {
    hide Receive, Minting;
    match step
    case Arrived(msg, now, minted) =>
      var heard := c.(node := c.node.(s := c.node.s.(queues := Receive(w, c.node.s.mls.group, c.node.s.queues, msg).0)));
      MintingKeepsList(w, heard.(life := heard.life.StartFreezing(now)), minted);
    case Manual(minted) => MintingKeepsList(w, c, minted);
    case Inactivity(now, inFlight, minted) => MintingKeepsList(w, c.(life := c.life.StartFreezing(now)), minted);
    case Silence(_, _) =>
  }

  /** How many steps of the run have passed when the list in force at its end was
      installed; none if it was there from the start. */
  function LastInstall(w: World, p: Policy, c: Conversing, steps: seq<LifeStep>): (k: nat)
    ensures k <= |steps|
  {
    if steps == [] then 0
    else if RunLife(w, p, c, steps).node.stewards.list == RunLife(w, p, c, steps[..|steps| - 1]).node.stewards.list
    then LastInstall(w, p, c, steps[..|steps| - 1])
    else |steps|
  }

  /** From a member without a list, or with the list of an election on record, every list
      a run puts in force is the list of an election on record when it is installed. */
  lemma {:induction false} ListInForceIsElected(w: World, p: Policy, c: Conversing, steps: seq<LifeStep>)
    requires c.node.stewards.config.Valid() && DatedRun(w, p, c, steps)
    requires c.node.stewards.list.Some? ==> ElectedAt(w, c.node, c.node.stewards.list.value)
    ensures RunLife(w, p, c, steps).node.stewards.config.Valid()
    ensures c.node.stewards.list.Some? ==> RunLife(w, p, c, steps).node.stewards.list.Some?
    ensures var list, since := RunLife(w, p, c, steps).node.stewards.list, RunLife(w, p, c, steps[..LastInstall(w, p, c, steps)]).node;
            since.stewards.list == list && (list.Some? ==> ElectedAt(w, since, list.value))
  {
    hide StepLife, Elected, DatedStep;
    if steps == [] {
      assert steps[..0] == [];
    } else {
      var rest, last := steps[..|steps| - 1], steps[|steps| - 1];
      ListInForceIsElected(w, p, c, rest);
      StepElects(w, p, RunLife(w, p, c, rest), last);
      var k := LastInstall(w, p, c, steps);
      if k == |steps| && RunLife(w, p, c, steps).node.stewards.list != RunLife(w, p, c, rest).node.stewards.list {
        assert steps[..k] == steps;
      } else {
        assert steps[..k] == rest[..k];
      }
    }
  }

  /** Over every run: the sync a member sends passes the joiner's check exactly if none of
      the stewards on its list has left since that list was installed. */
  lemma SentSyncPassesIff(w: World, p: Policy, c: Conversing, steps: seq<LifeStep>, diverged: seq<(Id, int)>)
    requires c.node.stewards.config.Valid() && DatedRun(w, p, c, steps)
    requires c.node.stewards.list.Some? ==> ElectedAt(w, c.node, c.node.stewards.list.value)
    requires PeerScoring.ScoresValid(c.node.scoring.default, c.node.scoring.threshold)
    requires !RunLife(w, p, c, steps).node.left && RunLife(w, p, c, steps).node.stewards.list.Some?
    ensures var n', k := RunLife(w, p, c, steps).node, LastInstall(w, p, c, steps);
            ValidateSync(w, BuildSync(n', diverged).value, n'.s.mls.group.epoch, Members(n'.s.mls.group.seats)) == Ok(true)
            <==> forall m :: m in n'.stewards.list.value.members ==> m !in DeparturesIn(w, p, RunLife(w, p, c, steps[..k]), steps[k..])
  {
    hide RunLife, DeparturesIn, Members, ElectedAt, ValidateSync, BuildSync, LastInstall, DatedRun;
    var k := LastInstall(w, p, c, steps);
    var since := RunLife(w, p, c, steps[..k]);
    assert steps == steps[..k] + steps[k..];
    RunConcat(w, p, c, steps[..k], steps[k..]);
    ListInForceIsElected(w, p, c, steps);
    StaysIn(w, p, since, steps[k..]);
    ScoresStayValid(w, p, c, steps[..k]);
    SyncPassesIff(w, p, since, steps[k..], RunLife(w, p, c, steps).node.stewards.list.value, diverged);
  }

  lemma {:induction false} StaysIn(w: World, p: Policy, c: Conversing, steps: seq<LifeStep>)
    ensures c.node.left ==> RunLife(w, p, c, steps).node.left
  {
    if steps != [] {
      StaysIn(w, p, c, steps[..|steps| - 1]);
    }
  }
}
