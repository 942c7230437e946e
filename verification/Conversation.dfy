/** The conversation object: a state machine, a timer and four services, driven by
    outcomes, candidates and polls. Every method does what its step does on values. */
module Conversation {
  import opened ByteStrings
  import opened Protocol
  import opened MlsGroup
  import opened StewardLists
  import opened Queues
  import opened Consensus
  import opened CommitApply
  import opened CandidateIntake
  import opened Outcomes
  import opened Nodes
  import opened Lifecycle
  import opened SyncMessages
  import opened ConversationModel
  import PeerScoring

  class Conversation {
    const self: Id
    const kMax: nat
    const policy: Policy
    const queues: ConversationQueues
    const mls: MlsService
    const stewardList: StewardListService
    const scoring: PeerScoring.PeerScoringService
    const stateMachine: ConversationStateMachine
    const phaseTimer: PhaseTimer
    var operatingMode: Mode
    var recoveryRounds: nat
    var reelectionRecovered: bool
    var reelectionSilenceAnchor: Option<nat>
    var left: bool
    ghost var exhausted: nat

    ghost function Life(): (l: Lifecycle.Life)
      reads this, stateMachine, phaseTimer
    {
      Lifecycle.Life(stateMachine.state, phaseTimer.startedAt, operatingMode, recoveryRounds, reelectionRecovered, reelectionSilenceAnchor, exhausted)
    }

    function Round(): (s: RoundState)
      reads queues, queues.commitRound, mls
    {
      RoundState(mls.State(), queues.Value())
    }

    function Scores(): (s: Scoring)
      reads scoring
    {
      ScoringOf(scoring)
    }

    ghost function Value(): (c: Conversing)
      reads this, queues, queues.commitRound, mls, stewardList, scoring, stateMachine, phaseTimer
    {
      Conversing(Life(), Node(self, kMax, Round(), stewardList.State(), Scores(), left))
    }

    constructor (self: Id, kMax: nat, policy: Policy, queues: ConversationQueues, mls: MlsService,
          stewardList: StewardListService,
                 scoring: PeerScoring.PeerScoringService)
      ensures Value() == Conversing(NewLife(), Node(self, kMax, Round(), stewardList.State(), Scores(), false))
      ensures this.queues == queues && this.mls == mls && this.stewardList == stewardList && this.scoring == scoring
      ensures fresh(stateMachine) && fresh(phaseTimer)
    {
      this.self, this.kMax, this.policy := self, kMax, policy;
      this.queues, this.mls, this.stewardList, this.scoring := queues, mls, stewardList, scoring;
      stateMachine := new ConversationStateMachine();
      phaseTimer := new PhaseTimer();
      operatingMode, recoveryRounds, reelectionRecovered, reelectionSilenceAnchor := Normal, 0, false, None;
      left, exhausted := false, 0;
    }

    // ── State-machine and timer coordinators ──

    method StartWorking()
      modifies stateMachine, phaseTimer
      ensures Life() == old(Life()).StartWorking()
    {
      stateMachine.StartWorking();
      phaseTimer.Clear();
    }

    method StartFreezing(now: nat) returns (moved: bool)
      modifies stateMachine, phaseTimer
      ensures moved == old(Life()).CanFreeze() && Life() == old(Life()).StartFreezing(now)
    {
      moved := stateMachine.StartFreezing();
      if moved {
        phaseTimer.Start(now);
      }
    }

    method StartSelection()
      modifies stateMachine
      ensures Life() == old(Life()).(phase := Selection)
    {
      stateMachine.StartSelection();
    }

    method StartReelection()
      modifies stateMachine, phaseTimer
      ensures Life() == old(Life()).StartReelection()
    {
      stateMachine.StartReelection();
      phaseTimer.Clear();
    }

    method ReopenRecoveryWindow(now: nat)
      modifies stateMachine, phaseTimer
      ensures Life() == old(Life()).Reopen(now)
    {
      var moved := stateMachine.ReopenFreezing();
      if moved {
        phaseTimer.Start(now);
      }
    }

    method EnterRecoveryMode()
      modifies this`operatingMode, this`recoveryRounds, this`exhausted
      ensures Life() == old(Life()).EnterRecovery()
    {
      operatingMode, recoveryRounds := Recovery, 0;
      exhausted := 0;
    }

    method ExitRecoveryMode()
      modifies this`operatingMode
      ensures Life() == old(Life()).ExitRecovery()
    {
      operatingMode := Normal;
    }

    // ── Minting and freezing ──

    method MintCandidate(w: World, minted: Option<Mint>)
      modifies queues.commitRound, mls`own
      ensures Value() == Minting(w, old(Value()), minted)
    {
      hide BuildLocal;
      var _ := BuildLocalCandidate(w, operatingMode == Recovery, kMax, queues, mls, stewardList, self, minted);
    }

    method EnterFreezing(w: World, now: nat, minted: Option<Mint>)
      modifies stateMachine, phaseTimer, queues.commitRound, mls`own
      ensures Value() == EnterFreeze(w, old(Value()), now, minted)
    {
      hide Minting;
      var moved := StartFreezing(now);
      if moved && stewardList.State().IsSteward(self) {
        MintCandidate(w, minted);
      }
    }

    // ── The end of a round ──

    method MaybeAutoCommitRecovery(w: World, now: nat, minted: Option<Mint>)
      requires operatingMode == Recovery
      modifies queues.commitRound, mls`own
      ensures Value() == AutoCommit(w, policy, old(Value()), now, minted)
    {
      hide Minting;
      if policy.autoCommitDelay.None? {
        return;
      }
      if !Elapsed(phaseTimer.startedAt, now, policy.autoCommitDelay.value) || queues.commitRound.Value().HasLocal() {
        return;
      }
      MintCandidate(w, minted);
    }

    method RetryOrExhaustRecovery(now: nat)
      modifies this`operatingMode, this`recoveryRounds, this`exhausted, stateMachine, phaseTimer
      ensures Life() == old(Life()).RetryOrExhaust(policy, now)
    {
      recoveryRounds := recoveryRounds + 1;
      if policy.recoveryMaxRounds != 0 && recoveryRounds >= policy.recoveryMaxRounds {
        ExitRecoveryMode();
        StartWorking();
        exhausted := exhausted + 1;
      } else {
        ReopenRecoveryWindow(now);
      }
    }

    method RecoverFromFinalizeError(now: nat)
      modifies this`operatingMode, this`recoveryRounds, this`exhausted, stateMachine, phaseTimer
      ensures Life() == if old(operatingMode) == Recovery then old(Life()).RetryOrExhaust(policy, now) else old(Life()).StartWorking()
    {
      if operatingMode == Recovery {
        RetryOrExhaustRecovery(now);
      } else {
        StartWorking();
      }
    }

    method ApplyScoreOps(ops: seq<ScoreOp>)
      modifies scoring`scores
      ensures Scores() == old(Scores()).Apply(ops)
    {
      var _ := scoring.ApplyOps(ops);
    }

    /** The round is over: select, finalize and settle what follows. */
    method SelectAndFinalize(w: World, now: nat, finalizeFails: bool)
      requires mls.staged.None?
      modifies this, queues, queues.commitRound, mls, stewardList, scoring, stateMachine, phaseTimer
      ensures Value() == CloseRound(w, policy, old(Value()), now, finalizeFails)
      ensures mls.staged.None?
    {
      hide FinalizeRound, Updated, Missed, RoundMissed, RoundApplied;
      StagedStaysEmpty(w, Round(), stewardList.State(), operatingMode == Recovery,
                       operatingMode == Recovery || stewardList.config.allowSubset, self);
      StartSelection();
      if finalizeFails {
        FailRound(now);
        return;
      }
      var recovery := operatingMode == Recovery;
      var result := FinalizeCommitRound(w, queues, mls, stewardList, recovery, recovery || stewardList.config.allowSubset, self);
      ApplyScoreOps(result.scoreOps);
      SelectionIsPassing(w, policy, old(Life()), Value().node, now, result.outcome.Applied? && result.outcome.leave);
      match result.outcome
      case Applied(leave) => AfterCommit(w, leave);
      case NoCandidate => AfterMiss(now);
    }

    method FailRound(now: nat)
      modifies this, queues.commitRound, stateMachine, phaseTimer
      ensures Value() == FinalizeFailed(policy, old(Value()), now)
    {
      StartSelection();
      var _ := queues.commitRound.Take(mls.group.epoch);
      RecoverFromFinalizeError(now);
    }

    method AfterCommit(w: World, leave: bool)
      modifies this, queues, stewardList, scoring, stateMachine, phaseTimer
      ensures Value() == RoundApplied(w, old(Life()), old(Value().node), leave)
    {
      hide Updated;
      StartSelection();
      ExitRecoveryMode();
      if leave {
        left := true;
      } else {
        OnConversationUpdated(w);
      }
    }

    /** A commit merged: back to work, with scores and the steward list brought up to
        date. */
    method OnConversationUpdated(w: World)
      modifies this, queues, stewardList, scoring, stateMachine, phaseTimer
      ensures Life() == old(Life()).(recovered := false).StartWorking()
      ensures Value().node == Updated(w, old(Value().node))
    {
      hide Reconcile, RescoreMembers;
      stewardList.ResetRetry();
      reelectionRecovered := false;
      StartWorking();
      var d := queues.TakeMembershipDelta();
      RescoreAfterCommit(d);
      ReconcileStewardList(w);
    }

    method RescoreAfterCommit(d: Delta)
      modifies scoring`scores
      ensures scoring.scores == RescoreMembers(old(scoring.scores), d, scoring.defaultScore)
    {
      var done: Seats := map[];
      var todo := d.removed.Keys;
      assert SeatIds(done) == {};
      while todo != {}
        invariant todo <= d.removed.Keys && done == map leaf | leaf in d.removed && leaf !in todo :: d.removed[leaf]
        invariant scoring.scores == old(scoring.scores) - SeatIds(done)
        decreases todo
      {
        var leaf: Leaf :| leaf in todo;
        SeatIdsGrow(done, leaf, d.removed[leaf]);
        scoring.RemoveMember(MemberIdOf(leaf));
        done := done[leaf := d.removed[leaf]];
        todo := todo - {leaf};
      }
      assert done == d.removed;
      ScoreJoiners(d.added);
    }

    method ScoreJoiners(added: Seats)
      modifies scoring`scores
      ensures scoring.scores == ScoreAll(old(scoring.scores), added, scoring.defaultScore)
    {
      var done: Seats := map[];
      var todo := added.Keys;
      assert SeatIds(done) == {};
      while todo != {}
        invariant todo <= added.Keys && done == map leaf | leaf in added && leaf !in todo :: added[leaf]
        invariant scoring.scores == ScoreAll(old(scoring.scores), done, scoring.defaultScore)
        decreases todo
      {
        var leaf: Leaf :| leaf in todo;
        ScoreGrow(old(scoring.scores), done, leaf, added[leaf], scoring.defaultScore);
        scoring.AddMember(MemberIdOf(leaf));
        done := done[leaf := added[leaf]];
        todo := todo - {leaf};
      }
      assert done == added;
    }

    method ReconcileStewardList(w: World)
      modifies stewardList`list
      ensures stewardList.State() == Reconcile(w, queues.Value(), mls.group, old(stewardList.State()))
    {
      var epoch := mls.group.epoch;
      if !stewardList.State().Exhausted(epoch) {
        return;
      }
      var settled := queues.Value().Settled(Members(mls.group.seats), epoch);
      if stewardList.config.ElectionRequired(|settled|) {
        return;
      }
      var _ := stewardList.InstallList(w, epoch, settled, stewardList.config.ListSize(|settled|), 0);
    }

    method AfterMiss(now: nat)
      modifies this, queues.commitRound, scoring, stateMachine, phaseTimer
      ensures Value() == RoundMissed(policy, old(Life()), old(Value().node), now)
    {
      StartSelection();
      if queues.approvedProposals == [] {
        queues.commitRound.Clear();
        ExitRecoveryMode();
        StartWorking();
      } else if operatingMode == Recovery {
        RetryOrExhaustRecovery(now);
      } else {
        StartReelection();
        BlameDutySteward();
      }
    }

    /** A steward on duty who let approved work lie loses score; we spare ourselves. */
    method BlameDutySteward()
      requires queues.approvedProposals != []
      modifies scoring
      ensures Value().node == Missed(old(Value().node)) && Life() == old(Life())
    {
      var steward := stewardList.State().DutySteward(mls.group.epoch, queues.Value().Eligible(mls.group.seats));
      if steward.Some? && steward.value != [] && steward.value != self {
        ApplyScoreOps([ScoreOp(steward.value, CensorshipInactivity)]);
      }
    }

    /** The object is in order: nothing staged, and at rest as the lifecycle demands. */
    ghost predicate Valid()
      reads this, queues, queues.commitRound, mls, stewardList, scoring, stateMachine, phaseTimer
    {
      mls.staged.None? && (left || AtRest(policy, Value()))
    }

    /** Drive the freeze phase. */
    method Advance(w: World, now: nat, minted: Option<Mint>, finalizeFails: bool)
      requires mls.staged.None?
      modifies this, queues, queues.commitRound, mls, stewardList, scoring, stateMachine, phaseTimer
      ensures Value() == AdvanceFreezing(w, policy, old(Value()), now, minted, finalizeFails)
      ensures mls.staged.None?
      ensures old(Valid()) && !old(left) ==> Valid()
    {
      hide CloseRound, Minting, AtRest;
      FreezeKeepsRest(w, policy, Value(), now, minted, finalizeFails);
      if stateMachine.state != Freezing {
        return;
      }
      if operatingMode == Recovery {
        MaybeAutoCommitRecovery(w, now, minted);
      }
      var all := operatingMode != Recovery && stewardList.list.Some? && |queues.commitRound.candidates| >= |stewardList.list.value.members|;
      var window := if operatingMode == Recovery then RecoveryWindow(policy) else policy.freezeDuration;
      if all || Elapsed(phaseTimer.startedAt, now, window) {
        SelectAndFinalize(w, now, finalizeFails);
      }
    }

    /** Commit by hand; only recovery allows it. */
    method CommitByHand(w: World, minted: Option<Mint>) returns (allowed: bool)
      modifies queues.commitRound, mls`own
      ensures allowed == (operatingMode == Recovery)
      ensures Value() == CommitInRecovery(w, old(Value()), minted)
      ensures old(Valid()) && !old(left) ==> Valid()
    {
      hide Minting, AtRest;
      ManualKeepsRest(w, policy, Value(), minted);
      allowed := operatingMode == Recovery;
      if allowed {
        MintCandidate(w, minted);
      }
    }

    // ── The other drives of a poll ──

    method StartFreezeOnInactivity(w: World, now: nat, electionInFlight: bool, minted: Option<Mint>)
      modifies stateMachine, phaseTimer, queues.commitRound, mls`own
      ensures Value() == FreezeOnInactivity(w, policy, old(Value()), now, electionInFlight, minted)
      ensures old(Valid()) && !old(left) ==> Valid()
    {
      hide EnterFreeze, AtRest;
      InactivityKeepsRest(w, policy, Value(), now, electionInFlight, minted);
      if electionInFlight {
        return;
      }
      var short := operatingMode == Recovery || stewardList.nextElectionRound > 0 || reelectionRecovered;
      var window := if short then policy.retryWindow else policy.commitBatchWindow;
      if stateMachine.state != Working || queues.approvedProposals == [] {
        return;
      }
      if phaseTimer.startedAt.None? {
        phaseTimer.Start(now);
        return;
      }
      if Elapsed(phaseTimer.startedAt, now, window) {
        EnterFreezing(w, now, minted);
      }
    }

    method DriveReelectionRetry(now: nat, electionInFlight: bool)
      modifies this`reelectionSilenceAnchor, stewardList`nextElectionRound
      ensures Value() == ReelectionSilence(policy, old(Value()), now, electionInFlight)
      ensures old(Valid()) && !old(left) ==> Valid()
    {
      hide AtRest;
      SilenceKeepsRest(policy, Value(), now, electionInFlight);
      if stateMachine.state != Reelection || electionInFlight {
        reelectionSilenceAnchor := None;
        return;
      }
      if reelectionSilenceAnchor.None? {
        reelectionSilenceAnchor := Some(now);
        return;
      }
      if now < reelectionSilenceAnchor.value + policy.retryWindow {
        return;
      }
      reelectionSilenceAnchor := None;
      stewardList.BumpRetry();
    }

    // ── Outcomes and candidates ──

    method OnElectionAccepted(w: World, e: Election)
      modifies this, stewardList`list, stateMachine, phaseTimer
      ensures Value() == ElectionPassed(w, old(Value()), e)
    {
      hide Generate;
      if !ValidateElection(w, queues.memberJoinEpoch, mls.group, stewardList.State(), e) {
        return;
      }
      var ok := stewardList.InstallList(w, e.epoch, e.stewards, |e.stewards|, e.retryRound);
      if !ok {
        return;
      }
      ExitRecoveryMode();
      if stateMachine.state == Reelection {
        reelectionRecovered := true;
        StartWorking();
      }
    }

    method OnFollowUp(w: World, f: FollowUp, now: nat, minted: Option<Mint>)
      modifies this, queues.commitRound, mls`own, stewardList, stateMachine, phaseTimer
      ensures Value() == FollowUpOn(w, old(Value()), f, now, minted)
    {
      hide ElectionPassed, EnterFreeze;
      match f
      case ElectionAccepted(e) => OnElectionAccepted(w, e);
      case ElectionRejected => stewardList.BumpRetry();
      case RecoveryModeOpened =>
        EnterRecoveryMode();
        var _ := StartFreezing(now);
      case UrgentRemoval(_) => EnterFreezing(w, now, minted);
      case _ =>
    }

    method OnEmergencyScored(ops: seq<ScoreOp>)
      modifies scoring`scores, stateMachine, phaseTimer
      ensures Value() == EmergencyScored(old(Value()), ops)
    {
      if ops == [] {
        return;
      }
      ApplyScoreOps(ops);
      if stateMachine.state == Reelection {
        StartWorking();
      }
    }

    method HandleConsensusOutcome(w: World, id: nat, approved: bool, request: Request, now: nat, minted: Option<Mint>)
      modifies this, queues, queues.commitRound, mls`own, stewardList, scoring, stateMachine, phaseTimer
      ensures Value() == HandleOutcome(w, old(Value()), id, approved, request, now, minted)
      ensures old(Valid()) && !old(left) ==> Valid()
    {
      hide OnOutcome, FollowUpOn, EmergencyScored, EmergencyScoreOps, AtRest;
      OutcomeKeepsRest(w, policy, Value(), id, approved, request, now, minted);
      if queues.resolvedProposals.Has(id) {
        return;
      }
      var f := HandleQueueOutcome(w, queues, mls, id, approved, request);
      assert Value() == old(Value()).(node := old(Value().node).(s := Round()));
      OnFollowUp(w, f, now, minted);
      OnEmergencyScored(EmergencyScoreOps(request, approved));
    }

    method OnCommitCandidate(w: World, msg: Candidate, now: nat, minted: Option<Mint>)
      modifies queues, queues.commitRound, mls`own, stateMachine, phaseTimer
      ensures Value() == CandidateArrived(w, old(Value()), msg, now, minted)
      ensures old(Valid()) && !old(left) ==> Valid()
    {
      hide Receive, EnterFreeze, AtRest;
      ArrivalKeepsRest(w, policy, Value(), msg, now, minted);
      var intake := ReceiveCommitCandidate(w, queues, mls, msg);
      if intake.Received? {
        EnterFreezing(w, now, minted);
      }
    }

    /** A sync came in: take it over, or leave everything as it is. */
    method OnSyncReceived(w: World, sync: Sync)
      modifies stewardList, scoring
      ensures Value() == old(Value()).(node := OnSync(w, old(Value().node), sync))
      ensures old(Valid()) && !old(left) ==> Valid()
    {
      hide AtRest, ValidateSync, AdoptSync, AdoptScores, Members;
      SyncKeepsRest(w, policy, Value(), sync);
      var _ := OnConversationSync(w, stewardList, scoring, sync, mls.group.epoch, Members(mls.group.seats));
    }
  }

  /** Finalizing leaves nothing staged. */
  lemma StagedStaysEmpty(w: World, s: RoundState, stewards: Stewards, inRecovery: bool, allowSubset: bool, self: Id)
    requires s.mls.staged.None?
    ensures FinalizeRound(w, s, stewards, inRecovery, allowSubset, self).0.mls.staged.None?
  {
    hide VerdictOn, FinalizeBatch;
  }
}
