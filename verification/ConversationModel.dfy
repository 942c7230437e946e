/** A conversation as a whole, on values: the steps that drive it and what they keep
    over every run. */
module ConversationModel {
  import opened ByteStrings
  import opened Protocol
  import opened StewardLists
  import opened Queues
  import opened Consensus
  import opened CommitApply
  import opened CandidateIntake
  import opened Outcomes
  import opened Confluence
  import opened Nodes
  import opened Lifecycle
  import opened SyncMessages

  /** The lifecycle and everything it drives. */
  datatype Conversing = Conversing(life: Life, node: Node)

  // ── Minting ──

  function Minting(w: World, c: Conversing, minted: Option<Mint>): (r: Conversing) {
    c.(node := c.node.(s := BuildLocal(w, c.life.mode.Recovery?, c.node.kMax, c.node.s, c.node.stewards, c.node.self, minted).0))
  }

  /** Start a round: stewards mint, others wait. */
  function EnterFreeze(w: World, c: Conversing, now: nat, minted: Option<Mint>): (r: Conversing) {
    if !c.life.CanFreeze() then c
    else
      var frozen := c.(life := c.life.StartFreezing(now));
      if c.node.stewards.IsSteward(c.node.self) then Minting(w, frozen, minted) else frozen
  }

  // ── The end of a round ──

  /** Recovery only: once the grace has passed and we hold no candidate, mint one. */
  function AutoCommit(w: World, p: Policy, c: Conversing, now: nat, minted: Option<Mint>): (r: Conversing) {
    if c.life.mode.Recovery? && p.autoCommitDelay.Some? && Elapsed(c.life.anchor, now, p.autoCommitDelay.value)
       && !c.node.s.queues.round.HasLocal()
    then Minting(w, c, minted)
    else c
  }

  function RecoveryWindow(p: Policy): (d: nat) {
    (match p.autoCommitDelay case Some(delay) => delay case None => 0) + p.retryWindow
  }

  /** Outside recovery a round also ends once as many candidates are in as there are
      stewards. */
  predicate RoundDue(p: Policy, c: Conversing, now: nat) {
    if c.life.mode.Recovery? then Elapsed(c.life.anchor, now, RecoveryWindow(p))
    else
      || (c.node.stewards.list.Some? && |c.node.s.queues.round.candidates| >= |c.node.stewards.list.value.members|)
      || Elapsed(c.life.anchor, now, p.freezeDuration)
  }

  /** Finalizing failed on our own side: nobody is at fault. */
  function FinalizeFailed(p: Policy, c: Conversing, now: nat): (r: Conversing) {
    var s := c.node.s;
    var taken := c.node.(s := s.(queues := s.queues.(round := s.queues.round.Take(s.mls.group.epoch))));
    if c.life.mode.Recovery? then Conversing(c.life.(phase := Selection).RetryOrExhaust(p, now), taken)
    else Conversing(c.life.StartWorking(), taken)
  }

  /** A round that ended without a commit. */
  function RoundMissed(p: Policy, life: Life, n: Node, now: nat): (r: Conversing) {
    if n.s.queues.approved == [] then Conversing(life.ExitRecovery().StartWorking(), Missed(n))
    else if life.mode.Recovery? then Conversing(life.(phase := Selection).RetryOrExhaust(p, now), n)
    else Conversing(life.StartReelection(), Missed(n))
  }

  /** A commit merged: we are told that we are out, or the conversation works on. */
  function RoundApplied(w: World, life: Life, n: Node, leave: bool): (r: Conversing) {
    if leave then Conversing(life.ExitRecovery().(phase := Selection), n.(left := true))
    else Conversing(life.ExitRecovery().(recovered := false).StartWorking(), Updated(w, n))
  }

  /** Passing through `Selection` leaves no trace in how a round ends. */
  lemma SelectionIsPassing(w: World, p: Policy, life: Life, n: Node, now: nat, leave: bool)
    ensures RoundMissed(p, life.(phase := Selection), n, now) == RoundMissed(p, life, n, now)
    ensures RoundApplied(w, life.(phase := Selection), n, leave) == RoundApplied(w, life, n, leave)
  {
    hide Missed, Updated;
  }

  function CloseRound(w: World, p: Policy, c: Conversing, now: nat, finalizeFails: bool): (r: Conversing) {
    if finalizeFails then FinalizeFailed(p, c, now)
    else
      var n, recovery := c.node, c.life.mode.Recovery?;
      var (after, result) := FinalizeRound(w, n.s, n.stewards, recovery, recovery || n.stewards.config.allowSubset, n.self);
      var scored := n.(s := after, scoring := n.scoring.Apply(result.scoreOps));
      match result.outcome
      case Applied(leave) => RoundApplied(w, c.life, scored, leave)
      case NoCandidate => RoundMissed(p, c.life, scored, now)
  }

  /** While freezing: mint late in recovery, and end the round when it is due. */
  function AdvanceFreezing(w: World, p: Policy, c: Conversing, now: nat, minted: Option<Mint>,
        finalizeFails: bool): (r: Conversing) {
    if !c.life.phase.Freezing? then c
    else
      var ready := AutoCommit(w, p, c, now, minted);
      if RoundDue(p, ready, now) then CloseRound(w, p, ready, now, finalizeFails) else ready
  }

  /** Outside recovery the end of a round is the one a member runs through. */
  lemma NormalRoundIsEndRound(w: World, p: Policy, c: Conversing, now: nat)
    requires c.life.mode.Normal?
    ensures CloseRound(w, p, c, now, false).node == EndRound(w, c.node)
  {
    hide FinalizeRound, Updated;
  }

  // ── The other drives of a poll ──

  function InactivityWindow(p: Policy, c: Conversing): (d: nat) {
    if c.life.mode.Recovery? || c.node.stewards.nextRound > 0 || c.life.recovered then p.retryWindow else p.commitBatchWindow
  }

  /** Approved work that nobody commits starts a round by itself. */
  function FreezeOnInactivity(w: World, p: Policy, c: Conversing, now: nat, electionInFlight: bool,
        minted: Option<Mint>): (r: Conversing) {
    if electionInFlight || !c.life.phase.Working? || c.node.s.queues.approved == [] then c
    else if c.life.anchor.None? then c.(life := c.life.(anchor := Some(now)))
    else if Elapsed(c.life.anchor, now, InactivityWindow(p, c)) then EnterFreeze(w, c, now, minted)
    else c
  }

  /** Silence in `Reelection` counts as a rejected round. */
  function ReelectionSilence(p: Policy, c: Conversing, now: nat, electionInFlight: bool): (r: Conversing) {
    if !c.life.phase.Reelection? || electionInFlight then c.(life := c.life.(silence := None))
    else match c.life.silence
      case None => c.(life := c.life.(silence := Some(now)))
      case Some(since) =>
        if now < since + p.retryWindow then c
        else c.(life := c.life.(silence := None), node := c.node.(stewards := Bumped(c.node.stewards)))
  }

  // ── Outcomes and candidates ──

  /** An accepted list that checks out is installed, closes recovery and ends a
      reelection; if it does not check out or install, nothing happens. */
  function ElectionPassed(w: World, c: Conversing, e: Election): (r: Conversing) {
    var n := c.node;
    if !ValidateElection(w, n.s.queues.joinEpoch, n.s.mls.group, n.stewards, e) then c
    else match n.stewards.Install(w, e.epoch, e.stewards, |e.stewards|, e.retryRound)
      case Err(_) => c
      case Ok(installed) =>
        var life := c.life.ExitRecovery();
        Conversing(if life.phase.Reelection? then life.(recovered := true).StartWorking() else life, n.(stewards := installed))
  }

  function FollowUpOn(w: World, c: Conversing, f: FollowUp, now: nat, minted: Option<Mint>): (r: Conversing) {
    match f
    case ElectionAccepted(e) => ElectionPassed(w, c, e)
    case ElectionRejected => c.(node := c.node.(stewards := Bumped(c.node.stewards)))
    case RecoveryModeOpened => c.(life := c.life.EnterRecovery().StartFreezing(now))
    case UrgentRemoval(_) => EnterFreeze(w, c, now, minted)
    case _ => c
  }

  function EmergencyScored(c: Conversing, ops: seq<ScoreOp>): (r: Conversing) {
    if ops == [] then c
    else Conversing(if c.life.phase.Reelection? then c.life.StartWorking() else c.life, c.node.(scoring := c.node.scoring.Apply(ops)))
  }

  function HandleOutcome(w: World, c: Conversing, id: nat, approved: bool, request: Request, now: nat,
        minted: Option<Mint>): (r: Conversing) {
    if c.node.s.queues.resolved.Has(id) then c
    else
      var (q, f) := OnOutcome(w, c.node.s.mls.group, c.node.s.queues, id, approved, request);
      EmergencyScored(FollowUpOn(w, c.(node := c.node.(s := c.node.s.(queues := q))), f, now, minted), EmergencyScoreOps(request, approved))
  }

  function CandidateArrived(w: World, c: Conversing, msg: Candidate, now: nat, minted: Option<Mint>): (r: Conversing) {
    var (q, intake) := Receive(w, c.node.s.mls.group, c.node.s.queues, msg);
    var heard := c.(node := c.node.(s := c.node.s.(queues := q)));
    if intake.Received? then EnterFreeze(w, heard, now, minted) else heard
  }

  function CommitInRecovery(w: World, c: Conversing, minted: Option<Mint>): (r: Conversing) {
    if c.life.mode.Recovery? then Minting(w, c, minted) else c
  }

  // ── Runs ──

  datatype LifeStep =
    | Outcome(id: nat, approved: bool, request: Request, now: nat, minted: Option<Mint>)
    | Arrived(msg: Candidate, now: nat, minted: Option<Mint>)
    | Manual(minted: Option<Mint>)
    | Freeze(now: nat, minted: Option<Mint>, finalizeFails: bool)
    | Inactivity(now: nat, electionInFlight: bool, minted: Option<Mint>)
    | Silence(now: nat, electionInFlight: bool)
    | Synced(sync: Sync)

  /** A member that is out takes no further step. */
  function StepLife(w: World, p: Policy, c: Conversing, step: LifeStep): (r: Conversing) {
    if c.node.left then c
    else match step
      case Outcome(id, approved, request, now, minted) => HandleOutcome(w, c, id, approved, request, now, minted)
      case Arrived(msg, now, minted) => CandidateArrived(w, c, msg, now, minted)
      case Manual(minted) => CommitInRecovery(w, c, minted)
      case Freeze(now, minted, finalizeFails) => AdvanceFreezing(w, p, c, now, minted, finalizeFails)
      case Inactivity(now, inFlight, minted) => FreezeOnInactivity(w, p, c, now, inFlight, minted)
      case Silence(now, inFlight) => ReelectionSilence(p, c, now, inFlight)
      case Synced(sync) => c.(node := OnSync(w, c.node, sync))
  }

  function RunLife(w: World, p: Policy, c: Conversing, steps: seq<LifeStep>): (r: Conversing) {
    if steps == [] then c else StepLife(w, p, RunLife(w, p, c, steps[..|steps| - 1]), steps[|steps| - 1])
  }

  /** The step takes a sync over. */
  predicate Adopting(w: World, c: Conversing, step: LifeStep) {
    !c.node.left && step.Synced? && Adopts(w, c.node, step.sync)
  }

  lemma RunLonger(w: World, p: Policy, c: Conversing, steps: seq<LifeStep>, step: LifeStep)
    ensures RunLife(w, p, c, steps + [step]) == StepLife(w, p, RunLife(w, p, c, steps), step)
  {
    hide StepLife;
    assert (steps + [step])[..|steps|] == steps;
  }

  /** A run goes on where its first part ended. */
  lemma {:induction false} RunConcat(w: World, p: Policy, c: Conversing, steps: seq<LifeStep>, more: seq<LifeStep>)
    ensures RunLife(w, p, c, steps + more) == RunLife(w, p, RunLife(w, p, c, steps), more)
  {
    hide StepLife;
    if more == [] {
      assert steps + more == steps;
    } else {
      var rest, last := more[..|more| - 1], more[|more| - 1];
      assert steps + more == (steps + rest) + [last] && more == rest + [last];
      RunConcat(w, p, c, steps, rest);
      RunLonger(w, p, c, steps + rest, last);
    }
  }

  predicate AtRest(p: Policy, c: Conversing) { LifeOk(p, c.life, c.node.s.queues.approved == [], c.node.left) }

  // ── Approved work does not vanish between rounds ──

  lemma OutcomeKeepsWork(w: World, g: Group, q: Queues, id: nat, approved: bool, request: Request)
    ensures q.approved != [] ==> OnOutcome(w, g, q, id, approved, request).0.approved != []
  {
    hide Replay;
    var marked := q.(resolved := q.resolved.Insert(id));
    ReplayTouches(w, g, ApplyConsensus(w, marked, id, approved, request).0);
  }

  lemma MintingKeeps(w: World, c: Conversing, minted: Option<Mint>)
    ensures var c' := Minting(w, c, minted);
            c'.life == c.life && c'.node.s.queues.approved == c.node.s.queues.approved && c'.node.left == c.node.left
  {}

  lemma EnterFreezeOk(w: World, p: Policy, c: Conversing, now: nat, minted: Option<Mint>)
    requires AtRest(p, c) && !c.node.left
    ensures AtRest(p, EnterFreeze(w, c, now, minted)) && EnterFreeze(w, c, now, minted).node.left == c.node.left
  {
    hide BuildLocal;
    MintingKeeps(w, c.(life := c.life.StartFreezing(now)), minted);
  }

  lemma FollowUpOk(w: World, p: Policy, c: Conversing, f: FollowUp, now: nat, minted: Option<Mint>)
    requires AtRest(p, c) && !c.node.left
    ensures AtRest(p, FollowUpOn(w, c, f, now, minted)) && !FollowUpOn(w, c, f, now, minted).node.left
  {
    hide EnterFreeze, ValidateElection, Generate;
    EnterFreezeOk(w, p, c, now, minted);
  }

  lemma HandleOutcomeOk(w: World, p: Policy, c: Conversing, id: nat, approved: bool, request: Request, now: nat,
        minted: Option<Mint>)
    requires AtRest(p, c) && !c.node.left
    ensures AtRest(p, HandleOutcome(w, c, id, approved, request, now, minted))
  {
    hide OnOutcome, FollowUpOn, EmergencyScoreOps;
    var (q, f) := OnOutcome(w, c.node.s.mls.group, c.node.s.queues, id, approved, request);
    OutcomeKeepsWork(w, c.node.s.mls.group, c.node.s.queues, id, approved, request);
    FollowUpOk(w, p, c.(node := c.node.(s := c.node.s.(queues := q))), f, now, minted);
  }

  lemma CandidateArrivedOk(w: World, p: Policy, c: Conversing, msg: Candidate, now: nat, minted: Option<Mint>)
    requires AtRest(p, c) && !c.node.left
    ensures AtRest(p, CandidateArrived(w, c, msg, now, minted))
  {
    hide Receive, EnterFreeze;
    var q := Receive(w, c.node.s.mls.group, c.node.s.queues, msg).0;
    ReceiveTouches(w, c.node.s.mls.group, c.node.s.queues, msg);
    EnterFreezeOk(w, p, c.(node := c.node.(s := c.node.s.(queues := q))), now, minted);
  }

  lemma MissedKeeps(n: Node)
    ensures Missed(n).left == n.left && Missed(n).s.queues.approved == n.s.queues.approved
  {
  }

  lemma RoundMissedOk(p: Policy, c: Conversing, n: Node, now: nat)
    requires AtRest(p, c) && !n.left && c.life.phase.Freezing?
    ensures AtRest(p, RoundMissed(p, c.life, n, now))
  {
    hide Missed;
    MissedKeeps(n);
  }

  /** However a round ends, the conversation comes to rest properly. */
  lemma CloseRoundOk(w: World, p: Policy, c: Conversing, now: nat, finalizeFails: bool)
    requires AtRest(p, c) && !c.node.left && c.life.phase.Freezing?
    ensures AtRest(p, CloseRound(w, p, c, now, finalizeFails))
  {
    hide FinalizeRound, Updated, RoundMissed;
    var n, recovery := c.node, c.life.mode.Recovery?;
    var (after, result) := FinalizeRound(w, n.s, n.stewards, recovery, recovery || n.stewards.config.allowSubset, n.self);
    RoundMissedOk(p, c, n.(s := after, scoring := n.scoring.Apply(result.scoreOps)), now);
  }

  /** A sync moves the steward list and the scores at most. */
  lemma SyncMoves(w: World, n: Node, sync: Sync)
    ensures OnSync(w, n, sync) == n.(stewards := OnSync(w, n, sync).stewards, scoring := OnSync(w, n, sync).scoring)
  {
    hide Adopts, AdoptSync;
  }

  lemma StepLifeOk(w: World, p: Policy, c: Conversing, step: LifeStep)
    requires AtRest(p, c)
    ensures AtRest(p, StepLife(w, p, c, step))
  {
    hide HandleOutcome, CandidateArrived, Minting, CloseRound, RoundDue, EnterFreeze, OnSync;
    if !c.node.left {
      match step
      case Outcome(id, approved, request, now, minted) => HandleOutcomeOk(w, p, c, id, approved, request, now, minted);
      case Arrived(msg, now, minted) => CandidateArrivedOk(w, p, c, msg, now, minted);
      case Manual(minted) => MintingKeeps(w, c, minted);
      case Freeze(now, minted, finalizeFails) =>
        MintingKeeps(w, c, minted);
        if c.life.phase.Freezing? {
          CloseRoundOk(w, p, AutoCommit(w, p, c, now, minted), now, finalizeFails);
        }
      case Inactivity(now, inFlight, minted) => EnterFreezeOk(w, p, c, now, minted);
      case Silence(now, inFlight) =>
      case Synced(sync) => SyncMoves(w, c.node, sync);
    }
  }

  // The same, drive by drive.

  lemma OutcomeKeepsRest(w: World, p: Policy, c: Conversing, id: nat, approved: bool, request: Request, now: nat,
        minted: Option<Mint>)
    ensures AtRest(p, c) && !c.node.left ==> AtRest(p, HandleOutcome(w, c, id, approved, request, now, minted))
  {
    hide AtRest, HandleOutcome;
    if AtRest(p, c) && !c.node.left { HandleOutcomeOk(w, p, c, id, approved, request, now, minted); }
  }

  lemma ArrivalKeepsRest(w: World, p: Policy, c: Conversing, msg: Candidate, now: nat, minted: Option<Mint>)
    ensures AtRest(p, c) && !c.node.left ==> AtRest(p, CandidateArrived(w, c, msg, now, minted))
  {
    hide AtRest, CandidateArrived;
    if AtRest(p, c) && !c.node.left { CandidateArrivedOk(w, p, c, msg, now, minted); }
  }

  lemma FreezeKeepsRest(w: World, p: Policy, c: Conversing, now: nat, minted: Option<Mint>, finalizeFails: bool)
    ensures AtRest(p, c) && !c.node.left ==> AtRest(p, AdvanceFreezing(w, p, c, now, minted, finalizeFails))
  {
    hide AtRest, AdvanceFreezing;
    if AtRest(p, c) && !c.node.left { StepLifeOk(w, p, c, Freeze(now, minted, finalizeFails)); }
  }

  lemma InactivityKeepsRest(w: World, p: Policy, c: Conversing, now: nat, inFlight: bool, minted: Option<Mint>)
    ensures AtRest(p, c) && !c.node.left ==> AtRest(p, FreezeOnInactivity(w, p, c, now, inFlight, minted))
  {
    hide AtRest, FreezeOnInactivity;
    if AtRest(p, c) && !c.node.left { StepLifeOk(w, p, c, Inactivity(now, inFlight, minted)); }
  }

  lemma SilenceKeepsRest(p: Policy, c: Conversing, now: nat, inFlight: bool)
    ensures AtRest(p, c) ==> AtRest(p, ReelectionSilence(p, c, now, inFlight))
  {}

  lemma SyncKeepsRest(w: World, p: Policy, c: Conversing, sync: Sync)
    ensures AtRest(p, c) ==> AtRest(p, c.(node := OnSync(w, c.node, sync)))
  {
    hide OnSync;
    SyncMoves(w, c.node, sync);
  }

  lemma ManualKeepsRest(w: World, p: Policy, c: Conversing, minted: Option<Mint>)
    ensures AtRest(p, c) && !c.node.left ==> AtRest(p, CommitInRecovery(w, c, minted))
  {
    hide AtRest, CommitInRecovery;
    if AtRest(p, c) && !c.node.left { StepLifeOk(w, p, c, Manual(minted)); }
  }

  /** Lifecycle safety over every run from the start: recovery only while freezing, a
      freeze always timed, a reelection never, a running inactivity timer only over
      approved work, selection never at rest unless a round told us that we are out; and with a stop-line
      m > 0 each recovery sees at most m rounds without a commit, its end being
      announced on the m-th, once, and never with m = 0. */
  lemma {:induction false} LifecycleSafety(w: World, p: Policy, n: Node, steps: seq<LifeStep>)
    requires !n.left
    ensures AtRest(p, RunLife(w, p, Conversing(NewLife(), n), steps))
  {
    hide StepLife, AtRest;
    if steps == [] {
      StartsOk(p, n);
    } else {
      LifecycleSafety(w, p, n, steps[..|steps| - 1]);
      StepLifeOk(w, p, RunLife(w, p, Conversing(NewLife(), n), steps[..|steps| - 1]), steps[|steps| - 1]);
    }
  }

  lemma StartsOk(p: Policy, n: Node)
    ensures AtRest(p, Conversing(NewLife(), n))
  {}

  // ── Recovery is bounded ──

  /** The step opens recovery (again). */
  predicate Opens(w: World, c: Conversing, step: LifeStep) {
    && !c.node.left && step.Outcome? && !c.node.s.queues.resolved.Has(step.id)
    && OnOutcome(w, c.node.s.mls.group, c.node.s.queues, step.id, step.approved, step.request).1.RecoveryModeOpened?
  }

  /** The step ends a recovery round with approved work and no commit, or fails to
      finalize one. */
  predicate MissesRound(w: World, p: Policy, c: Conversing, step: LifeStep) {
    && !c.node.left && step.Freeze? && c.life.phase.Freezing? && c.life.mode.Recovery?
    && var ready := AutoCommit(w, p, c, step.now, step.minted);
       && RoundDue(p, ready, step.now)
       && (step.finalizeFails ||
           var (after, r) := FinalizeRound(w, ready.node.s, ready.node.stewards, true, true, ready.node.self);
           r.outcome.NoCandidate? && after.queues.approved != [])
  }

  function MissCount(w: World, p: Policy, c: Conversing, steps: seq<LifeStep>): (n: nat) {
    if steps == [] then 0
    else MissCount(w, p, c, steps[..|steps| - 1]) + if MissesRound(w, p, RunLife(w, p, c, steps[..|steps| - 1]), steps[|steps| - 1]) then 1 else 0
  }

  /** No step of the run opens recovery. */
  predicate NoneOpens(w: World, p: Policy, c: Conversing, steps: seq<LifeStep>) {
    steps != [] ==>
      && NoneOpens(w, p, c, steps[..|steps| - 1])
      && !Opens(w, RunLife(w, p, c, steps[..|steps| - 1]), steps[|steps| - 1])
  }

  lemma OutcomeRounds(w: World, c: Conversing, id: nat, approved: bool, request: Request, now: nat,
        minted: Option<Mint>)
    requires !c.node.left && !Opens(w, c, Outcome(id, approved, request, now, minted))
    ensures HandleOutcome(w, c, id, approved, request, now, minted).life.rounds == c.life.rounds
  {
    hide OnOutcome, Minting, ValidateElection, Generate, EmergencyScoreOps;
    var (q, f) := OnOutcome(w, c.node.s.mls.group, c.node.s.queues, id, approved, request);
    var told := c.(node := c.node.(s := c.node.s.(queues := q)));
    MintingKeeps(w, told.(life := told.life.StartFreezing(now)), minted);
  }

  lemma CloseRoundRounds(w: World, p: Policy, c: Conversing, now: nat, finalizeFails: bool)
    ensures var (after, r) := FinalizeRound(w, c.node.s, c.node.stewards, true, true, c.node.self);
            var missed := c.life.mode.Recovery? && (finalizeFails || (r.outcome.NoCandidate? && after.queues.approved != []));
            CloseRound(w, p, c, now, finalizeFails).life.rounds == c.life.rounds + if missed then 1 else 0
  {
    hide FinalizeRound, Missed, Updated;
    if !finalizeFails {
      if c.life.mode.Recovery? {
        var (after, r) := FinalizeRound(w, c.node.s, c.node.stewards, true, true, c.node.self);
        assert CloseRound(w, p, c, now, finalizeFails)
            == var scored := c.node.(s := after, scoring := c.node.scoring.Apply(r.scoreOps));
               if r.outcome.Applied? then RoundApplied(w, c.life, scored, r.outcome.leave) else RoundMissed(p, c.life, scored, now);
      }
    }
  }

  lemma FreezeRounds(w: World, p: Policy, c: Conversing, step: LifeStep)
    requires !c.node.left && step.Freeze?
    ensures AdvanceFreezing(w, p, c, step.now, step.minted, step.finalizeFails).life.rounds
         == c.life.rounds + if MissesRound(w, p, c, step) then 1 else 0
  {
    hide FinalizeRound, Minting, RoundDue, CloseRound;
    MintingKeeps(w, c, step.minted);
    CloseRoundRounds(w, p, AutoCommit(w, p, c, step.now, step.minted), step.now, step.finalizeFails);
  }

  /** The counter counts the missed rounds. */
  lemma {:induction false} RoundsCountMisses(w: World, p: Policy, c: Conversing, steps: seq<LifeStep>)
    requires NoneOpens(w, p, c, steps)
    ensures RunLife(w, p, c, steps).life.rounds == c.life.rounds + MissCount(w, p, c, steps)
  {
    hide Opens, MissesRound, HandleOutcome, CandidateArrived, AdvanceFreezing, Minting, EnterFreeze;
    if steps != [] {
      var mid, last := RunLife(w, p, c, steps[..|steps| - 1]), steps[|steps| - 1];
      RoundsCountMisses(w, p, c, steps[..|steps| - 1]);
      StepRounds(w, p, mid, last);
    }
  }

  lemma StepRounds(w: World, p: Policy, c: Conversing, step: LifeStep)
    requires !Opens(w, c, step)
    ensures StepLife(w, p, c, step).life.rounds == c.life.rounds + if MissesRound(w, p, c, step) then 1 else 0
  {
    hide Opens, HandleOutcome, AdvanceFreezing, Minting, Receive, FinalizeRound;
    if !c.node.left {
      match step
      case Outcome(id, approved, request, now, minted) => OutcomeRounds(w, c, id, approved, request, now, minted);
      case Arrived(msg, now, minted) =>
        var heard := c.(node := c.node.(s := c.node.s.(queues := Receive(w, c.node.s.mls.group, c.node.s.queues, msg).0)));
        MintingKeeps(w, heard.(life := heard.life.StartFreezing(now)), minted);
      case Manual(minted) => MintingKeeps(w, c, minted);
      case Freeze(_, _, _) => FreezeRounds(w, p, c, step);
      case Inactivity(now, inFlight, minted) => MintingKeeps(w, c.(life := c.life.StartFreezing(now)), minted);
      case Silence(_, _) =>
      case Synced(_) =>
    }
  }

  /** From the moment recovery opens until it opens again, at most m rounds go by
      without a commit, however long the run; recovery has been given up exactly if
      all m of them have, which is announced once; without a stop-line it never is. */
  lemma RecoveryIsBounded(w: World, p: Policy, n: Node, before: seq<LifeStep>, opening: LifeStep, after: seq<LifeStep>)
    requires !n.left
    requires Opens(w, RunLife(w, p, Conversing(NewLife(), n), before), opening)
    requires NoneOpens(w, p, StepLife(w, p, RunLife(w, p, Conversing(NewLife(), n), before), opening), after)
    ensures var begun := StepLife(w, p, RunLife(w, p, Conversing(NewLife(), n), before), opening);
            var now, missed, m := RunLife(w, p, begun, after).life, MissCount(w, p, begun, after), p.recoveryMaxRounds;
            && begun.life.mode.Recovery? && begun.life.rounds == 0
            && (m > 0 ==> missed <= m && now.exhausted == (if missed == m then 1 else 0) && (now.mode.Recovery? ==> missed < m))
            && (m == 0 ==> now.exhausted == 0)
  {
    hide RunLife, MissCount, NoneOpens, Opens, StepLife;
    var start := RunLife(w, p, Conversing(NewLife(), n), before);
    var begun := StepLife(w, p, start, opening);
    LifecycleSafety(w, p, n, before);
    StepLifeOk(w, p, start, opening);
    OpeningResets(w, p, start, opening);
    RunStaysOk(w, p, begun, after);
    RoundsCountMisses(w, p, begun, after);
  }

  lemma {:induction false} RunStaysOk(w: World, p: Policy, c: Conversing, steps: seq<LifeStep>)
    requires AtRest(p, c)
    ensures AtRest(p, RunLife(w, p, c, steps))
  {
    hide StepLife, AtRest;
    if steps != [] {
      RunStaysOk(w, p, c, steps[..|steps| - 1]);
      StepLifeOk(w, p, RunLife(w, p, c, steps[..|steps| - 1]), steps[|steps| - 1]);
    }
  }

  lemma OpeningResets(w: World, p: Policy, c: Conversing, step: LifeStep)
    requires Opens(w, c, step)
    ensures StepLife(w, p, c, step).life.mode.Recovery? && StepLife(w, p, c, step).life.rounds == 0
  {
    hide OnOutcome, EmergencyScoreOps;
  }
}
