/** Which steps move a conversation between its phases and modes, exactly, and what a
    whole run of them adds up to. */
module PhaseMoves {
  import opened ByteStrings
  import opened Protocol
  import opened MlsGroup
  import opened StewardLists
  import opened Queues
  import opened CommitApply
  import opened CandidateIntake
  import opened Outcomes
  import opened Nodes
  import opened Lifecycle
  import opened SyncMessages
  import opened ConversationModel
  import opened Duty
  import opened Transitions
  import opened VoteEffects
  import PeerScoring

  // ── The timers ──

  /** How long approved work may lie: the short window in recovery, after a failed round,
      and between an election and the next commit. */
  function Patience(p: Policy, c: Conversing): (d: nat) {
    if c.life.mode == Recovery || c.node.stewards.nextRound > 0 || c.life.recovered then p.retryWindow else p.commitBatchWindow
  }

  predicate Listed(n: Node) { n.stewards.list.Some? && n.self in n.stewards.list.value.members }

  /** A freeze that starts now; listed members mint. */
  function FreezeNow(w: World, c: Conversing, now: nat, minted: Option<Mint>): (r: Conversing) {
    var frozen := c.(life := c.life.(phase := Freezing, anchor := Some(now)));
    if Listed(c.node) then Minting(w, frozen, minted) else frozen
  }

  /** Approved work in `Working` starts a timer, and a freeze once the timer has run its
      window, unless an election is in flight; nothing else does anything. */
  lemma InactivityMoves(w: World, p: Policy, c: Conversing, now: nat, inFlight: bool, minted: Option<Mint>)
    requires !c.node.left
    ensures var after := StepLife(w, p, c, Inactivity(now, inFlight, minted));
            after == if inFlight || c.life.phase != Working || c.node.s.queues.approved == [] then c
                     else match c.life.anchor
                       case None => c.(life := c.life.(anchor := Some(now)))
                       case Some(since) => if now < since + Patience(p, c) then c else FreezeNow(w, c, now, minted)
  {
    hide Minting;
  }

  /** A full silent window in `Reelection` costs a retry round; the window starts when
      silence is first noticed, and starts over with an election or another phase. */
  lemma SilenceMoves(w: World, p: Policy, c: Conversing, now: nat, inFlight: bool)
    requires !c.node.left
    ensures var after := StepLife(w, p, c, Silence(now, inFlight));
            var round := c.node.stewards.nextRound;
            after == if c.life.phase != Reelection || inFlight then c.(life := c.life.(silence := None))
                     else match c.life.silence
                       case None => c.(life := c.life.(silence := Some(now)))
                       case Some(since) =>
                         if now < since + p.retryWindow then c
                         else c.(life := c.life.(silence := None),
                                 node := c.node.(stewards := c.node.stewards.(nextRound := if round < 0xffff_ffff then round + 1 else round)))
  {}

  /** A candidate that is newly buffered starts a freeze from work or reelection. */
  lemma ArrivalMoves(w: World, p: Policy, c: Conversing, msg: Candidate, now: nat, minted: Option<Mint>)
    requires !c.node.left
    ensures var (q, intake) := Receive(w, c.node.s.mls.group, c.node.s.queues, msg);
            var heard := c.(node := c.node.(s := c.node.s.(queues := q)));
            StepLife(w, p, c, Arrived(msg, now, minted))
            == if intake.Received? && (c.life.phase == Working || c.life.phase == Reelection) then FreezeNow(w, heard, now, minted) else heard
  {
    hide Receive, Minting;
  }

  /** Minting by hand works in recovery only, and moves no phase. */
  lemma ManualMoves(w: World, p: Policy, c: Conversing, minted: Option<Mint>)
    requires !c.node.left
    ensures StepLife(w, p, c, Manual(minted)) == if c.life.mode == Recovery then Minting(w, c, minted) else c
  {}

  // ── Recovery ──

  /** An accepted Deadlock, for the first time. */
  predicate OpensNow(c: Conversing, step: LifeStep) {
    && step.Outcome? && !c.node.s.queues.resolved.Has(step.id) && step.approved
    && step.request.EmergencyCriteria? && step.request.evidence.Some? && step.request.evidence.value.violation == Deadlock
  }

  /** An accepted list that checks out, for the first time. */
  ghost predicate ListComesIn(w: World, c: Conversing, step: LifeStep) {
    && step.Outcome? && !c.node.s.queues.resolved.Has(step.id) && step.approved
    && step.request.StewardElection? && ChecksOut(w, c.node, step.request.election)
  }

  /** The step ends a round. */
  ghost predicate EndsARound(w: World, p: Policy, c: Conversing, step: LifeStep) {
    step.Freeze? && c.life.phase == Freezing && CollectionOver(p, Ready(w, p, c, step.now, step.minted), step.now)
  }

  ghost predicate Merges(w: World, p: Policy, c: Conversing, step: LifeStep)
    requires step.Freeze?
  {
    !step.finalizeFails && Selected(w, Ready(w, p, c, step.now, step.minted)).1.outcome.Applied?
  }

  predicate LastAllowed(p: Policy,
        c: Conversing) { p.recoveryMaxRounds > 0 && c.life.rounds + 1 >= p.recoveryMaxRounds }

  /** A recovery round after which recovery is over: a commit merged, nothing is left to
      commit, or the stop-line is reached. */
  ghost predicate RoundEndsRecovery(w: World, p: Policy, c: Conversing, step: LifeStep) {
    && EndsARound(w, p, c, step)
    && (Merges(w, p, c, step) || (!step.finalizeFails && c.node.s.queues.approved == []) || LastAllowed(p, c))
  }

  lemma VoteMoves(w: World, p: Policy, c: Conversing, step: LifeStep)
    requires !c.node.left && step.Outcome? && c.node.stewards.config.Valid() && c.life.phase != Selection
    ensures var before, after := c.life, StepLife(w, p, c, step).life;
            && (after.mode == Recovery <==> OpensNow(c, step) || (before.mode == Recovery && !ListComesIn(w, c, step)))
            && (after.phase == Reelection ==> before.phase == Reelection)
            && (before.phase == Reelection && ListComesIn(w, c, step) ==> after.phase == Working)
  {
    hide ChecksOut, StepLife;
    var Outcome(id, approved, request, now, minted) := step;
    if c.node.s.queues.resolved.Has(id) {
      VoteCountsOnce(w, p, c, id, approved, request, now, minted);
    } else if request.StewardElection? {
      if approved { ListVotePasses(w, p, c, id, request.election, now, minted); } else { ListVoteFails(w, p, c, id, request.election, now, minted); }
    } else if OpensNow(c, step) {
      DeadlockOpensRecovery(w, p, c, id, request.evidence.value, now, minted);
    } else {
      OtherVotes(w, p, c, id, approved, request, now, minted);
    }
  }

  lemma FreezeMoves(w: World, p: Policy, c: Conversing, step: LifeStep)
    requires !c.node.left && step.Freeze?
    ensures var before, after := c.life, StepLife(w, p, c, step).life;
            && (after.mode == Recovery <==> before.mode == Recovery && !RoundEndsRecovery(w, p, c, step))
            && (after.phase == Reelection <==>
                  || before.phase == Reelection
                  || (before.mode == Normal && EndsARound(w, p, c, step)
                      && !step.finalizeFails && !Merges(w, p, c, step) && c.node.s.queues.approved != []))
  {
    hide StepLife, Ready, CollectionOver, Selected;
    var Freeze(now, minted, fails) := step;
    if c.life.phase != Freezing {
      NoFreezeNoMove(w, p, c, step);
    } else if !EndsARound(w, p, c, step) {
      RoundGoesOn(w, p, c, now, minted, fails);
      MintingSameLife(w, c, minted);
    } else if fails {
      RoundThatFails(w, p, c, now, minted);
    } else if Merges(w, p, c, step) {
      RoundWithCommit(w, p, c, now, minted);
    } else {
      RoundWithoutCommit(w, p, c, now, minted);
    }
  }

  lemma NoFreezeNoMove(w: World, p: Policy, c: Conversing, step: LifeStep)
    requires step.Freeze? && c.life.phase != Freezing
    ensures StepLife(w, p, c, step) == c
  {}

  lemma OtherMoves(w: World, p: Policy, c: Conversing, step: LifeStep)
    requires !c.node.left && !step.Outcome? && !step.Freeze?
    ensures var before, after := c.life, StepLife(w, p, c, step).life;
            && after.mode == before.mode && after.rounds == before.rounds
            && (after.phase == before.phase || (after.phase == Freezing && (before.phase == Working || before.phase == Reelection)))
  {
    hide StepLife, Receive;
    match step
    case Inactivity(now, inFlight, minted) =>
      InactivityMoves(w, p, c, now, inFlight, minted);
      MintingSameLife(w, c.(life := c.life.(phase := Freezing, anchor := Some(now))), minted);
    case Silence(now, inFlight) => SilenceMoves(w, p, c, now, inFlight);
    case Manual(minted) =>
      ManualMoves(w, p, c, minted);
      MintingSameLife(w, c, minted);
    case Arrived(msg, now, minted) =>
      ArrivalMoves(w, p, c, msg, now, minted);
      var heard := c.(node := c.node.(s := c.node.s.(queues := Receive(w, c.node.s.mls.group, c.node.s.queues, msg).0)));
      MintingSameLife(w, heard.(life := c.life.(phase := Freezing, anchor := Some(now))), minted);
    case Synced(sync) => SyncedLife(w, p, c, sync);
  }

  lemma SyncedLife(w: World, p: Policy, c: Conversing, sync: Sync)
    ensures StepLife(w, p, c, Synced(sync)).life == c.life
  {}

  /** Recovery opens by an accepted Deadlock and by nothing else. It ends by a merged
      commit, an empty queue or the stop-line at the end of a round, or by an accepted list
      that checks out, and by nothing else. */
  lemma RecoveryMovesIff(w: World, p: Policy, c: Conversing, step: LifeStep)
    requires !c.node.left && c.node.stewards.config.Valid() && c.life.phase != Selection
    ensures var after := StepLife(w, p, c, step).life;
            && (c.life.mode == Normal ==> (after.mode == Recovery <==> OpensNow(c, step)))
            && (c.life.mode == Recovery ==> (after.mode == Normal <==> ListComesIn(w, c, step) || RoundEndsRecovery(w, p, c, step)))
  {
    hide StepLife, ListComesIn, RoundEndsRecovery, OpensNow, EndsARound;
    ByKind(w, p, c, step);
    if step.Outcome? { VoteMoves(w, p, c, step); }
    else if step.Freeze? { FreezeMoves(w, p, c, step); }
    else { OtherMoves(w, p, c, step); }
  }

  lemma ByKind(w: World, p: Policy, c: Conversing, step: LifeStep)
    ensures OpensNow(c, step) || ListComesIn(w, c, step) ==> step.Outcome?
    ensures RoundEndsRecovery(w, p, c, step) || EndsARound(w, p, c, step) ==> step.Freeze?
    ensures !(OpensNow(c, step) && ListComesIn(w, c, step))
  {}

  /** A conversation goes into reelection exactly when a round outside recovery ends with
      approved work and no commit. */
  lemma ReelectionStartsIff(w: World, p: Policy, c: Conversing, step: LifeStep)
    requires !c.node.left && c.node.stewards.config.Valid() && c.life.phase != Selection && c.life.phase != Reelection
    ensures StepLife(w, p, c, step).life.phase == Reelection
            <==> && c.life.mode == Normal && EndsARound(w, p, c, step)
                 && !step.finalizeFails && !Merges(w, p, c, step) && c.node.s.queues.approved != []
  {
    hide StepLife, ListComesIn, RoundEndsRecovery, OpensNow, EndsARound, Merges;
    ByKind(w, p, c, step);
    if step.Outcome? { VoteMoves(w, p, c, step); }
    else if step.Freeze? { FreezeMoves(w, p, c, step); }
    else { OtherMoves(w, p, c, step); }
  }

  // ── The retry ladder ──

  /** The step fails a list: a list vote is rejected, or a silent window runs out. */
  predicate FailsList(p: Policy, c: Conversing, step: LifeStep) {
    && !c.node.left
    && match step
       case Outcome(id, approved, request, _, _) => !c.node.s.queues.resolved.Has(id) && !approved && request.StewardElection?
       case Silence(now, inFlight) => c.life.phase == Reelection && !inFlight && c.life.silence.Some? && now >= c.life.silence.value + p.retryWindow
       case _ => false
  }

  /** The step merges a commit that keeps us in. */
  ghost predicate MergesOn(w: World, p: Policy, c: Conversing, step: LifeStep) {
    !c.node.left && EndsARound(w, p, c, step) && Merges(w, p, c, step) && !StepLife(w, p, c, step).node.left
  }

  /** Lists failed since the last commit. */
  ghost function FailedLists(w: World, p: Policy, c: Conversing, steps: seq<LifeStep>): (n: nat) {
    if steps == [] then c.node.stewards.nextRound
    else
      var mid, last := RunLife(w, p, c, steps[..|steps| - 1]), steps[|steps| - 1];
      if MergesOn(w, p, mid, last) then 0
      else FailedLists(w, p, c, steps[..|steps| - 1]) + if FailsList(p, mid, last) then 1 else 0
  }

  function Capped(n: nat): (r: nat) { if n < 0xffff_ffff then n else 0xffff_ffff }

  lemma LadderStep(w: World, p: Policy, c: Conversing, step: LifeStep)
    ensures var round, round' := c.node.stewards.nextRound, StepLife(w, p, c, step).node.stewards.nextRound;
            round' == if MergesOn(w, p, c, step) then 0
                      else if FailsList(p, c, step) && round < 0xffff_ffff then round + 1
                      else round
  {
    hide Ready, CollectionOver, Selected, Receive, ChecksOut, OnSync, HandleOutcome, CandidateArrived, AdvanceFreezing;
    if !c.node.left {
      match step
      case Outcome(id, approved, request, now, minted) => VoteLadder(w, p, c, step);
      case Freeze(_, _, _) => FreezeLadder(w, p, c, step);
      case Silence(now, inFlight) => SilenceMoves(w, p, c, now, inFlight);
      case Synced(sync) => SyncLadder(w, c.node, sync);
      case Inactivity(now, inFlight, minted) =>
        InactivityMoves(w, p, c, now, inFlight, minted);
        MintingSameLife(w, c.(life := c.life.(phase := Freezing, anchor := Some(now))), minted);
      case Manual(minted) => MintingSameLife(w, c, minted);
      case Arrived(msg, now, minted) =>
        ArrivalMoves(w, p, c, msg, now, minted);
        var heard := c.(node := c.node.(s := c.node.s.(queues := Receive(w, c.node.s.mls.group, c.node.s.queues, msg).0)));
        MintingSameLife(w, heard.(life := c.life.(phase := Freezing, anchor := Some(now))), minted);
    }
  }

  lemma VoteLadder(w: World, p: Policy, c: Conversing, step: LifeStep)
    requires !c.node.left && step.Outcome?
    ensures var round, round' := c.node.stewards.nextRound, StepLife(w, p, c, step).node.stewards.nextRound;
            round' == if FailsList(p, c, step) && round < 0xffff_ffff then round + 1 else round
  {
    hide ChecksOut, StepLife;
    var Outcome(id, approved, request, now, minted) := step;
    if c.node.s.queues.resolved.Has(id) {
      VoteCountsOnce(w, p, c, id, approved, request, now, minted);
    } else if request.StewardElection? {
      if approved { PassingKeepsLadder(w, p, c, id, request.election, now, minted); } else { ListVoteFails(w, p, c, id, request.election, now, minted); }
    } else if OpensNow(c, step) {
      DeadlockKeepsList(w, p, c, id, request.evidence.value, now, minted);
    } else {
      OtherVotes(w, p, c, id, approved, request, now, minted);
    }
  }

  lemma PassingKeepsLadder(w: World, p: Policy, c: Conversing, id: nat, e: Election, now: nat, minted: Option<Mint>)
    ensures StepLife(w, p, c, Outcome(id, true, StewardElection(e), now, minted)).node.stewards.nextRound == c.node.stewards.nextRound
  {
    hide Replay, ValidateElection, Generate;
  }

  lemma DeadlockKeepsList(w: World, p: Policy, c: Conversing, id: nat, evidence: Evidence, now: nat,
        minted: Option<Mint>)
    requires !c.node.left && !c.node.s.queues.resolved.Has(id) && evidence.violation == Deadlock
    ensures StepLife(w, p, c, Outcome(id, true, EmergencyCriteria(Some(evidence)), now, minted)).node.stewards == c.node.stewards
  {
    hide Replay, EmergencyScoreOps;
  }

  lemma FreezeLadder(w: World, p: Policy, c: Conversing, step: LifeStep)
    requires !c.node.left && step.Freeze?
    ensures var round, round' := c.node.stewards.nextRound, StepLife(w, p, c, step).node.stewards.nextRound;
            round' == if MergesOn(w, p, c, step) then 0 else round
  {
    hide StepLife, Ready, CollectionOver, Selected;
    var Freeze(now, minted, fails) := step;
    if c.life.phase != Freezing {
      NoFreezeNoMove(w, p, c, step);
    } else if !EndsARound(w, p, c, step) {
      RoundGoesOn(w, p, c, now, minted, fails);
      MintingSameLife(w, c, minted);
    } else if fails {
      RoundThatFails(w, p, c, now, minted);
    } else if Merges(w, p, c, step) {
      RoundWithCommit(w, p, c, now, minted);
      LeavingKeepsLadder(w, p, c, now, minted);
    } else {
      RoundWithoutCommit(w, p, c, now, minted);
    }
  }

  lemma LeavingKeepsLadder(w: World, p: Policy, c: Conversing, now: nat, minted: Option<Mint>)
    requires !c.node.left && c.life.phase == Freezing
    ensures var after := StepLife(w, p, c, Freeze(now, minted, false)); after.node.left ==> after.node.stewards == c.node.stewards
  {
    hide CloseRound, Ready, CollectionOver;
    FreezeIs(w, p, c, now, minted, false);
    ReadyKeeps(w, p, c, now, minted);
    LeavingKeepsList(w, p, Ready(w, p, c, now, minted), now);
  }

  lemma LeavingKeepsList(w: World, p: Policy, c: Conversing, now: nat)
    requires !c.node.left
    ensures var after := CloseRound(w, p, c, now, false); after.node.left ==> after.node.stewards == c.node.stewards
  {
    hide FinalizeRound, Updated, Missed;
    var n, recovery := c.node, c.life.mode.Recovery?;
    var (s, r) := FinalizeRound(w, n.s, n.stewards, recovery, recovery || n.stewards.config.allowSubset, n.self);
    var scored := n.(s := s, scoring := n.scoring.Apply(r.scoreOps));
    LadderStartsOver(w, scored);
    MissedKeeps(scored);
  }

  lemma SyncLadder(w: World, n: Node, sync: Sync)
    ensures OnSync(w, n, sync).stewards.nextRound == n.stewards.nextRound
  {
    hide Adopts;
  }

  /** Over every run the retry round is the number of lists that failed since the last
      commit, as far as the counter reaches. */
  lemma {:induction false} RetryRoundCountsFailures(w: World, p: Policy, c: Conversing, steps: seq<LifeStep>)
    requires c.node.stewards.nextRound <= 0xffff_ffff
    ensures RunLife(w, p, c, steps).node.stewards.nextRound == Capped(FailedLists(w, p, c, steps))
  {
    hide StepLife, MergesOn, FailsList;
    if steps != [] {
      var rest, last := steps[..|steps| - 1], steps[|steps| - 1];
      RetryRoundCountsFailures(w, p, c, rest);
      LadderStep(w, p, RunLife(w, p, c, rest), last);
    }
  }

  // ── Who pays for a missed round ──

  lemma SeatedHasName(seats: Seats, m: Id)
    requires m in Members(seats)
    ensures m != []
  {
    hide Members;
    MembersHas(seats, m);
  }

  /** A round without a commit: beside the penalties the round itself tells, approved work
      left lying outside recovery costs the steward on duty 40, unless that is us; nobody
      else pays, and in recovery nobody does. */
  lemma MissedRoundCosts(w: World, p: Policy, c: Conversing, now: nat, minted: Option<Mint>)
    requires !c.node.left && c.life.phase == Freezing
    requires var ready := Ready(w, p, c, now, minted); CollectionOver(p, ready, now) && Selected(w, ready).1.outcome.NoCandidate?
    ensures var told := c.node.scoring.Apply(Selected(w, Ready(w, p, c, now, minted)).1.scoreOps);
            var after := StepLife(w, p, c, Freeze(now, minted, false)).node.scoring;
            && after == told.(scores := after.scores) && after.scores.Keys == told.scores.Keys
            && forall m :: m in told.scores ==>
                 if c.life.mode == Normal && c.node.s.queues.approved != []
                    && m != c.node.self && OnDuty(c.node.s.queues, c.node.s.mls.group, c.node.stewards, m)
                 then PeerScoring.MovedBy(told.overrides, CensorshipInactivity, -40, told.scores[m], after.scores[m])
                 else after.scores[m] == told.scores[m]
  {
    hide Minting, FinalizeRound, Ready, CollectionOver, CloseRound, Missed, OnDuty, PeerScoring.MovedBy;
    var ready := Ready(w, p, c, now, minted);
    FreezeIs(w, p, c, now, minted, false);
    ReadyKeeps(w, p, c, now, minted);
    var (s, r) := Selected(w, ready);
    RoundMergesBestAcceptable(w, ready.node.s, ready.node.stewards, c.life.mode == Recovery,
                              c.life.mode == Recovery || ready.node.stewards.config.allowSubset, ready.node.self);
    var scored := ready.node.(s := s, scoring := ready.node.scoring.Apply(r.scoreOps));
    MissIsClosed(w, p, ready, now);
    MissedTable(scored);
    forall m ensures OnDuty(s.queues, s.mls.group, c.node.stewards, m) == OnDuty(c.node.s.queues, c.node.s.mls.group, c.node.stewards, m) {
      DutyReadsApproved(s.queues, c.node.s.queues, s.mls.group, c.node.stewards, m);
    }
  }

  lemma MissIsClosed(w: World, p: Policy, c: Conversing, now: nat)
    requires Selected(w, c).1.outcome.NoCandidate?
    ensures var (s, r) := Selected(w, c);
            var scored := c.node.(s := s, scoring := c.node.scoring.Apply(r.scoreOps));
            CloseRound(w, p, c, now, false).node.scoring
            == if c.life.mode == Normal || scored.s.queues.approved == [] then Missed(scored).scoring else scored.scoring
  {
    hide FinalizeRound, Missed;
  }

  lemma DutyReadsApproved(q: Queues, q': Queues, g: Group, stewards: Stewards, m: Id)
    requires q.approved == q'.approved
    ensures OnDuty(q, g, stewards, m) == OnDuty(q', g, stewards, m)
  {
    hide Members;
    DutyMeaning(q, g, stewards, m);
    DutyMeaning(q', g, stewards, m);
    assert q.Eligible(g.seats) == q'.Eligible(g.seats);
  }

  lemma MissedTable(n: Node)
    ensures var after := Missed(n).scoring;
            && after == n.scoring.(scores := after.scores) && after.scores.Keys == n.scoring.scores.Keys
            && forall m :: m in n.scoring.scores ==>
                 if n.s.queues.approved != [] && m != n.self && OnDuty(n.s.queues, n.s.mls.group, n.stewards, m)
                 then PeerScoring.MovedBy(n.scoring.overrides, CensorshipInactivity, -40, n.scoring.scores[m], after.scores[m])
                 else after.scores[m] == n.scoring.scores[m]
  {
    hide OnDuty, PeerScoring.MovedBy, PeerScoring.ApplyOp, PeerScoring.FoldOps;
    var duty := n.stewards.DutySteward(n.s.mls.group.epoch, n.s.queues.Eligible(n.s.mls.group.seats));
    forall m ensures duty == Some(m) <==> OnDuty(n.s.queues, n.s.mls.group, n.stewards, m) {
      DutyMeaning(n.s.queues, n.s.mls.group, n.stewards, m);
    }
    if duty.Some? {
      OnDutyCanServe(n.s.queues, n.s.mls.group, n.stewards, duty.value);
      SeatedHasName(n.s.mls.group.seats, duty.value);
      var fine := ScoreOp(duty.value, CensorshipInactivity);
      OneOpFold(n.scoring.scores, n.scoring.overrides, fine);
      PeerScoring.EventWeights(n.scoring.scores, n.scoring.overrides, fine);
    }
  }
}
