/** What every drive does to the phase, the mode, the timers and the scores, said in terms
    of the clock, the votes and the approved queue. */
module Transitions {
  import opened ByteStrings
  import opened Protocol
  import opened CommitApply
  import opened CandidateIntake
  import opened Nodes
  import opened Lifecycle
  import opened ConversationModel

  // ── When a round ends ──

  /** The window of recovery has passed, grace included; or outside recovery every listed
      steward has a candidate in, or the freeze has lasted long enough. */
  predicate CollectionOver(p: Policy, c: Conversing, now: nat) {
    var list, since := c.node.stewards.list, c.life.anchor;
    match c.life.mode
    case Recovery =>
      since.Some? && (match p.autoCommitDelay
                      case Some(grace) => now >= since.value + grace + p.retryWindow
                      case None => now >= since.value + p.retryWindow)
    case Normal =>
      || (list.Some? && |c.node.s.queues.round.candidates| >= |list.value.members|)
      || (since.Some? && now >= since.value + p.freezeDuration)
  }

  /** The grace of recovery has passed and we hold no candidate of our own. */
  predicate MintsLate(p: Policy, c: Conversing, now: nat) {
    && c.life.mode == Recovery && p.autoCommitDelay.Some? && c.life.anchor.Some?
    && now >= c.life.anchor.value + p.autoCommitDelay.value
    && forall b | b in c.node.s.queues.round.candidates :: !b.isLocal
  }

  /** The conversation a round ends over. */
  function Ready(w: World, p: Policy, c: Conversing, now: nat, minted: Option<Mint>): (r: Conversing) {
    if MintsLate(p, c, now) then Minting(w, c, minted) else c
  }

  /** Selection in recovery takes subsets, from anybody. */
  function Selected(w: World, c: Conversing): (r: (RoundState, RoundResult)) {
    var n, recovery := c.node, c.life.mode == Recovery;
    FinalizeRound(w, n.s, n.stewards, recovery, recovery || n.stewards.config.allowSubset, n.self)
  }

  lemma AutoCommitIsLate(w: World, p: Policy, c: Conversing, now: nat, minted: Option<Mint>)
    ensures AutoCommit(w, p, c, now, minted) == Ready(w, p, c, now, minted)
    ensures RoundDue(p, c, now) == CollectionOver(p, c, now)
  {
    hide Minting;
  }

  lemma FreezeIs(w: World, p: Policy, c: Conversing, now: nat, minted: Option<Mint>, fails: bool)
    requires !c.node.left && c.life.phase.Freezing?
    ensures var ready, after := Ready(w, p, c, now, minted), StepLife(w, p, c, Freeze(now, minted, fails));
            after == if CollectionOver(p, ready, now) then CloseRound(w, p, ready, now, fails) else ready
  {
    hide Minting, CloseRound, AutoCommit, RoundDue, CollectionOver, Ready;
    AutoCommitIsLate(w, p, c, now, minted);
    AutoCommitIsLate(w, p, Ready(w, p, c, now, minted), now, minted);
  }

  lemma ReadyKeeps(w: World, p: Policy, c: Conversing, now: nat, minted: Option<Mint>)
    ensures var ready := Ready(w, p, c, now, minted);
            && ready.life == c.life && ready.node.left == c.node.left && ready.node.stewards == c.node.stewards
            && ready.node.s.queues.approved == c.node.s.queues.approved && ready.node.scoring == c.node.scoring
            && ready.node.self == c.node.self && ready.node.s.mls.group == c.node.s.mls.group
            && (c.life.mode == Normal ==> ready == c)
  {
    hide BuildLocal;
    MintTouches(w, c.life.mode.Recovery?, c.node, minted);
  }

  lemma MintTouches(w: World, recovery: bool, n: Node, minted: Option<Mint>)
    ensures var s' := BuildLocal(w, recovery, n.kMax, n.s, n.stewards, n.self, minted).0;
            s'.mls.group == n.s.mls.group && s'.queues == n.s.queues.(round := s'.queues.round)
  {
    hide MintInputs;
  }

  /** Until its window has passed a round goes on: all that may happen is a late mint. */
  lemma RoundGoesOn(w: World, p: Policy, c: Conversing, now: nat, minted: Option<Mint>, fails: bool)
    requires !c.node.left && c.life.phase.Freezing? && !CollectionOver(p, Ready(w, p, c, now, minted), now)
    ensures StepLife(w, p, c, Freeze(now, minted, fails)) == if MintsLate(p, c, now) then Minting(w, c, minted) else c
  {
    hide Minting, CloseRound, CollectionOver, MintsLate;
    FreezeIs(w, p, c, now, minted, fails);
  }

  /** The phase and the counters after a round that brought no commit, whether nothing was
      acceptable or finalizing failed. */
  ghost predicate Unsettled(p: Policy, before: Life, idle: bool, failed: bool, now: nat, after: Life) {
    if before.mode == Recovery && (failed || !idle) then
      && after.rounds == before.rounds + 1
      && if p.recoveryMaxRounds > 0 && before.rounds + 1 >= p.recoveryMaxRounds
         then after.phase == Working && after.mode == Normal && after.anchor == None && after.exhausted == before.exhausted + 1
         else after.phase == Freezing && after.mode == Recovery && after.anchor == Some(now) && after.exhausted == before.exhausted
    else
      && after.rounds == before.rounds && after.exhausted == before.exhausted
      && after.mode == Normal && after.anchor == None
      && after.phase == if failed || idle then Working else Reelection
  }

  /** A round that ends without a commit: with nothing approved it is back to work; with
      approved work it is reelection, or in recovery another round, timed from now, until
      the stop-line gives up. */
  lemma RoundWithoutCommit(w: World, p: Policy, c: Conversing, now: nat, minted: Option<Mint>)
    requires !c.node.left && c.life.phase.Freezing?
    requires var ready := Ready(w, p, c, now, minted); CollectionOver(p, ready, now) && Selected(w, ready).1.outcome.NoCandidate?
    ensures var ready, after := Ready(w, p, c, now, minted), StepLife(w, p, c, Freeze(now, minted, false));
            && Unsettled(p, c.life, c.node.s.queues.approved == [], false, now, after.life)
            && !after.node.left && after.node.s.mls.group == c.node.s.mls.group
            && after.node.s.queues.approved == c.node.s.queues.approved && after.node.stewards == c.node.stewards
            && (c.node.s.queues.approved == [] ==> after.node.s.queues.round.candidates == [])
  {
    hide Minting, FinalizeRound, Ready, CollectionOver, CloseRound;
    var ready := Ready(w, p, c, now, minted);
    FreezeIs(w, p, c, now, minted, false);
    ReadyKeeps(w, p, c, now, minted);
    MissedRound(w, p, ready, now);
  }

  lemma MissedRound(w: World, p: Policy, c: Conversing, now: nat)
    requires !c.node.left && c.life.phase.Freezing? && Selected(w, c).1.outcome.NoCandidate?
    ensures var after := CloseRound(w, p, c, now, false);
            && Unsettled(p, c.life, c.node.s.queues.approved == [], false, now, after.life)
            && !after.node.left && after.node.s.mls.group == c.node.s.mls.group
            && after.node.s.queues.approved == c.node.s.queues.approved && after.node.stewards == c.node.stewards
            && (c.node.s.queues.approved == [] ==> after.node.s.queues.round.candidates == [])
  {
    hide FinalizeRound;
    var n, recovery := c.node, c.life.mode == Recovery;
    RoundMergesBestAcceptable(w, n.s, n.stewards, recovery, recovery || n.stewards.config.allowSubset, n.self);
  }

  /** A round that merges a commit ends recovery. The member is told to leave and rests in
      selection, or works on with the retry ladder back at its start. */
  lemma RoundWithCommit(w: World, p: Policy, c: Conversing, now: nat, minted: Option<Mint>)
    requires !c.node.left && c.life.phase.Freezing?
    requires var ready := Ready(w, p, c, now, minted); CollectionOver(p, ready, now) && Selected(w, ready).1.outcome.Applied?
    ensures var ready, after := Ready(w, p, c, now, minted), StepLife(w, p, c, Freeze(now, minted, false));
            && after.life.mode == Normal && after.life.rounds == c.life.rounds && after.life.exhausted == c.life.exhausted
            && after.node.s.mls.group == Selected(w, ready).0.mls.group
            && if Selected(w, ready).1.outcome.leave
               then after.node.left && after.life.phase == Selection
               else !after.node.left && after.life.phase == Working && after.life.anchor == None && !after.life.recovered
                    && after.node.stewards.nextRound == 0
  {
    hide Minting, FinalizeRound, Ready, CollectionOver, Updated;
    FreezeIs(w, p, c, now, minted, false);
    ReadyKeeps(w, p, c, now, minted);
    var ready := Ready(w, p, c, now, minted);
    var (s, r) := Selected(w, ready);
    LadderStartsOver(w, ready.node.(s := s, scoring := ready.node.scoring.Apply(r.scoreOps)));
  }

  lemma LadderStartsOver(w: World, n: Node)
    ensures Updated(w, n).stewards.nextRound == 0 && Updated(w, n).left == n.left && Updated(w, n).s.mls == n.s.mls
  {
    hide RescoreMembers;
  }

  /** A round whose finalization fails costs the buffered candidates and blames nobody. */
  lemma RoundThatFails(w: World, p: Policy, c: Conversing, now: nat, minted: Option<Mint>)
    requires !c.node.left && c.life.phase.Freezing? && CollectionOver(p, Ready(w, p, c, now, minted), now)
    ensures var after := StepLife(w, p, c, Freeze(now, minted, true));
            && Unsettled(p, c.life, c.node.s.queues.approved == [], true, now, after.life)
            && !after.node.left && after.node.s.mls.group == c.node.s.mls.group
            && after.node.s.queues.approved == c.node.s.queues.approved && after.node.stewards == c.node.stewards
            && after.node.scoring == c.node.scoring && after.node.s.queues.round.For(c.node.s.mls.group.epoch) == []
  {
    hide Minting, Ready, CollectionOver;
    FreezeIs(w, p, c, now, minted, true);
    ReadyKeeps(w, p, c, now, minted);
  }
}
