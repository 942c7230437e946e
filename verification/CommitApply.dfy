/** The apply loop and the end of a round: walk the ranked candidates best-first,
    merge the first that applies, do the bookkeeping and the scoring. */
module CommitApply {
  import opened ByteStrings
  import opened Sorting
  import opened Protocol
  import opened MlsGroup
  import opened StewardLists
  import opened CommitBuffer
  import opened Queues
  import opened Consensus
  import opened CommitValidation

  datatype RoundOutcome = Applied(leave: bool) | NoCandidate

  datatype RoundResult = RoundResult(outcome: RoundOutcome, scoreOps: seq<ScoreOp>, batch: seq<Request>)

  /** Everything a round may change. */
  datatype RoundState = RoundState(mls: Mls, queues: Queues)

  // ── What the round decides ──

  /** Our own candidate is never validated; a peer's always is. */
  function VerdictOn(w: World, s: RoundState, stewards: Stewards, ctx: Context, self: Id, c: Buffered): (v: Verdict) {
    if c.isLocal then Accept(c.msg.steward, s.mls.own, ctx.selfRemovePending)
    else JudgeRemote(w, s.mls.group, s.queues.approved, stewards, ctx.inRecovery, self, c.msg)
  }

  function Verdicts(w: World, s: RoundState, stewards: Stewards, ctx: Context, self: Id,
        sorted: seq<Buffered>): (vs: seq<Verdict>)
    ensures |vs| == |sorted| && forall i :: 0 <= i < |sorted| ==> vs[i] == VerdictOn(w, s, stewards, ctx, self, sorted[i])
  {
    MapSeq((c: Buffered) => VerdictOn(w, s, stewards, ctx, self, c), sorted)
  }

  /** Index of the first accepted candidate, or the length. */
  function FirstAccepted(vs: seq<Verdict>): (i: nat)
    ensures i <= |vs|
    ensures forall j :: 0 <= j < i ==> vs[j].Reject?
    ensures i < |vs| ==> vs[i].Accept?
  {
    if vs == [] || vs[0].Accept? then 0 else 1 + FirstAccepted(vs[1..])
  }

  function Penalties(vs: seq<Verdict>): (ops: seq<ScoreOp>) {
    if vs == [] then []
    else
      var last := vs[|vs| - 1];
      Penalties(vs[..|vs| - 1]) + if last.Reject? then last.penalties else []
  }

  function LoserScores(stewards: Stewards, losers: seq<Buffered>): (ops: seq<ScoreOp>)
    ensures |ops| == |losers|
    ensures forall i :: 0 <= i < |losers| ==> ops[i] == LoserScore(stewards, losers[i].msg.steward)
  {
    MapSeq((c: Buffered) => LoserScore(stewards, c.msg.steward), losers)
  }

  function LoserScore(stewards: Stewards, claimed: Id): (op: ScoreOp) {
    ScoreOp(claimed, if stewards.IsSteward(claimed) then HonestCommitAttempt else MisbehavingCommit)
  }

  /** The reward of the committer, the fine of an expected steward who stayed away,
      and a note on everyone who was ranked behind the winner. */
  function WinnerScores(stewards: Stewards, ctx: Context, self: Id, committer: Id,
        losers: seq<Buffered>): (ops: seq<ScoreOp>) {
    [ScoreOp(committer, SuccessfulCommit)]
    + (match ctx.epochSteward
       case Some(expected) => if expected != committer && expected != self then [ScoreOp(expected, CensorshipInactivity)] else []
       case None => [])
    + LoserScores(stewards, losers)
  }

  // ── What a merge does ──

  function Merged(g: Group, commit: Option<Pending>): (r: Group) {
    match commit case Some(p) => Merge(g, p.commit, p.actions) case None => g
  }

  function MergedDelta(g: Group, commit: Option<Pending>): (d: Delta) {
    match commit case Some(p) => DeltaOf(g.seats, p.actions) case None => Delta(map[], map[])
  }

  /** Post-commit bookkeeping; an urgent commit clears only its target's entry. */
  function FinalizeBatch(q: Queues, hash: Bytes, epoch: nat): (r: (Queues, seq<Request>)) {
    var stamped := q.(committed := q.committed.Insert(hash)).Bookkept(epoch);
    match stamped.urgent
    case Some(target) => (stamped.(urgent := None).DropRemovals({target}), [])
    case None => (stamped.(approved := []), Requests(stamped.approved))
  }

  function AfterMerge(s: RoundState, commit: Option<Pending>, hash: Bytes, epoch: nat): (r: (RoundState,
        seq<Request>)) {
    var (q, batch) := FinalizeBatch(s.queues.(delta := Some(MergedDelta(s.mls.group, commit))), hash, epoch + 1);
    (RoundState(Mls(Merged(s.mls.group, commit), None, None), q), batch)
  }

  /** The round after ranking: the first accepted candidate merges; without one
      nothing changes but our own pending commit, which is dropped. */
  function Settle(w: World, s: RoundState, stewards: Stewards, ctx: Context, self: Id,
        sorted: seq<Buffered>): (r: (RoundState, RoundResult)) {
    var vs := Verdicts(w, s, stewards, ctx, self, sorted);
    var i := FirstAccepted(vs);
    if i == |sorted| then (s.(mls := s.mls.(own := None)), RoundResult(NoCandidate, Penalties(vs), []))
    else
      var (after, batch) := AfterMerge(s, vs[i].commit, sorted[i].hash, ctx.epoch);
      (after, RoundResult(Applied(vs[i].leave),
                          Penalties(vs[..i]) + WinnerScores(stewards, ctx, self, vs[i].committer, sorted[i + 1..]),
                          batch))
  }

  function FinalizeRound(w: World, s: RoundState, stewards: Stewards, inRecovery: bool, allowSubset: bool,
        self: Id): (r: (RoundState, RoundResult)) {
    var taken := s.(queues := s.queues.(round := s.queues.round.Take(s.mls.group.epoch)));
    var ctx := Snapshot(taken.queues, s.mls.group, stewards, inRecovery, self);
    Settle(w, taken, stewards, ctx, self, Rank(s.queues.round.For(s.mls.group.epoch), ctx, allowSubset))
  }

  // ── The code ──

  /** Post-commit bookkeeping on the queues. */
  method FinalizeCommittedBatch(conversation: ConversationQueues, hash: Bytes, epoch: nat) returns (batch: seq<Request>)
    modifies conversation
    ensures (conversation.Value(), batch) == FinalizeBatch(old(conversation.Value()), hash, epoch)
  {
    conversation.InsertCommittedHash(hash);
    conversation.ApplyMembershipDeltaBookkeeping(epoch);
    var urgent := conversation.TakeUrgentCommitTarget();
    if urgent.Some? {
      conversation.DropApprovedRemovalsFor(urgent.value);
      batch := [];
    } else {
      batch := conversation.DrainApprovedProposals();
    }
  }

  method RecordWinnerScores(ops: seq<ScoreOp>, stewardList: StewardListService, ctx: Context, self: Id,
        committer: Id, losers: seq<Buffered>)
    returns (r: seq<ScoreOp>)
    ensures r == ops + WinnerScores(stewardList.State(), ctx, self, committer, losers)
  {
    r := ops + [ScoreOp(committer, SuccessfulCommit)];
    if ctx.epochSteward.Some? && ctx.epochSteward.value != committer && ctx.epochSteward.value != self {
      r := r + [ScoreOp(ctx.epochSteward.value, CensorshipInactivity)];
    }
    var noted := NoteLosers(stewardList, losers);
    r := r + noted;
  }

  /** Competitors that were not picked are honest if listed, misbehaving if not. */
  method NoteLosers(stewardList: StewardListService, losers: seq<Buffered>) returns (ops: seq<ScoreOp>)
    ensures ops == LoserScores(stewardList.State(), losers)
  {
    ops := [];
    for i := 0 to |losers|
      invariant |ops| == i && forall k :: 0 <= k < i ==> ops[k] == LoserScore(stewardList.State(), losers[k].msg.steward)
    {
      var claimed := losers[i].msg.steward;
      if stewardList.State().IsSteward(claimed) {
        ops := ops + [ScoreOp(claimed, HonestCommitAttempt)];
      } else {
        ops := ops + [ScoreOp(claimed, MisbehavingCommit)];
      }
    }
  }

  /** Merge our own commit. It was validated when it was minted. */
  method ApplyLocalCandidate(conversation: ConversationQueues, mls: MlsService, chosen: Buffered, ctx: Context)
    returns (v: Verdict, batch: seq<Request>)
    requires mls.staged.None?
    modifies conversation, mls
    ensures v == Accept(chosen.msg.steward, old(mls.own), ctx.selfRemovePending)
    ensures (RoundState(mls.State(), conversation.Value()), batch)
         == AfterMerge(old(RoundState(mls.State(), conversation.Value())), old(mls.own), chosen.hash, ctx.epoch)
  {
    v := Accept(chosen.msg.steward, mls.own, ctx.selfRemovePending);
    var delta := mls.MergeOwnCommit();
    conversation.StoreMembershipDelta(delta);
    batch := FinalizeCommittedBatch(conversation, chosen.hash, ctx.epoch + 1);
  }

  /** Stage, authorize and match a peer's candidate; merge it if all three pass. A
      rejected candidate leaves the group, our own commit and the queues alone. */
  method ApplyIncomingCandidate(w: World, conversation: ConversationQueues, mls: MlsService,
        stewardList: StewardListService,
                                chosen: Buffered, ctx: Context, self: Id)
    returns (v: Verdict, batch: seq<Request>)
    requires mls.staged.None?
    modifies conversation, mls
    ensures v == JudgeRemote(w, old(mls.group), old(conversation.approvedProposals), stewardList.State(), ctx.inRecovery, self, chosen.msg)
    ensures v.Reject? ==> mls.State() == old(mls.State()) && conversation.Value() == old(conversation.Value())
    ensures v.Accept? ==>
              (RoundState(mls.State(), conversation.Value()), batch)
              == AfterMerge(old(RoundState(mls.State(), conversation.Value())), v.commit, chosen.hash, ctx.epoch)
  {
    hide JudgeRemote, Stage, FinalizeBatch;
    batch := [];
    var staged := mls.StageRemoteCommit(w, chosen.msg.proposals, chosen.msg.commit);
    v := Check(w, staged, conversation.approvedProposals, stewardList, ctx, self, chosen.msg);
    if v.Reject? {
      mls.DiscardStagedCommit();
      return;
    }
    mls.DiscardOwnCommit();
    var delta := mls.MergeStagedCommit();
    conversation.StoreMembershipDelta(delta);
    batch := FinalizeCommittedBatch(conversation, chosen.hash, ctx.epoch + 1);
  }

  /** The ladder behind staging. */
  method Check(w: World, staged: StageResult, approved: seq<Approval>, stewardList: StewardListService,
        ctx: Context, self: Id, c: Candidate)
    returns (v: Verdict)
    ensures forall g :: staged == Stage(w, g, c.proposals, c.commit)
              ==> v == JudgeRemote(w, g, approved, stewardList.State(), ctx.inRecovery, self, c)
    ensures v.Accept? ==> staged.Staged? && v.commit == Some(Pending(c.commit, staged.actions))
  {
    match staged
    case Failed => return Reject([]);
    case Aborted => return Reject([]);
    case BundleSenderMismatch(sender) => return Reject(TargetScoreOps(BrokenCommitViolation, sender));
    case Staged(committer, actions) =>
      if c.steward != committer {
        return Reject(TargetScoreOps(BrokenCommitViolation, committer));
      }
      if !Authorized(stewardList.State(), committer, ctx.inRecovery) {
        return Reject(TargetScoreOps(MisbehavingCommitViolation, committer));
      }
      if ActionSet(actions) != ApprovedActions(w, approved) {
        return Reject(TargetScoreOps(BrokenMlsProposalViolation, committer));
      }
      return Accept(committer, Some(Pending(c.commit, actions)), Remove(self) in actions);
  }

  /** One turn of the apply loop. */
  method TryCandidate(w: World, conversation: ConversationQueues, mls: MlsService, stewardList: StewardListService,
                      chosen: Buffered, ctx: Context, self: Id)
    returns (v: Verdict, batch: seq<Request>)
    requires mls.staged.None?
    modifies conversation, mls
    ensures v == VerdictOn(w, old(RoundState(mls.State(), conversation.Value())), stewardList.State(), ctx, self, chosen)
    ensures v.Reject? ==> mls.State() == old(mls.State()) && conversation.Value() == old(conversation.Value())
    ensures v.Accept? ==>
              (RoundState(mls.State(), conversation.Value()), batch)
              == AfterMerge(old(RoundState(mls.State(), conversation.Value())), v.commit, chosen.hash, ctx.epoch)
  {
    if chosen.isLocal {
      v, batch := ApplyLocalCandidate(conversation, mls, chosen, ctx);
    } else {
      v, batch := ApplyIncomingCandidate(w, conversation, mls, stewardList, chosen, ctx, self);
    }
  }

  lemma {:induction false} FirstAcceptedIs(vs: seq<Verdict>, i: nat)
    requires i <= |vs| && forall j :: 0 <= j < i ==> vs[j].Reject?
    requires i < |vs| ==> vs[i].Accept?
    ensures FirstAccepted(vs) == i
  {
    if vs != [] && vs[0].Reject? {
      FirstAcceptedIs(vs[1..], i - 1);
    }
  }

  lemma SettleAt(w: World, s: RoundState, stewards: Stewards, ctx: Context, self: Id, sorted: seq<Buffered>, i: nat)
    requires i <= |sorted| && forall j :: 0 <= j < i ==> VerdictOn(w, s, stewards, ctx, self, sorted[j]).Reject?
    requires i < |sorted| ==> VerdictOn(w, s, stewards, ctx, self, sorted[i]).Accept?
    ensures var vs := Verdicts(w, s, stewards, ctx, self, sorted);
            Settle(w, s, stewards, ctx, self, sorted) ==
            if i == |sorted| then (s.(mls := s.mls.(own := None)), RoundResult(NoCandidate, Penalties(vs[..i]), []))
            else (AfterMerge(s, vs[i].commit, sorted[i].hash, ctx.epoch).0,
                  RoundResult(Applied(vs[i].leave),
                              Penalties(vs[..i]) + WinnerScores(stewards, ctx, self, vs[i].committer, sorted[i + 1..]),
                              AfterMerge(s, vs[i].commit, sorted[i].hash, ctx.epoch).1))
  {
    var vs := Verdicts(w, s, stewards, ctx, self, sorted);
    FirstAcceptedIs(vs, i);
    assert vs[..|vs|] == vs;
  }

  lemma PenaltiesStep(vs: seq<Verdict>, i: nat)
    requires i < |vs| && vs[i].Reject?
    ensures Penalties(vs[..i + 1]) == Penalties(vs[..i]) + vs[i].penalties
  {
    assert vs[..i + 1][..i] == vs[..i];
  }

  /** Walk `sorted` best-first, collecting penalties, up to the first candidate that
      applies. */
  method TryInPriorityOrder(w: World, conversation: ConversationQueues, mls: MlsService,
        stewardList: StewardListService,
                            sorted: seq<Buffered>, ctx: Context, self: Id)
    returns (next: nat, v: Verdict, batch: seq<Request>, ops: seq<ScoreOp>)
    requires mls.staged.None?
    modifies conversation, mls
    ensures next <= |sorted|
    ensures forall j :: 0 <= j < next ==> VerdictOn(w, old(RoundState(mls.State(), conversation.Value())), stewardList.State(), ctx, self, sorted[j]).Reject?
    ensures ops == Penalties(Verdicts(w, old(RoundState(mls.State(), conversation.Value())), stewardList.State(), ctx, self, sorted)[..next])
    ensures next == |sorted| ==> mls.State() == old(mls.State()) && conversation.Value() == old(conversation.Value())
    ensures next < |sorted| ==>
              && v.Accept?
              && v == VerdictOn(w, old(RoundState(mls.State(), conversation.Value())), stewardList.State(), ctx, self, sorted[next])
              && (RoundState(mls.State(), conversation.Value()), batch)
                 == AfterMerge(old(RoundState(mls.State(), conversation.Value())), v.commit, sorted[next].hash, ctx.epoch)
  {
    hide VerdictOn, AfterMerge;
    ghost var s, stewards := RoundState(mls.State(), conversation.Value()), stewardList.State();
    ghost var vs := Verdicts(w, s, stewards, ctx, self, sorted);
    next, v, batch, ops := 0, Reject([]), [], [];
    while next < |sorted|
      invariant next <= |sorted|
      invariant mls.State() == s.mls && conversation.Value() == s.queues && stewardList.State() == stewards
      invariant forall j :: 0 <= j < next ==> VerdictOn(w, s, stewards, ctx, self, sorted[j]).Reject?
      invariant ops == Penalties(vs[..next])
    {
      v, batch := TryCandidate(w, conversation, mls, stewardList, sorted[next], ctx, self);
      if v.Accept? {
        return;
      }
      PenaltiesStep(vs, next);
      ops := ops + v.penalties;
      next := next + 1;
    }
  }

  /** The first candidate that applies wins the round. */
  method ApplyInPriorityOrder(w: World, conversation: ConversationQueues, mls: MlsService,
        stewardList: StewardListService,
                              sorted: seq<Buffered>, ctx: Context, self: Id)
    returns (r: RoundResult)
    requires mls.staged.None?
    modifies conversation, mls
    ensures (RoundState(mls.State(), conversation.Value()), r)
         == Settle(w, old(RoundState(mls.State(), conversation.Value())), stewardList.State(), ctx, self, sorted)
  {
    ghost var s := RoundState(mls.State(), conversation.Value());
    var next, v, batch, ops := TryInPriorityOrder(w, conversation, mls, stewardList, sorted, ctx, self);
    SettleAt(w, s, stewardList.State(), ctx, self, sorted, next);
    if next < |sorted| {
      ops := RecordWinnerScores(ops, stewardList, ctx, self, v.committer, sorted[next + 1..]);
      return RoundResult(Applied(v.leave), ops, batch);
    }
    mls.DiscardOwnCommit();
    return RoundResult(NoCandidate, ops, []);
  }

  /** End of the round: take the candidates, rank them, apply best-first. */
  method FinalizeCommitRound(w: World, conversation: ConversationQueues, mls: MlsService,
        stewardList: StewardListService,
                             inRecovery: bool, allowSubset: bool, self: Id)
    returns (r: RoundResult)
    requires mls.staged.None?
    modifies conversation, conversation.commitRound, mls
    ensures (RoundState(mls.State(), conversation.Value()), r)
         == FinalizeRound(w, old(RoundState(mls.State(), conversation.Value())), stewardList.State(), inRecovery, allowSubset, self)
  {
    var epoch := mls.group.epoch;
    var candidates := conversation.commitRound.Take(epoch);
    if candidates == [] {
      mls.DiscardOwnCommit();
      return RoundResult(NoCandidate, [], []);
    }
    var ctx := Snapshot(conversation.Value(), mls.group, stewardList.State(), inRecovery, self);
    var sorted := Rank(candidates, ctx, allowSubset);
    if sorted == [] {
      mls.DiscardOwnCommit();
      return RoundResult(NoCandidate, [], []);
    }
    r := ApplyInPriorityOrder(w, conversation, mls, stewardList, sorted, ctx, self);
  }

  /** The batch handed out for history never names a removal the commit carried out, so
      it is the whole approved queue exactly if the commit carried out none of it. */
  lemma BatchOmitsRemovals(q: Queues, seats: Seats, actions: seq<Action>, hash: Bytes, epoch: nat)
    requires q.urgent.None?
    ensures var batch := FinalizeBatch(q.(delta := Some(DeltaOf(seats, actions))), hash, epoch).1;
            && (forall id :: id in SeatIds(seats) && Remove(id) in actions ==> RemoveMember(id) !in batch)
            && (batch == Requests(q.approved)
                <==> forall id :: id in SeatIds(seats) && Remove(id) in actions ==> !q.HasApprovedRemoval(id))
  {
    hide ApplyActions, SeatIds, RemovedMembersOf;
    var d := DeltaOf(seats, actions);
    var gone := SeatIds(d.removed);
    var kept := Keep(Survives(gone), q.approved);
    RemovedIds(seats, actions);
    assert forall id :: id in gone <==> id in SeatIds(seats) && Remove(id) in actions;
    KeepLength(Survives(gone), q.approved);
    forall id | id in gone ensures RemoveMember(id) !in Requests(kept) {
      if RemoveMember(id) in Requests(kept) {
        var i :| 0 <= i < |kept| && Requests(kept)[i] == RemoveMember(id);
        KeepMembers(Survives(gone), q.approved, kept[i]);
        assert false;
      }
    }
    if forall a :: a in q.approved ==> Survives(gone)(a) {
      KeepAll(Survives(gone), q.approved);
    } else {
      assert |Requests(kept)| == |kept| < |q.approved| == |Requests(q.approved)|;
      var a :| a in q.approved && !Survives(gone)(a);
      assert q.HasApprovedRemoval(a.request.target);
    }
  }

  // ── What it means ──

  /** Our own buffered candidate is the commit waiting in our own slot: self's commit
      of changes that are all approved, one proposal per change. */
  ghost predicate LocalOk(w: World, s: RoundState, self: Id) {
    forall c :: c in s.queues.round.For(s.mls.group.epoch) && c.isLocal ==> IsOwn(w, s, self, c)
  }

  ghost predicate IsOwn(w: World, s: RoundState, self: Id, c: Buffered) {
    && s.mls.own.Some?
    && s.mls.own.value.commit == c.msg.commit
    && c.msg.steward == self
    && Stage(w, s.mls.group, c.msg.proposals, c.msg.commit) == Staged(self, s.mls.own.value.actions)
    && |c.msg.proposals| == |s.mls.own.value.actions|
    && ActionSet(s.mls.own.value.actions) <= ApprovedActions(w, s.queues.approved)
  }

  /** `c` is acceptable and ranks before every other acceptable candidate. */
  ghost predicate Wins(w: World, s: RoundState, stewards: Stewards, ctx: Context, self: Id, pool: set<Buffered>,
        c: Buffered) {
    && c in pool && VerdictOn(w, s, stewards, ctx, self, c).Accept?
    && forall d :: d in pool && VerdictOn(w, s, stewards, ctx, self, d).Accept? ==> Priority(ctx.epochSteward)(c, d)
  }

  /** The candidates a round ranks. */
  ghost function Pool(s: RoundState, ctx: Context, allowSubset: bool): (r: set<Buffered>) {
    set c | c in s.queues.round.For(s.mls.group.epoch) && Applicable(ctx.mlsCount, allowSubset)(c)
  }

  lemma FirstOfSortedWins(w: World, s: RoundState, stewards: Stewards, ctx: Context, self: Id,
        sorted: seq<Buffered>, pool: set<Buffered>, i: nat)
    requires SortedBy(Priority(ctx.epochSteward), sorted) && forall c :: c in sorted <==> c in pool
    requires i < |sorted| && VerdictOn(w, s, stewards, ctx, self, sorted[i]).Accept?
    requires forall j :: 0 <= j < i ==> VerdictOn(w, s, stewards, ctx, self, sorted[j]).Reject?
    ensures Wins(w, s, stewards, ctx, self, pool, sorted[i])
  {
    PriorityIsPreorder(ctx.epochSteward);
    assert sorted[i] in sorted;
    forall d | d in pool && VerdictOn(w, s, stewards, ctx, self, d).Accept? ensures Priority(ctx.epochSteward)(sorted[i], d) {
      assert d in sorted;
      var k :| 0 <= k < |sorted| && sorted[k] == d;
    }
  }

  lemma RankIsSortedPool(s: RoundState, ctx: Context, allowSubset: bool)
    ensures var sorted := Rank(s.queues.round.For(s.mls.group.epoch), ctx, allowSubset);
            SortedBy(Priority(ctx.epochSteward), sorted) && forall c :: c in sorted <==> c in Pool(s, ctx, allowSubset)
  {
    var candidates := s.queues.round.For(s.mls.group.epoch);
    PriorityIsPreorder(ctx.epochSteward);
    SortBySorted(Priority(ctx.epochSteward), Keep(Applicable(ctx.mlsCount, allowSubset), candidates));
    forall c ensures c in Rank(candidates, ctx, allowSubset) <==> c in Pool(s, ctx, allowSubset) {
      RankHas(candidates, ctx, allowSubset, c);
    }
  }

  /** A round merges the best acceptable candidate whenever one exists: everything
      that ranks before it was unacceptable. Otherwise the group stays put. */
  lemma RoundMergesBestAcceptable(w: World, s: RoundState, stewards: Stewards, inRecovery: bool,
        allowSubset: bool, self: Id)
    ensures var (after, r) := FinalizeRound(w, s, stewards, inRecovery, allowSubset, self);
            var ctx := Snapshot(s.queues, s.mls.group, stewards, inRecovery, self);
            var pool := Pool(s, ctx, allowSubset);
            && (r.outcome.NoCandidate? <==> forall c :: c in pool ==> VerdictOn(w, s, stewards, ctx, self, c).Reject?)
            && (r.outcome.NoCandidate? ==> after.mls.group == s.mls.group && after.queues.approved == s.queues.approved)
            && (r.outcome.Applied? ==>
                  exists c :: Wins(w, s, stewards, ctx, self, pool, c)
                    && after.mls.group == Merged(s.mls.group, VerdictOn(w, s, stewards, ctx, self, c).commit))
  {
    hide JudgeRemote, FinalizeBatch;
    var ctx := Snapshot(s.queues, s.mls.group, stewards, inRecovery, self);
    var taken := s.(queues := s.queues.(round := s.queues.round.Take(s.mls.group.epoch)));
    var sorted := Rank(s.queues.round.For(s.mls.group.epoch), ctx, allowSubset);
    var pool := Pool(s, ctx, allowSubset);
    var vs := Verdicts(w, taken, stewards, ctx, self, sorted);
    var i := FirstAccepted(vs);
    SnapshotIgnoresRound(s.queues, taken.queues, s.mls.group, stewards, inRecovery, self);
    RankIsSortedPool(s, ctx, allowSubset);
    forall j | 0 <= j < |sorted| ensures vs[j] == VerdictOn(w, s, stewards, ctx, self, sorted[j]) {}
    if i < |sorted| {
      FirstOfSortedWins(w, s, stewards, ctx, self, sorted, pool, i);
    } else {
      forall c | c in pool ensures VerdictOn(w, s, stewards, ctx, self, c).Reject? {
        assert c in sorted;
        var k :| 0 <= k < |sorted| && sorted[k] == c;
      }
    }
  }

  lemma AfterMergeSlots(s: RoundState, commit: Option<Pending>, hash: Bytes, epoch: nat)
    ensures var after := AfterMerge(s, commit, hash, epoch).0;
            && after.mls == Mls(Merged(s.mls.group, commit), None, None)
            && after.queues.round == s.queues.round && after.queues.early == s.queues.early
            && after.queues.committed == s.queues.committed.Insert(hash)
            && after.queues.resolved == s.queues.resolved && after.queues.urgent.None?
  {}

  lemma AcceptedCommits(w: World, s: RoundState, stewards: Stewards, ctx: Context, self: Id, c: Buffered)
    requires c.isLocal ==> s.mls.own.Some?
    ensures var v := VerdictOn(w, s, stewards, ctx, self, c);
            v.Accept? ==> v.commit.Some?
  {}

  lemma SettleEmptiesSlots(w: World, s: RoundState, stewards: Stewards, ctx: Context, self: Id, sorted: seq<Buffered>)
    requires s.mls.staged.None? && ctx.epoch == s.mls.group.epoch
    requires forall c :: c in sorted && c.isLocal ==> s.mls.own.Some?
    ensures var (after, r) := Settle(w, s, stewards, ctx, self, sorted);
            && after.mls.own.None? && after.mls.staged.None?
            && after.mls.group.epoch == s.mls.group.epoch + (if r.outcome.Applied? then 1 else 0)
            && after.queues.round == s.queues.round
            && (r.outcome.Applied? ==> sorted != [])
  {
    hide VerdictOn, FinalizeBatch;
    var vs := Verdicts(w, s, stewards, ctx, self, sorted);
    var i := FirstAccepted(vs);
    if i < |sorted| {
      assert sorted[i] in sorted;
      assert vs[i] == VerdictOn(w, s, stewards, ctx, self, sorted[i]);
      AcceptedCommits(w, s, stewards, ctx, self, sorted[i]);
      AfterMergeSlots(s, vs[i].commit, sorted[i].hash, ctx.epoch);
    }
  }

  /** Once a round is over both commit slots and the buffer are empty, and the epoch
      has moved by one exactly if a commit was applied. */
  lemma RoundEmptiesSlots(w: World, s: RoundState, stewards: Stewards, inRecovery: bool, allowSubset: bool, self: Id)
    requires s.mls.staged.None? && LocalOk(w, s, self)
    ensures var (after, r) := FinalizeRound(w, s, stewards, inRecovery, allowSubset, self);
            && after.mls.own.None? && after.mls.staged.None?
            && after.mls.group.epoch == s.mls.group.epoch + (if r.outcome.Applied? then 1 else 0)
            && after.queues.round.For(after.mls.group.epoch) == []
  {
    hide JudgeRemote, Settle;
    var taken := s.(queues := s.queues.(round := s.queues.round.Take(s.mls.group.epoch)));
    var ctx := Snapshot(taken.queues, s.mls.group, stewards, inRecovery, self);
    var sorted := Rank(s.queues.round.For(s.mls.group.epoch), ctx, allowSubset);
    RankIsSortedPool(s, ctx, allowSubset);
    SettleEmptiesSlots(w, taken, stewards, ctx, self, sorted);
  }

  lemma SnapshotIgnoresRound(q: Queues, q': Queues, g: Group, stewards: Stewards, inRecovery: bool, self: Id)
    requires q' == q.(round := q'.round)
    ensures Snapshot(q', g, stewards, inRecovery, self) == Snapshot(q, g, stewards, inRecovery, self)
  {
    assert q'.Eligible(g.seats) == q.Eligible(g.seats);
  }
}
