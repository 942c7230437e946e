/** Agreement between the minter, which merges its own commit unchecked, and everyone else,
    who stages and checks the same bytes: exactly when they end a round in the same group. */
module Agreement {
  import opened ByteStrings
  import opened Sorting
  import opened Protocol
  import opened MlsGroup
  import opened StewardLists
  import opened CommitBuffer
  import opened Consensus
  import opened CommitValidation
  import opened CommitApply

  // ── Counting ──

  lemma ActionsOfHead(w: World, approved: seq<Approval>)
    requires approved != []
    ensures ApprovedActions(w, approved)
         == (match ActionOf(w, approved[0].request) case Some(x) => {x} case None => {}) + ApprovedActions(w, approved[1..])
  {
    assert approved == [approved[0]] + approved[1..];
    assert approved[0] in approved && forall a :: a in approved[1..] ==> a in approved;
  }

  lemma {:induction false} ApprovedAtMostCount(w: World, approved: seq<Approval>)
    ensures |ApprovedActions(w, approved)| <= MlsCount(approved)
  {
    if approved != [] {
      ApprovedAtMostCount(w, approved[1..]);
      ActionsOfHead(w, approved);
    }
  }

  /** Under hygiene the count is exact. */
  lemma {:induction false} CleanCountIsExact(w: World, approved: seq<Approval>)
    requires forall a :: a in approved ==> ProducesMlsAction(a.request) && ActionOf(w, a.request).Some?
    requires forall i, j :: 0 <= i < j < |approved| ==> ActionOf(w, approved[i].request) != ActionOf(w, approved[j].request)
    ensures MlsCount(approved) == |ApprovedActions(w, approved)|
  {
    hide ActionOf;
    if approved != [] {
      var rest := approved[1..];
      assert approved[0] in approved && forall a :: a in rest ==> a in approved;
      CleanCountIsExact(w, rest);
      ActionsOfHead(w, approved);
      HeadIsNew(w, approved);
    }
  }

  lemma HeadIsNew(w: World, approved: seq<Approval>)
    requires approved != [] && ActionOf(w, approved[0].request).Some?
    requires forall j :: 0 < j < |approved| ==> ActionOf(w, approved[0].request) != ActionOf(w, approved[j].request)
    ensures ActionOf(w, approved[0].request).value !in ApprovedActions(w, approved[1..])
  {
    hide ActionOf;
    var rest := approved[1..];
    forall a | a in rest ensures ActionOf(w, a.request) != ActionOf(w, approved[0].request) {
      var k :| 0 <= k < |rest| && rest[k] == a;
      assert approved[k + 1] == a;
    }
  }

  lemma OwnActionsDistinct(w: World, s: RoundState, self: Id, c: Buffered)
    requires IsOwn(w, s, self, c)
    ensures |ActionSet(s.mls.own.value.actions)| == |c.msg.proposals|
  {
    var actions := s.mls.own.value.actions;
    assert ValidCommit(s.mls.group.seats, self, actions);
    DistinctCardinality(actions);
    assert ActionSet(actions) == ToSet(actions);
  }

  /** Minting may skip entries, but a candidate that survives the strict count filter
      skipped none: it carries exactly the approved changes. */
  lemma OwnActionsExact(w: World, s: RoundState, self: Id, c: Buffered)
    requires IsOwn(w, s, self, c) && |c.msg.proposals| == MlsCount(s.queues.approved)
    ensures ActionSet(s.mls.own.value.actions) == ApprovedActions(w, s.queues.approved)
  {
    hide Stage;
    OwnActionsDistinct(w, s, self, c);
    ApprovedAtMostCount(w, s.queues.approved);
    SubsetCardinality(ActionSet(s.mls.own.value.actions), ApprovedActions(w, s.queues.approved));
  }

  /** In any round, strict or not, a peer in the same state accepts what we would merge
      unchecked exactly if we are authorized in its eyes and our batch carries as many
      changes as are approved. */
  lemma PeerAcceptsOwnCandidateIff(w: World, s: RoundState, self: Id, c: Buffered, peer: Id,
        approved: seq<Approval>, stewards: Stewards, inRecovery: bool)
    requires IsOwn(w, s, self, c) && ApprovedActions(w, approved) == ApprovedActions(w, s.queues.approved)
    ensures JudgeRemote(w, s.mls.group, approved, stewards, inRecovery, peer, c.msg).Accept?
            <==> Authorized(stewards, self, inRecovery) && |c.msg.proposals| == |ApprovedActions(w, approved)|
    ensures var v := JudgeRemote(w, s.mls.group, approved, stewards, inRecovery, peer, c.msg);
            v.Accept? ==> v.commit == s.mls.own && v.committer == self
  {
    hide Stage;
    OwnActionsDistinct(w, s, self, c);
    SubsetCardinality(ActionSet(s.mls.own.value.actions), ApprovedActions(w, s.queues.approved));
  }

  /** Would our candidate pass at a peer in the same state? */
  ghost predicate PassesAtPeers(w: World, s: RoundState, stewards: Stewards, inRecovery: bool, self: Id, c: Buffered) {
    Authorized(stewards, self, inRecovery) && |c.msg.proposals| == |ApprovedActions(w, s.queues.approved)|
  }

  /** In any round the member and a peer in the same state give the same verdict on a
      candidate, exactly unless it is the member's own and would not pass at a peer; and
      what both accept is the same commit by the same committer. */
  lemma OwnPathAgreesWithLadder(w: World, s: RoundState, self: Id, c: Buffered, peer: Id, approved: seq<Approval>,
        stewards: Stewards, inRecovery: bool)
    requires LocalOk(w, s, self) && c in s.queues.round.For(s.mls.group.epoch)
    requires ApprovedActions(w, approved) == ApprovedActions(w, s.queues.approved)
    ensures var ctx := Snapshot(s.queues, s.mls.group, stewards, inRecovery, self);
            var mine := VerdictOn(w, s, stewards, ctx, self, c);
            var theirs := JudgeRemote(w, s.mls.group, approved, stewards, inRecovery, peer, c.msg);
            && ((mine.Accept? <==> theirs.Accept?) <==> (c.isLocal ==> PassesAtPeers(w, s, stewards, inRecovery, self, c)))
            && (mine.Accept? && theirs.Accept? ==> mine.commit == theirs.commit && mine.committer == theirs.committer)
  {
    hide Stage;
    if c.isLocal {
      PeerAcceptsOwnCandidateIff(w, s, self, c, peer, approved, stewards, inRecovery);
    }
  }

  // ── Strict rounds ──

  /** Minters are on the list (or there is none) when the round ends. */
  predicate MinterListed(s: RoundState, stewards: Stewards, self: Id) {
    (exists c | c in s.queues.round.For(s.mls.group.epoch) :: c.isLocal) ==> Authorized(stewards, self, false)
  }

  /** An own candidate that survives the strict count filter passes at peers exactly if
      the list still names us, or there is none. */
  lemma StrictOwnPassesIff(w: World, s: RoundState, stewards: Stewards, self: Id, c: Buffered)
    requires IsOwn(w, s, self, c) && |c.msg.proposals| == MlsCount(s.queues.approved)
    ensures PassesAtPeers(w, s, stewards, false, self, c) <==> Authorized(stewards, self, false)
  {
    hide Stage;
    OwnActionsExact(w, s, self, c);
    OwnActionsDistinct(w, s, self, c);
  }

  lemma AcceptedActionsAreApproved(w: World, s: RoundState, stewards: Stewards, self: Id, c: Buffered)
    requires LocalOk(w, s, self) && c in s.queues.round.For(s.mls.group.epoch)
    requires |c.msg.proposals| == MlsCount(s.queues.approved)
    ensures var v := VerdictOn(w, s, stewards, Snapshot(s.queues, s.mls.group, stewards, false, self), self, c);
            v.Accept? ==> v.commit.Some? && ActionSet(v.commit.value.actions) == ApprovedActions(w, s.queues.approved)
  {
    hide Stage;
    if c.isLocal {
      OwnActionsExact(w, s, self, c);
    }
  }

  /** Whatever merges in a strict round carries exactly the approved changes. */
  lemma MergedActionsAreApproved(w: World, s: RoundState, stewards: Stewards, self: Id)
    requires LocalOk(w, s, self)
    ensures var (after, r) := FinalizeRound(w, s, stewards, false, false, self);
            r.outcome.Applied? ==>
              exists p: Pending :: ActionSet(p.actions) == ApprovedActions(w, s.queues.approved)
                && after.mls.group == Merge(s.mls.group, p.commit, p.actions)
  {
    hide FinalizeRound, VerdictOn, LocalOk, ApprovedActions;
    RoundMergesBestAcceptable(w, s, stewards, false, false, self);
    var ctx := Snapshot(s.queues, s.mls.group, stewards, false, self);
    var (after, r) := FinalizeRound(w, s, stewards, false, false, self);
    if r.outcome.Applied? {
      var c :| Wins(w, s, stewards, ctx, self, Pool(s, ctx, false), c)
               && after.mls.group == Merged(s.mls.group, VerdictOn(w, s, stewards, ctx, self, c).commit);
      AcceptedActionsAreApproved(w, s, stewards, self, c);
      var p := VerdictOn(w, s, stewards, ctx, self, c).commit.value;
      assert ActionSet(p.actions) == ApprovedActions(w, s.queues.approved);
    }
  }

  // ── One candidate, two members ──

  /** Our own candidate is all there is, here and at a peer in the very same state: we
      merge it, and the peer merges it exactly if it passes there. */
  lemma LoneCandidateAgreesIff(w: World, mine: RoundState, theirs: RoundState, stewards: Stewards, inRecovery: bool,
        allowSubset: bool, self: Id, peer: Id, c: Buffered)
    requires mine.mls.group == theirs.mls.group && mine.queues.approved == theirs.queues.approved
    requires c.isLocal && IsOwn(w, mine, self, c) && Applicable(MlsCount(mine.queues.approved), allowSubset)(c)
    requires mine.queues.round.For(mine.mls.group.epoch) == [c]
    requires theirs.queues.round.For(mine.mls.group.epoch) == [c.(isLocal := false)]
    ensures FinalizeRound(w, mine, stewards, inRecovery, allowSubset, self).1.outcome.Applied?
    ensures var (after, r) := FinalizeRound(w, theirs, stewards, inRecovery, allowSubset, peer);
            if PassesAtPeers(w, mine, stewards, inRecovery, self, c) then r.outcome.Applied?
            else r.outcome.NoCandidate? && after.mls.group == theirs.mls.group
  {
    hide FinalizeRound, JudgeRemote, IsOwn;
    RoundMergesBestAcceptable(w, mine, stewards, inRecovery, allowSubset, self);
    RoundMergesBestAcceptable(w, theirs, stewards, inRecovery, allowSubset, peer);
    PeerAcceptsOwnCandidateIff(w, mine, self, c, peer, theirs.queues.approved, stewards, inRecovery);
    assert c in Pool(mine, Snapshot(mine.queues, mine.mls.group, stewards, inRecovery, self), allowSubset);
    var ctx, copy := Snapshot(theirs.queues, theirs.mls.group, stewards, inRecovery, peer), c.(isLocal := false);
    assert copy in [copy] && copy in Pool(theirs, ctx, allowSubset);
    var v := VerdictOn(w, theirs, stewards, ctx, peer, copy);
    assert v.Accept? <==> PassesAtPeers(w, mine, stewards, inRecovery, self, c);
    if v.Accept? {
      assert !v.Reject?;
      assert !FinalizeRound(w, theirs, stewards, inRecovery, allowSubset, peer).1.outcome.NoCandidate?;
    }
  }

  /** A subset round can split the group: our candidate carries fewer changes than are
      approved. */
  lemma SubsetRoundSplits(w: World, mine: RoundState, theirs: RoundState, stewards: Stewards, inRecovery: bool,
        self: Id, peer: Id, c: Buffered)
    requires mine.mls.group == theirs.mls.group && mine.queues.approved == theirs.queues.approved
    requires c.isLocal && IsOwn(w, mine, self, c)
    requires mine.queues.round.For(mine.mls.group.epoch) == [c]
    requires theirs.queues.round.For(mine.mls.group.epoch) == [c.(isLocal := false)]
    requires |c.msg.proposals| < |ApprovedActions(w, mine.queues.approved)|
    ensures FinalizeRound(w, mine, stewards, inRecovery, true, self).1.outcome.Applied?
    ensures var (after, r) := FinalizeRound(w, theirs, stewards, inRecovery, true, peer);
            r.outcome.NoCandidate? && after.mls.group == theirs.mls.group
  {
    hide FinalizeRound, IsOwn;
    ApprovedAtMostCount(w, mine.queues.approved);
    LoneCandidateAgreesIff(w, mine, theirs, stewards, inRecovery, true, self, peer, c);
  }

  /** A strict round can split the group too: the list that is in force when the round
      ends no longer names us, although our candidate is complete. */
  lemma DelistedMinterSplits(w: World, mine: RoundState, theirs: RoundState, stewards: Stewards, self: Id, peer: Id,
        c: Buffered)
    requires mine.mls.group == theirs.mls.group && mine.queues.approved == theirs.queues.approved
    requires c.isLocal && IsOwn(w, mine, self, c) && |c.msg.proposals| == MlsCount(mine.queues.approved)
    requires mine.queues.round.For(mine.mls.group.epoch) == [c]
    requires theirs.queues.round.For(mine.mls.group.epoch) == [c.(isLocal := false)]
    requires stewards.list.Some? && !stewards.IsSteward(self)
    ensures FinalizeRound(w, mine, stewards, false, false, self).1.outcome.Applied?
    ensures var (after, r) := FinalizeRound(w, theirs, stewards, false, false, peer);
            r.outcome.NoCandidate? && after.mls.group == theirs.mls.group
  {
    hide FinalizeRound, IsOwn;
    StrictOwnPassesIff(w, mine, stewards, self, c);
    LoneCandidateAgreesIff(w, mine, theirs, stewards, false, false, self, peer, c);
  }

  lemma {:induction false} JoinersAtMost(actions: seq<Action>)
    ensures |Joiners(actions)| <= |actions|
  {
    if actions != [] {
      JoinersAtMost(actions[1..]);
    }
  }

  lemma OneRemovalIsValid(seats: Seats, committer: Id, gone: Id)
    requires committer in SeatIds(seats) && gone in SeatIds(seats) && gone != committer && |seats| < 0x1_0000_0000
    ensures ValidCommit(seats, committer, [Remove(gone)])
  {
    JoinersAtMost([Remove(gone)]);
  }

  lemma TwoRemovalsApproved(w: World, a: Approval, b: Approval)
    requires a.request.RemoveMember? && b.request.RemoveMember? && a.request.target != b.request.target
    ensures |ApprovedActions(w, [a, b])| >= 2
  {
    var two := {Remove(a.request.target), Remove(b.request.target)};
    assert a in [a, b] && b in [a, b];
    SubsetCardinality(two, ApprovedActions(w, [a, b]));
  }

  // ── Two members ──

  /** A candidate without the mark of who minted it. */
  function Plain(): Buffered -> Buffered { (c: Buffered) => c.(isLocal := false) }

  function Messages(candidates: seq<Buffered>): (r: set<Candidate>) { set c | c in candidates :: c.msg }

  lemma PlainRank(candidates: seq<Buffered>, ctx: Context, allowSubset: bool)
    ensures MapSeq(Plain(), Rank(candidates, ctx, allowSubset)) == Rank(MapSeq(Plain(), candidates), ctx, allowSubset)
  {
    var p, leq := Applicable(ctx.mlsCount, allowSubset), Priority(ctx.epochSteward);
    PlainReads(ctx, allowSubset);
    hide Applicable, Priority, Plain;
    KeepMap(Plain(), p, p, candidates);
    SortByMap(Plain(), leq, leq, Keep(p, candidates));
  }

  /** Neither the filter nor the order looks at who minted. */
  lemma PlainReads(ctx: Context, allowSubset: bool)
    ensures forall c :: Applicable(ctx.mlsCount, allowSubset)(Plain()(c)) == Applicable(ctx.mlsCount, allowSubset)(c)
    ensures Agrees(Plain(), Priority(ctx.epochSteward), Priority(ctx.epochSteward))
  {}

  lemma PlainHas(candidates: seq<Buffered>, c: Buffered)
    ensures c in MapSeq(Plain(), candidates) <==> exists d :: d in candidates && Plain()(d) == c
  {
    var plain := MapSeq(Plain(), candidates);
    if d :| d in candidates && Plain()(d) == c {
      var i :| 0 <= i < |candidates| && candidates[i] == d;
      assert plain[i] == c;
    }
    if c in plain {
      var i :| 0 <= i < |plain| && plain[i] == c;
      assert candidates[i] in candidates;
    }
  }

  lemma PlainValid(w: World, r: CommitRound)
    requires r.Valid(w)
    ensures CommitRound(r.epoch, MapSeq(Plain(), r.candidates)).Valid(w)
    ensures Distinct(MapSeq(Plain(), r.candidates))
    ensures forall c :: c in MapSeq(Plain(), r.candidates) <==> c.msg in Messages(r.candidates) && c == Buffered(c.msg, w.commitHash(c.msg.commit), false)
  {
    var plain := MapSeq(Plain(), r.candidates);
    forall c ensures c in plain <==> c.msg in Messages(r.candidates) && c == Buffered(c.msg, w.commitHash(c.msg.commit), false) {
      PlainHas(r.candidates, c);
    }
    forall i, j | 0 <= i < j < |plain| ensures plain[i].hash != plain[j].hash {
      assert r.candidates[i].hash != r.candidates[j].hash;
    }
  }

  /** Buffers holding the same messages rank alike, whatever order they came in and
      whoever minted what. */
  lemma SameRanking(w: World, a: CommitRound, b: CommitRound, ctx: Context, allowSubset: bool)
    requires a.Valid(w) && b.Valid(w) && Messages(a.candidates) == Messages(b.candidates)
    ensures MapSeq(Plain(), Rank(a.candidates, ctx, allowSubset)) == MapSeq(Plain(), Rank(b.candidates, ctx, allowSubset))
  {
    PlainValid(w, a);
    PlainValid(w, b);
    var pa, pb := MapSeq(Plain(), a.candidates), MapSeq(Plain(), b.candidates);
    DistinctSameMultiset(pa, pb);
    RankIgnoresArrivalOrder(w, CommitRound(a.epoch, pa), pb, ctx, allowSubset);
    PlainRank(a.candidates, ctx, allowSubset);
    PlainRank(b.candidates, ctx, allowSubset);
  }

  /** Two members at the end of a round, in the same group, with the same changes
      approved and the same messages buffered. */
  ghost predicate Matched(w: World, a: RoundState, b: RoundState) {
    && a.mls.group == b.mls.group
    && ApprovedActions(w, a.queues.approved) == ApprovedActions(w, b.queues.approved)
    && MlsCount(a.queues.approved) == MlsCount(b.queues.approved)
    && CommitRound(0, a.queues.round.For(a.mls.group.epoch)).Valid(w)
    && CommitRound(0, b.queues.round.For(b.mls.group.epoch)).Valid(w)
    && Messages(a.queues.round.For(a.mls.group.epoch)) == Messages(b.queues.round.For(b.mls.group.epoch))
  }

  lemma SameEpochSteward(w: World, a: RoundState, b: RoundState, stewards: Stewards, inRecovery: bool, selfA: Id,
        selfB: Id)
    requires a.mls.group == b.mls.group
    requires ApprovedActions(w, a.queues.approved) == ApprovedActions(w, b.queues.approved)
    ensures Snapshot(a.queues, a.mls.group, stewards, inRecovery, selfA).epochSteward
         == Snapshot(b.queues, b.mls.group, stewards, inRecovery, selfB).epochSteward
  {
    ApprovedActionsHas(w, a.queues);
    ApprovedActionsHas(w, b.queues);
    forall id ensures a.queues.HasApprovedRemoval(id) == b.queues.HasApprovedRemoval(id) {
      assert Remove(id) in ApprovedActions(w, a.queues.approved) <==> Remove(id) in ApprovedActions(w, b.queues.approved);
    }
    assert a.queues.Eligible(a.mls.group.seats) == b.queues.Eligible(b.mls.group.seats);
  }

  /** The candidates of a round, best first. */
  function Ranked(s: RoundState, stewards: Stewards, inRecovery: bool, allowSubset: bool,
        self: Id): (sorted: seq<Buffered>) {
    Rank(s.queues.round.For(s.mls.group.epoch), Snapshot(s.queues, s.mls.group, stewards, inRecovery, self), allowSubset)
  }

  /** What the member makes of each of them. */
  function Opinions(w: World, s: RoundState, stewards: Stewards, inRecovery: bool, allowSubset: bool,
        self: Id): (vs: seq<Verdict>)
    ensures |vs| == |Ranked(s, stewards, inRecovery, allowSubset, self)|
  {
    Verdicts(w, s, stewards, Snapshot(s.queues, s.mls.group, stewards, inRecovery, self), self,
             Ranked(s, stewards, inRecovery, allowSubset, self))
  }

  /** The candidate a round merges. */
  function Best(w: World, s: RoundState, stewards: Stewards, inRecovery: bool, allowSubset: bool,
        self: Id): (r: Option<Buffered>) {
    var i := FirstAccepted(Opinions(w, s, stewards, inRecovery, allowSubset, self));
    var sorted := Ranked(s, stewards, inRecovery, allowSubset, self);
    if i == |sorted| then None else Some(sorted[i])
  }

  /** The commit it merges, with the hash it is remembered by. */
  function Winner(w: World, s: RoundState, stewards: Stewards, inRecovery: bool, allowSubset: bool,
        self: Id): (r: Option<(Bytes, Option<Pending>)>) {
    match Best(w, s, stewards, inRecovery, allowSubset, self)
    case None => None
    case Some(c) => Some((c.hash, VerdictOn(w, s, stewards, Snapshot(s.queues, s.mls.group, stewards, inRecovery, self), self, c).commit))
  }

  lemma BestIsAccepted(w: World, s: RoundState, stewards: Stewards, inRecovery: bool, allowSubset: bool, self: Id)
    ensures var best := Best(w, s, stewards, inRecovery, allowSubset, self);
            best.Some? ==>
              && best.value in s.queues.round.For(s.mls.group.epoch) && Applicable(MlsCount(s.queues.approved), allowSubset)(best.value)
              && VerdictOn(w, s, stewards, Snapshot(s.queues, s.mls.group, stewards, inRecovery, self), self, best.value).Accept?
  {
    hide VerdictOn;
    var i := FirstAccepted(Opinions(w, s, stewards, inRecovery, allowSubset, self));
    var sorted := Ranked(s, stewards, inRecovery, allowSubset, self);
    if i < |sorted| {
      assert sorted[i] in sorted;
      RankHas(s.queues.round.For(s.mls.group.epoch), Snapshot(s.queues, s.mls.group, stewards, inRecovery, self), allowSubset, sorted[i]);
    }
  }

  /** What we are about to merge is a peer's, or would pass at a peer. */
  ghost predicate BestPasses(w: World, s: RoundState, stewards: Stewards, inRecovery: bool, allowSubset: bool,
        self: Id) {
    var best := Best(w, s, stewards, inRecovery, allowSubset, self);
    best.Some? && best.value.isLocal ==> PassesAtPeers(w, s, stewards, inRecovery, self, best.value)
  }

  /** Two members go through the same messages in the same order. */
  lemma SameOrder(w: World, a: RoundState, b: RoundState, stewards: Stewards, inRecovery: bool, allowSubset: bool,
        selfA: Id, selfB: Id)
    requires Matched(w, a, b)
    ensures var sa, sb := Ranked(a, stewards, inRecovery, allowSubset, selfA), Ranked(b, stewards, inRecovery, allowSubset, selfB);
            && |sa| == |sb|
            && forall i :: 0 <= i < |sa| ==>
                 && sa[i] in a.queues.round.For(a.mls.group.epoch) && sb[i] in b.queues.round.For(b.mls.group.epoch)
                 && sa[i].msg == sb[i].msg && sa[i].hash == sb[i].hash
  {
    var epoch := a.mls.group.epoch;
    var ctxA, ctxB := Snapshot(a.queues, a.mls.group, stewards, inRecovery, selfA), Snapshot(b.queues, b.mls.group, stewards, inRecovery, selfB);
    var sa, sb := Ranked(a, stewards, inRecovery, allowSubset, selfA), Ranked(b, stewards, inRecovery, allowSubset, selfB);
    SameEpochSteward(w, a, b, stewards, inRecovery, selfA, selfB);
    SameRanking(w, CommitRound(0, a.queues.round.For(epoch)), CommitRound(0, b.queues.round.For(epoch)), ctxA, allowSubset);
    RankReadsCountAndSteward(b.queues.round.For(epoch), ctxA, ctxB, allowSubset);
    assert |sa| == |MapSeq(Plain(), sa)| == |sb|;
    forall i | 0 <= i < |sa|
      ensures sa[i] in a.queues.round.For(a.mls.group.epoch) && sb[i] in b.queues.round.For(b.mls.group.epoch)
      ensures sa[i].msg == sb[i].msg && sa[i].hash == sb[i].hash
    {
      assert Plain()(sa[i]) == MapSeq(Plain(), sa)[i] == MapSeq(Plain(), sb)[i] == Plain()(sb[i]);
      assert sa[i] in sa && sb[i] in sb;
      RankHas(a.queues.round.For(epoch), ctxA, allowSubset, sa[i]);
      RankHas(b.queues.round.For(epoch), ctxB, allowSubset, sb[i]);
    }
  }

  lemma RankReadsCountAndSteward(candidates: seq<Buffered>, a: Context, b: Context, allowSubset: bool)
    requires a.mlsCount == b.mlsCount && a.epochSteward == b.epochSteward
    ensures Rank(candidates, a, allowSubset) == Rank(candidates, b, allowSubset)
  {}

  /** What passes at peers is not passed over there. */
  lemma PicksNoLater(w: World, a: RoundState, b: RoundState, stewards: Stewards, inRecovery: bool, allowSubset: bool,
        selfA: Id, selfB: Id)
    requires Matched(w, a, b) && LocalOk(w, a, selfA) && LocalOk(w, b, selfB)
    requires BestPasses(w, a, stewards, inRecovery, allowSubset, selfA)
    ensures FirstAccepted(Opinions(w, b, stewards, inRecovery, allowSubset, selfB))
         <= FirstAccepted(Opinions(w, a, stewards, inRecovery, allowSubset, selfA))
  {
    hide JudgeRemote, LocalOk, PassesAtPeers, Ranked, Matched;
    SameOrder(w, a, b, stewards, inRecovery, allowSubset, selfA, selfB);
    var sa, sb := Ranked(a, stewards, inRecovery, allowSubset, selfA), Ranked(b, stewards, inRecovery, allowSubset, selfB);
    var i := FirstAccepted(Opinions(w, a, stewards, inRecovery, allowSubset, selfA));
    if i < |sa| {
      MatchedApproved(w, a, b);
      OwnPathAgreesWithLadder(w, a, selfA, sa[i], selfA, a.queues.approved, stewards, inRecovery);
      OwnPathAgreesWithLadder(w, b, selfB, sb[i], selfA, a.queues.approved, stewards, inRecovery);
    }
  }

  lemma MatchedApproved(w: World, a: RoundState, b: RoundState)
    requires Matched(w, a, b)
    ensures a.mls.group == b.mls.group && ApprovedActions(w, a.queues.approved) == ApprovedActions(w, b.queues.approved)
    ensures Matched(w, b, a)
  {}

  /** Both members pick the same winner when neither is about to merge a commit of its
      own that others would not take. */
  lemma SameWinner(w: World, a: RoundState, b: RoundState, stewards: Stewards, inRecovery: bool, allowSubset: bool,
        selfA: Id, selfB: Id)
    requires Matched(w, a, b) && LocalOk(w, a, selfA) && LocalOk(w, b, selfB)
    requires BestPasses(w, a, stewards, inRecovery, allowSubset, selfA)
    requires BestPasses(w, b, stewards, inRecovery, allowSubset, selfB)
    ensures Winner(w, a, stewards, inRecovery, allowSubset, selfA) == Winner(w, b, stewards, inRecovery, allowSubset, selfB)
  {
    hide JudgeRemote, LocalOk, PassesAtPeers, Ranked, Matched, VerdictOn;
    MatchedApproved(w, a, b);
    PicksNoLater(w, a, b, stewards, inRecovery, allowSubset, selfA, selfB);
    PicksNoLater(w, b, a, stewards, inRecovery, allowSubset, selfB, selfA);
    SameOrder(w, a, b, stewards, inRecovery, allowSubset, selfA, selfB);
    BestIsAccepted(w, a, stewards, inRecovery, allowSubset, selfA);
    BestIsAccepted(w, b, stewards, inRecovery, allowSubset, selfB);
    var bestA, bestB := Best(w, a, stewards, inRecovery, allowSubset, selfA), Best(w, b, stewards, inRecovery, allowSubset, selfB);
    if bestA.Some? {
      OwnPathAgreesWithLadder(w, a, selfA, bestA.value, selfA, a.queues.approved, stewards, inRecovery);
      OwnPathAgreesWithLadder(w, b, selfB, bestB.value, selfA, a.queues.approved, stewards, inRecovery);
    }
  }

  /** A commit of ours that others would not take wins nowhere else. */
  lemma OwnWinnerStaysAlone(w: World, a: RoundState, b: RoundState, stewards: Stewards, inRecovery: bool,
        allowSubset: bool, selfA: Id, selfB: Id)
    requires Matched(w, a, b) && LocalOk(w, a, selfA) && LocalOk(w, b, selfB) && selfA != selfB
    requires !BestPasses(w, a, stewards, inRecovery, allowSubset, selfA)
    ensures var bestA, bestB := Best(w, a, stewards, inRecovery, allowSubset, selfA), Best(w, b, stewards, inRecovery, allowSubset, selfB);
            bestA.Some? && (bestB.Some? ==> bestB.value.msg.commit != bestA.value.msg.commit)
  {
    hide JudgeRemote, PassesAtPeers, Ranked, Matched, Stage;
    MatchedApproved(w, a, b);
    SameOrder(w, a, b, stewards, inRecovery, allowSubset, selfA, selfB);
    BestIsAccepted(w, b, stewards, inRecovery, allowSubset, selfB);
    var sa, sb := Ranked(a, stewards, inRecovery, allowSubset, selfA), Ranked(b, stewards, inRecovery, allowSubset, selfB);
    var i := FirstAccepted(Opinions(w, a, stewards, inRecovery, allowSubset, selfA));
    OwnPathAgreesWithLadder(w, a, selfA, sa[i], selfB, b.queues.approved, stewards, inRecovery);
    assert !sb[i].isLocal;
    assert VerdictOn(w, b, stewards, Snapshot(b.queues, b.mls.group, stewards, inRecovery, selfB), selfB, sb[i]).Reject?;
    var bestB := Best(w, b, stewards, inRecovery, allowSubset, selfB);
    if bestB.Some? {
      SameCommitSameEntry(w, b, bestB.value, sb[i]);
    }
  }

  lemma SameCommitSameEntry(w: World, s: RoundState, c: Buffered, d: Buffered)
    requires CommitRound(0, s.queues.round.For(s.mls.group.epoch)).Valid(w)
    requires c in s.queues.round.For(s.mls.group.epoch) && d in s.queues.round.For(s.mls.group.epoch)
    ensures c.msg.commit == d.msg.commit ==> c == d
  {
    if c.msg.commit == d.msg.commit {
      SameHashSameEntry(w, CommitRound(0, s.queues.round.For(s.mls.group.epoch)), c, d);
    }
  }

  /** The round does nothing but merge the winner, and says what its verdict says about
      leaving. */
  lemma RoundMergesWinner(w: World, s: RoundState, stewards: Stewards, inRecovery: bool, allowSubset: bool, self: Id)
    ensures var ctx, best := Snapshot(s.queues, s.mls.group, stewards, inRecovery, self), Best(w, s, stewards, inRecovery, allowSubset, self);
            var r := FinalizeRound(w, s, stewards, inRecovery, allowSubset, self).1;
            best.Some? ==> r.outcome == Applied(VerdictOn(w, s, stewards, ctx, self, best.value).leave)
    ensures var (after, r) := FinalizeRound(w, s, stewards, inRecovery, allowSubset, self);
            var taken := s.(queues := s.queues.(round := s.queues.round.Take(s.mls.group.epoch)));
            match Winner(w, s, stewards, inRecovery, allowSubset, self)
            case None => r.outcome.NoCandidate? && after == taken.(mls := s.mls.(own := None))
            case Some(won) => r.outcome.Applied? && after == AfterMerge(taken, won.1, won.0, s.mls.group.epoch).0
  {
    hide JudgeRemote, FinalizeBatch;
    var ctx := Snapshot(s.queues, s.mls.group, stewards, inRecovery, self);
    var taken := s.(queues := s.queues.(round := s.queues.round.Take(s.mls.group.epoch)));
    SnapshotIgnoresRound(s.queues, taken.queues, s.mls.group, stewards, inRecovery, self);
    var sorted := Ranked(s, stewards, inRecovery, allowSubset, self);
    var vs, taken' := Opinions(w, s, stewards, inRecovery, allowSubset, self), Verdicts(w, taken, stewards, ctx, self, sorted);
    forall i | 0 <= i < |sorted| ensures vs[i] == taken'[i] {}
    assert vs == taken';
  }

  /** What is merged is the winner's own bytes. */
  lemma WinnerCommit(w: World, s: RoundState, stewards: Stewards, inRecovery: bool, allowSubset: bool, self: Id)
    requires LocalOk(w, s, self)
    ensures var best, won := Best(w, s, stewards, inRecovery, allowSubset, self), Winner(w, s, stewards, inRecovery, allowSubset, self);
            best.Some? ==> won.Some? && won.value.1.Some? && won.value.1.value.commit == best.value.msg.commit
  {
    hide Stage, Best;
    BestIsAccepted(w, s, stewards, inRecovery, allowSubset, self);
  }

  /** The group after a round, commit by commit. */
  lemma HistoryAfterRound(w: World, s: RoundState, stewards: Stewards, inRecovery: bool, allowSubset: bool, self: Id)
    requires LocalOk(w, s, self)
    ensures var best := Best(w, s, stewards, inRecovery, allowSubset, self);
            var g := FinalizeRound(w, s, stewards, inRecovery, allowSubset, self).0.mls.group;
            g.history == s.mls.group.history + (if best.Some? then [best.value.msg.commit] else [])
  {
    hide FinalizeRound, Best, VerdictOn, FinalizeBatch, LocalOk, ApplyActions;
    RoundMergesWinner(w, s, stewards, inRecovery, allowSubset, self);
    WinnerCommit(w, s, stewards, inRecovery, allowSubset, self);
  }

  /** Agreement in any round, strict, subset or recovery. Two members in the same group,
      with the same changes approved, the same steward list and the same candidates
      buffered, end the round in the same group exactly if neither of them merges a
      commit of its own that would not pass at a peer. */
  lemma RoundAgreementIff(w: World, a: RoundState, b: RoundState, stewards: Stewards, inRecovery: bool,
        allowSubset: bool, selfA: Id, selfB: Id)
    requires Matched(w, a, b) && LocalOk(w, a, selfA) && LocalOk(w, b, selfB) && selfA != selfB
    ensures var afterA := FinalizeRound(w, a, stewards, inRecovery, allowSubset, selfA).0.mls.group;
            var afterB := FinalizeRound(w, b, stewards, inRecovery, allowSubset, selfB).0.mls.group;
            var passesA := BestPasses(w, a, stewards, inRecovery, allowSubset, selfA);
            var passesB := BestPasses(w, b, stewards, inRecovery, allowSubset, selfB);
            afterA == afterB <==> passesA && passesB
  {
    hide FinalizeRound, Best, Winner, BestPasses, LocalOk, Matched;
    MatchedApproved(w, a, b);
    if BestPasses(w, a, stewards, inRecovery, allowSubset, selfA) {
      if BestPasses(w, b, stewards, inRecovery, allowSubset, selfB) {
        SameWinnerSameGroup(w, a, b, stewards, inRecovery, allowSubset, selfA, selfB);
      } else {
        OwnWinnerSplits(w, b, a, stewards, inRecovery, allowSubset, selfB, selfA);
      }
    } else {
      OwnWinnerSplits(w, a, b, stewards, inRecovery, allowSubset, selfA, selfB);
    }
  }

  lemma OwnWinnerSplits(w: World, a: RoundState, b: RoundState, stewards: Stewards, inRecovery: bool,
        allowSubset: bool, selfA: Id, selfB: Id)
    requires Matched(w, a, b) && LocalOk(w, a, selfA) && LocalOk(w, b, selfB) && selfA != selfB
    requires !BestPasses(w, a, stewards, inRecovery, allowSubset, selfA)
    ensures FinalizeRound(w, a, stewards, inRecovery, allowSubset, selfA).0.mls.group
         != FinalizeRound(w, b, stewards, inRecovery, allowSubset, selfB).0.mls.group
  {
    hide FinalizeRound, Best, Winner, BestPasses, LocalOk, Matched;
    MatchedApproved(w, a, b);
    OwnWinnerStaysAlone(w, a, b, stewards, inRecovery, allowSubset, selfA, selfB);
    HistoryAfterRound(w, a, stewards, inRecovery, allowSubset, selfA);
    HistoryAfterRound(w, b, stewards, inRecovery, allowSubset, selfB);
    var after := FinalizeRound(w, a, stewards, inRecovery, allowSubset, selfA).0.mls.group.history;
    assert after[|after| - 1] == Best(w, a, stewards, inRecovery, allowSubset, selfA).value.msg.commit;
  }

  lemma SameWinnerSameGroup(w: World, a: RoundState, b: RoundState, stewards: Stewards, inRecovery: bool,
        allowSubset: bool, selfA: Id, selfB: Id)
    requires Matched(w, a, b) && LocalOk(w, a, selfA) && LocalOk(w, b, selfB)
    requires BestPasses(w, a, stewards, inRecovery, allowSubset, selfA)
    requires BestPasses(w, b, stewards, inRecovery, allowSubset, selfB)
    ensures var (afterA, ra) := FinalizeRound(w, a, stewards, inRecovery, allowSubset, selfA);
            var (afterB, rb) := FinalizeRound(w, b, stewards, inRecovery, allowSubset, selfB);
            ra.outcome.Applied? == rb.outcome.Applied? && afterA.mls.group == afterB.mls.group
  {
    hide FinalizeRound, Winner, BestPasses, LocalOk;
    SameWinner(w, a, b, stewards, inRecovery, allowSubset, selfA, selfB);
    RoundMergesWinner(w, a, stewards, inRecovery, allowSubset, selfA);
    RoundMergesWinner(w, b, stewards, inRecovery, allowSubset, selfB);
  }

  /** In particular when every own candidate in the ranking would pass at a peer. */
  ghost predicate OwnPasses(w: World, s: RoundState, stewards: Stewards, inRecovery: bool, allowSubset: bool,
        self: Id) {
    forall c :: c in s.queues.round.For(s.mls.group.epoch) && c.isLocal && Applicable(MlsCount(s.queues.approved), allowSubset)(c)
      ==> PassesAtPeers(w, s, stewards, inRecovery, self, c)
  }

  lemma RoundAgreement(w: World, a: RoundState, b: RoundState, stewards: Stewards, inRecovery: bool, allowSubset: bool,
        selfA: Id, selfB: Id)
    requires Matched(w, a, b) && LocalOk(w, a, selfA) && LocalOk(w, b, selfB)
    requires OwnPasses(w, a, stewards, inRecovery, allowSubset, selfA)
    requires OwnPasses(w, b, stewards, inRecovery, allowSubset, selfB)
    ensures var (afterA, ra) := FinalizeRound(w, a, stewards, inRecovery, allowSubset, selfA);
            var (afterB, rb) := FinalizeRound(w, b, stewards, inRecovery, allowSubset, selfB);
            ra.outcome.Applied? == rb.outcome.Applied? && afterA.mls.group == afterB.mls.group
  {
    hide FinalizeRound, LocalOk, Matched, PassesAtPeers;
    BestIsAccepted(w, a, stewards, inRecovery, allowSubset, selfA);
    BestIsAccepted(w, b, stewards, inRecovery, allowSubset, selfB);
    SameWinnerSameGroup(w, a, b, stewards, inRecovery, allowSubset, selfA, selfB);
  }

  lemma StrictOwnPasses(w: World, s: RoundState, stewards: Stewards, self: Id)
    requires LocalOk(w, s, self) && MinterListed(s, stewards, self)
    ensures OwnPasses(w, s, stewards, false, false, self) && BestPasses(w, s, stewards, false, false, self)
  {
    hide PassesAtPeers, IsOwn, Best;
    forall c | c in s.queues.round.For(s.mls.group.epoch) && c.isLocal && Applicable(MlsCount(s.queues.approved), false)(c)
      ensures PassesAtPeers(w, s, stewards, false, self, c)
    {
      StrictOwnPassesIff(w, s, stewards, self, c);
    }
    BestIsAccepted(w, s, stewards, false, false, self);
  }

  /** A strict round agrees as long as the list still names whoever minted: a minted
      batch only skips entries, and the count filter lets it pass only if it skipped
      none. */
  lemma StrictRoundAgreement(w: World, a: RoundState, b: RoundState, stewards: Stewards, selfA: Id, selfB: Id)
    requires Matched(w, a, b) && LocalOk(w, a, selfA) && LocalOk(w, b, selfB)
    requires MinterListed(a, stewards, selfA) && MinterListed(b, stewards, selfB)
    ensures var (afterA, ra) := FinalizeRound(w, a, stewards, false, false, selfA);
            var (afterB, rb) := FinalizeRound(w, b, stewards, false, false, selfB);
            ra.outcome.Applied? == rb.outcome.Applied? && afterA.mls.group == afterB.mls.group
  {
    hide FinalizeRound, OwnPasses, BestPasses, LocalOk, Matched, MinterListed;
    StrictOwnPasses(w, a, stewards, selfA);
    StrictOwnPasses(w, b, stewards, selfB);
    RoundAgreement(w, a, b, stewards, false, false, selfA, selfB);
  }

  /** What a strict round is about to merge passes at peers, exactly unless it is our own
      commit and the list does not name us any more. */
  lemma StrictBestPassesIff(w: World, s: RoundState, stewards: Stewards, self: Id)
    requires LocalOk(w, s, self)
    ensures var best := Best(w, s, stewards, false, false, self);
            BestPasses(w, s, stewards, false, false, self) <==> (best.Some? && best.value.isLocal ==> Authorized(stewards, self, false))
  {
    hide PassesAtPeers, IsOwn, Best;
    BestIsAccepted(w, s, stewards, false, false, self);
    var best := Best(w, s, stewards, false, false, self);
    if best.Some? && best.value.isLocal {
      StrictOwnPassesIff(w, s, stewards, self, best.value);
    }
  }
}
