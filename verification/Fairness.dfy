/** Scoring does not hit the honest: a listed steward whose commit carries what was
    approved never loses score to a round, picked or not. */
module Fairness {
  import opened ByteStrings
  import opened Sorting
  import opened Protocol
  import opened MlsGroup
  import opened StewardLists
  import opened CommitBuffer
  import opened Consensus
  import opened CommitValidation
  import opened CommitApply

  predicate IsReward(event: ScoreEvent) { event.SuccessfulCommit? || event.HonestCommitAttempt? }

  /** `c` is the commit of `steward`, who is listed, at another
      member: it says who it is from, carries the approved changes, one proposal each. */
  ghost predicate HonestCandidate(w: World, s: RoundState, stewards: Stewards, self: Id, steward: Id, c: Buffered) {
    && c in s.queues.round.For(s.mls.group.epoch) && !c.isLocal && steward != self
    && c.msg.steward == steward && stewards.IsSteward(steward)
    && |c.msg.proposals| == MlsCount(s.queues.approved)
    && var staged := Stage(w, s.mls.group, c.msg.proposals, c.msg.commit);
       staged.Staged? && staged.committer == steward && ActionSet(staged.actions) == ApprovedActions(w, s.queues.approved)
  }

  /** Nothing else at hand was signed by `steward`. */
  ghost predicate SignedOnly(w: World, s: RoundState, steward: Id, c: Buffered) {
    forall d :: d in s.queues.round.For(s.mls.group.epoch) && !d.isLocal && d != c
      ==> SignerOf(Stage(w, s.mls.group, d.msg.proposals, d.msg.commit)) != Some(steward)
  }

  lemma {:induction false} FinesSpare(vs: seq<Verdict>, steward: Id)
    requires forall j :: 0 <= j < |vs| && vs[j].Reject? ==> forall op :: op in vs[j].penalties ==> op.member != steward
    ensures forall op :: op in Penalties(vs) ==> op.member != steward
  {
    if vs != [] {
      FinesSpare(vs[..|vs| - 1], steward);
    }
  }

  lemma HonestIsAccepted(w: World, s: RoundState, stewards: Stewards, ctx: Context, self: Id, steward: Id, c: Buffered)
    requires HonestCandidate(w, s, stewards, self, steward, c)
    ensures var v := VerdictOn(w, s, stewards, ctx, self, c); v.Accept? && v.committer == steward
  {
    hide Stage;
  }

  lemma HonestIsListed(w: World, s: RoundState, stewards: Stewards, self: Id, steward: Id, c: Buffered)
    requires HonestCandidate(w, s, stewards, self, steward, c)
    ensures stewards.IsSteward(steward)
  {}

  /** A verdict touches `steward` only on its own candidate. */
  lemma VerdictSpares(w: World, s: RoundState, stewards: Stewards, ctx: Context, self: Id, steward: Id,
        c: Buffered, d: Buffered)
    requires SignedOnly(w, s, steward, c) && d in s.queues.round.For(s.mls.group.epoch) && d != c && steward != self
    requires d.isLocal ==> d.msg.steward == self
    ensures var v := VerdictOn(w, s, stewards, ctx, self, d);
            && (v.Reject? ==> forall op :: op in v.penalties ==> op.member != steward)
            && (v.Accept? ==> v.committer != steward && d.msg.steward != steward)
  {
    hide Stage, JudgeRemote;
    RejectionBlamesSigner(w, s.mls.group, s.queues.approved, stewards, ctx.inRecovery, self, d.msg);
  }

  /** The epoch steward's own candidate goes first among equals. */
  lemma EpochStewardGoesFirst(ctx: Context, winner: Buffered, c: Buffered)
    requires Priority(ctx.epochSteward)(winner, c) && |winner.msg.proposals| == |c.msg.proposals|
    requires ctx.epochSteward == Some(c.msg.steward)
    ensures winner.msg.steward == c.msg.steward
  {}

  lemma WinnerScoresSpare(stewards: Stewards, ctx: Context, self: Id, committer: Id, losers: seq<Buffered>,
        steward: Id, op: ScoreOp)
    requires op in WinnerScores(stewards, ctx, self, committer, losers)
    requires op.member == steward && stewards.IsSteward(steward)
    requires ctx.epochSteward == Some(steward) ==> committer == steward
    ensures IsReward(op.event)
  {
    var notes := LoserScores(stewards, losers);
    if op in notes {
      var k :| 0 <= k < |notes| && notes[k] == op;
    }
  }

  /** In any round, strict, subset or recovery, an honest listed steward never loses
      score at any other member, whether its commit is picked or not, whatever else is
      in the buffer and whoever else's name the other candidates carry. */
  lemma HonestStewardNeverFined(w: World, s: RoundState, stewards: Stewards, inRecovery: bool, allowSubset: bool,
        self: Id, steward: Id, c: Buffered, op: ScoreOp)
    requires LocalOk(w, s, self)
    requires HonestCandidate(w, s, stewards, self, steward, c) && SignedOnly(w, s, steward, c)
    requires op in FinalizeRound(w, s, stewards, inRecovery, allowSubset, self).1.scoreOps && op.member == steward
    ensures IsReward(op.event)
  {
    hide Stage, JudgeRemote, VerdictOn, FinalizeBatch, IsOwn, HonestCandidate, SignedOnly, Rank, WinnerScores, LoserScores;
    var epoch := s.mls.group.epoch;
    var taken := s.(queues := s.queues.(round := s.queues.round.Take(epoch)));
    var ctx := Snapshot(taken.queues, s.mls.group, stewards, inRecovery, self);
    var sorted := Rank(s.queues.round.For(epoch), ctx, allowSubset);
    var vs := Verdicts(w, taken, stewards, ctx, self, sorted);
    var i := FirstAccepted(vs);
    SnapshotIgnoresRound(s.queues, taken.queues, s.mls.group, stewards, inRecovery, self);
    forall j | 0 <= j < |sorted|
      ensures sorted[j] in s.queues.round.For(epoch) && |sorted[j].msg.proposals| <= ctx.mlsCount
      ensures vs[j] == VerdictOn(w, s, stewards, ctx, self, sorted[j])
      ensures sorted[j] == c ==> vs[j].Accept? && vs[j].committer == steward
      ensures sorted[j] != c && vs[j].Reject? ==> forall o :: o in vs[j].penalties ==> o.member != steward
      ensures sorted[j] != c && vs[j].Accept? ==> vs[j].committer != steward && sorted[j].msg.steward != steward
    {
      JudgedAlike(w, s, taken, stewards, ctx, allowSubset, self, sorted, j, steward, c);
    }
    FinesSpare(vs[..i], steward);
    assert vs[..|vs|] == vs;
    HonestIsListed(w, s, stewards, self, steward, c);
    WinnerIsFair(w, s, stewards, ctx, allowSubset, self, steward, c, sorted, vs, i);
    WinnerScoresSpare(stewards, ctx, self, vs[i].committer, sorted[i + 1..], steward, op);
  }

  lemma JudgedAlike(w: World, s: RoundState, taken: RoundState, stewards: Stewards, ctx: Context, allowSubset: bool,
        self: Id, sorted: seq<Buffered>, j: nat, steward: Id, c: Buffered)
    requires LocalOk(w, s, self) && HonestCandidate(w, s, stewards, self, steward, c) && SignedOnly(w, s, steward, c)
    requires taken == s.(queues := s.queues.(round := taken.queues.round))
    requires sorted == Rank(s.queues.round.For(s.mls.group.epoch), ctx, allowSubset) && j < |sorted|
    ensures sorted[j] in s.queues.round.For(s.mls.group.epoch) && |sorted[j].msg.proposals| <= ctx.mlsCount
    ensures var v := VerdictOn(w, taken, stewards, ctx, self, sorted[j]);
            && v == VerdictOn(w, s, stewards, ctx, self, sorted[j])
            && (sorted[j] == c ==> v.Accept? && v.committer == steward)
            && (sorted[j] != c && v.Reject? ==> forall o :: o in v.penalties ==> o.member != steward)
            && (sorted[j] != c && v.Accept? ==> v.committer != steward && sorted[j].msg.steward != steward)
  {
    hide Stage, JudgeRemote, Rank;
    assert sorted[j] in sorted;
    RankHas(s.queues.round.For(s.mls.group.epoch), ctx, allowSubset, sorted[j]);
    HonestIsAccepted(w, s, stewards, ctx, self, steward, c);
    if sorted[j] != c {
      VerdictSpares(w, s, stewards, ctx, self, steward, c, sorted[j]);
    }
  }

  /** If the winner is somebody else's, then `steward` was not the one on duty. */
  lemma WinnerIsFair(w: World, s: RoundState, stewards: Stewards, ctx: Context, allowSubset: bool,
        self: Id, steward: Id, c: Buffered, sorted: seq<Buffered>, vs: seq<Verdict>, i: nat)
    requires HonestCandidate(w, s, stewards, self, steward, c)
    requires ctx.mlsCount == MlsCount(s.queues.approved)
    requires sorted == Rank(s.queues.round.For(s.mls.group.epoch), ctx, allowSubset) && |vs| == |sorted| && i < |sorted|
    requires forall j :: 0 <= j < |sorted| ==>
               && |sorted[j].msg.proposals| <= ctx.mlsCount
               && (sorted[j] == c ==> vs[j].Accept? && vs[j].committer == steward)
    requires vs[i].Accept? && forall j :: 0 <= j < i ==> vs[j].Reject?
    requires sorted[i] != c ==> sorted[i].msg.steward != steward
    ensures ctx.epochSteward == Some(steward) ==> vs[i].committer == steward
  {
    hide Stage;
    if sorted[i] != c {
      RankHas(s.queues.round.For(s.mls.group.epoch), ctx, allowSubset, c);
      PriorityIsPreorder(ctx.epochSteward);
      SortBySorted(Priority(ctx.epochSteward), Keep(Applicable(ctx.mlsCount, allowSubset), s.queues.round.For(s.mls.group.epoch)));
      SortedGoesFirst(ctx.epochSteward, sorted, i, c);
      if ctx.epochSteward == Some(steward) {
        EpochStewardGoesFirst(ctx, sorted[i], c);
      }
    }
  }

  lemma SortedGoesFirst(es: Option<Id>, sorted: seq<Buffered>, i: nat, c: Buffered)
    requires SortedBy(Priority(es), sorted) && i < |sorted| && c in sorted
    requires forall j :: 0 <= j < i ==> sorted[j] != c
    ensures Priority(es)(sorted[i], c)
  {
    var k :| 0 <= k < |sorted| && sorted[k] == c;
  }
}
