/** The commit validation service: the round snapshot, the priority order of
    candidates, and the checks a peer's candidate must pass. */
module CommitValidation {
  import opened ByteStrings
  import opened Sorting
  import opened Protocol
  import opened MlsGroup
  import opened StewardLists
  import opened CommitBuffer
  import opened Queues
  import opened Consensus

  /** What a round reads off the state before anything merges. */
  datatype Context = Context(mlsCount: nat, selfRemovePending: bool, epoch: nat, inRecovery: bool, epochSteward: Option<Id>)

  function MlsCount(approved: seq<Approval>): (n: nat) {
    |Keep((a: Approval) => ProducesMlsAction(a.request), approved)|
  }

  function Snapshot(q: Queues, g: Group, stewards: Stewards, inRecovery: bool, self: Id): (ctx: Context) {
    Context(MlsCount(q.approved), q.HasApprovedRemoval(self), g.epoch, inRecovery,
            stewards.DutySteward(g.epoch, q.Eligible(g.seats)))
  }

  // ── Selection ──

  function Applicable(mlsCount: nat, allowSubset: bool): Buffered -> bool {
    (c: Buffered) => if allowSubset then |c.msg.proposals| <= mlsCount else |c.msg.proposals| == mlsCount
  }

  function Tier(c: Buffered, epochSteward: Option<Id>): (t: nat) {
    if epochSteward == Some(c.msg.steward) then 0 else 1
  }

  /** Larger batch first, then the epoch steward, then the smaller steward id, then
      the lower commit hash. */
  function Priority(epochSteward: Option<Id>): (Buffered, Buffered) -> bool {
    (a: Buffered, b: Buffered) =>
      if |a.msg.proposals| != |b.msg.proposals| then |a.msg.proposals| > |b.msg.proposals|
      else if Tier(a, epochSteward) != Tier(b, epochSteward) then Tier(a, epochSteward) < Tier(b, epochSteward)
      else if a.msg.steward != b.msg.steward then Less(a.msg.steward, b.msg.steward)
      else a.hash == b.hash || Less(a.hash, b.hash)
  }

  function Rank(candidates: seq<Buffered>, ctx: Context, allowSubset: bool): (sorted: seq<Buffered>) {
    SortBy(Priority(ctx.epochSteward), Keep(Applicable(ctx.mlsCount, allowSubset), candidates))
  }

  lemma PriorityTransitive(es: Option<Id>, a: Buffered, b: Buffered, c: Buffered)
    requires Priority(es)(a, b) && Priority(es)(b, c)
    ensures Priority(es)(a, c)
  {
    if Less(a.msg.steward, b.msg.steward) && Less(b.msg.steward, c.msg.steward) {
      LessTransitive(a.msg.steward, b.msg.steward, c.msg.steward);
      LessTrichotomy(a.msg.steward, c.msg.steward);
    }
    if Less(a.hash, b.hash) && Less(b.hash, c.hash) {
      LessTransitive(a.hash, b.hash, c.hash);
    }
  }

  lemma PriorityIsPreorder(es: Option<Id>)
    ensures TotalPreorder(Priority(es))
    ensures forall a, b :: Priority(es)(a, b) && Priority(es)(b, a) ==> a.hash == b.hash
  {
    forall a, b
      ensures Priority(es)(a, b) || Priority(es)(b, a)
      ensures Priority(es)(a, b) && Priority(es)(b, a) ==> a.hash == b.hash
    {
      LessTrichotomy(a.msg.steward, b.msg.steward);
      LessTrichotomy(a.hash, b.hash);
    }
    forall a, b, c | Priority(es)(a, b) && Priority(es)(b, c) ensures Priority(es)(a, c) {
      PriorityTransitive(es, a, b, c);
    }
  }

  /** On any buffer built by additions the comparator is a strict total order: of
      two different entries exactly one goes first. */
  lemma PriorityIsStrictOnBuffers(w: World, r: CommitRound, es: Option<Id>)
    requires r.Valid(w)
    ensures TotalPreorder(Priority(es))
    ensures AntisymmetricOn(Priority(es), r.candidates)
    ensures forall a, b :: a in r.candidates && b in r.candidates && a != b ==> Priority(es)(a, b) != Priority(es)(b, a)
  {
    PriorityIsPreorder(es);
    forall a, b | a in r.candidates && b in r.candidates && Priority(es)(a, b) && Priority(es)(b, a) ensures a == b {
      SameHashSameEntry(w, r, a, b);
    }
    forall a, b | a in r.candidates && b in r.candidates && a != b ensures Priority(es)(a, b) || Priority(es)(b, a) {}
  }

  /** The ranking does not depend on the order in which candidates came in. */
  lemma RankIgnoresArrivalOrder(w: World, r: CommitRound, other: seq<Buffered>, ctx: Context, allowSubset: bool)
    requires r.Valid(w) && multiset(other) == multiset(r.candidates)
    ensures Rank(other, ctx, allowSubset) == Rank(r.candidates, ctx, allowSubset)
  {
    var p, leq := Applicable(ctx.mlsCount, allowSubset), Priority(ctx.epochSteward);
    PriorityIsStrictOnBuffers(w, r, ctx.epochSteward);
    forall c ensures multiset(Keep(p, other))[c] == multiset(Keep(p, r.candidates))[c] {
      KeepCount(p, other, c);
      KeepCount(p, r.candidates, c);
    }
    assert multiset(Keep(p, other)) == multiset(Keep(p, r.candidates));
    forall c | c in Keep(p, r.candidates) ensures c in r.candidates { KeepMembers(p, r.candidates, c); }
    SortByPermutation(leq, Keep(p, r.candidates), Keep(p, other));
  }

  lemma RankHas(candidates: seq<Buffered>, ctx: Context, allowSubset: bool, c: Buffered)
    ensures c in Rank(candidates, ctx, allowSubset) <==> c in candidates && Applicable(ctx.mlsCount, allowSubset)(c)
  {
    var kept := Keep(Applicable(ctx.mlsCount, allowSubset), candidates);
    KeepMembers(Applicable(ctx.mlsCount, allowSubset), candidates, c);
    SortByMembers(Priority(ctx.epochSteward), kept, c);
  }

  /** Positions of the queue that hold an invite or a removal. */
  function Changes(approved: seq<Approval>): (r: set<nat>) {
    set i: nat | i < |approved| && (approved[i].request.MemberInvite? || approved[i].request.RemoveMember?)
  }

  lemma {:induction false} MlsCountMeaning(approved: seq<Approval>)
    ensures MlsCount(approved) == |Changes(approved)|
  {
    var p := (a: Approval) => ProducesMlsAction(a.request);
    if approved != [] {
      var rest, last := approved[..|approved| - 1], approved[|approved| - 1];
      assert approved == rest + [last];
      MlsCountMeaning(rest);
      KeepConcat((a: Approval) => ProducesMlsAction(a.request), rest, [last]);
      KeepOne((a: Approval) => ProducesMlsAction(a.request), last);
      assert Changes(approved) == Changes(rest) + if ProducesMlsAction(last.request) then {|rest|} else {};
    }
  }

  /** A round ranks exactly the candidates that carry as many proposals as the queue holds
      invites and removals, or in a subset round no more. */
  lemma RankedIff(q: Queues, g: Group, stewards: Stewards, inRecovery: bool, self: Id, allowSubset: bool, c: Buffered)
    ensures c in Rank(q.round.For(g.epoch), Snapshot(q, g, stewards, inRecovery, self), allowSubset)
            <==> && c in q.round.For(g.epoch)
                 && (|c.msg.proposals| == |Changes(q.approved)| || (allowSubset && |c.msg.proposals| < |Changes(q.approved)|))
  {
    hide Rank, MlsCount;
    MlsCountMeaning(q.approved);
    RankHas(q.round.For(g.epoch), Snapshot(q, g, stewards, inRecovery, self), allowSubset, c);
  }

  /** What ranks first: no larger batch is around; among the largest, the epoch
      steward's if there is one; then nobody whose id falls below the winner's, byte by
      byte from the left; then no commit hash that does. */
  lemma RankHeadIsBest(candidates: seq<Buffered>, ctx: Context, allowSubset: bool, d: Buffered)
    requires d in candidates && Applicable(ctx.mlsCount, allowSubset)(d)
    ensures Rank(candidates, ctx, allowSubset) != []
    ensures var best := Rank(candidates, ctx, allowSubset)[0];
            && |d.msg.proposals| <= |best.msg.proposals|
            && (|d.msg.proposals| == |best.msg.proposals| ==>
                  && (ctx.epochSteward == Some(d.msg.steward) ==> best.msg.steward == d.msg.steward)
                  && (ctx.epochSteward != Some(best.msg.steward) ==> forall k: nat :: !FallsBelowAt(d.msg.steward, best.msg.steward, k))
                  && (d.msg.steward == best.msg.steward ==> forall k: nat :: !FallsBelowAt(d.hash, best.hash, k)))
  {
    var kept, leq := Keep(Applicable(ctx.mlsCount, allowSubset), candidates), Priority(ctx.epochSteward);
    RankHas(candidates, ctx, allowSubset, d);
    PriorityIsPreorder(ctx.epochSteward);
    SortBySorted(leq, kept);
    var best := Rank(candidates, ctx, allowSubset)[0];
    SortedHead(leq, Rank(candidates, ctx, allowSubset), d);
    LessTrichotomy(d.msg.steward, best.msg.steward);
    LessTrichotomy(d.hash, best.hash);
    LessMeaning(d.msg.steward, best.msg.steward);
    LessMeaning(d.hash, best.hash);
  }

  // ── Validation ──

  /** What becomes of a candidate: merge this commit, or drop it with penalties. */
  datatype Verdict =
    | Accept(committer: Id, commit: Option<Pending>, leave: bool)
    | Reject(penalties: seq<ScoreOp>)

  predicate Authorized(stewards: Stewards, committer: Id, inRecovery: bool) {
    inRecovery || stewards.list.None? || stewards.IsSteward(committer)
  }

  function ActionSet(actions: seq<Action>): (r: set<Action>) { set a | a in actions }

  /** Stage, authorize, match: the ladder every peer's candidate climbs. */
  function JudgeRemote(w: World, g: Group, approved: seq<Approval>, stewards: Stewards, inRecovery: bool,
        self: Id, c: Candidate): (v: Verdict) {
    match Stage(w, g, c.proposals, c.commit)
    case Failed => Reject([])
    case Aborted => Reject([])
    case BundleSenderMismatch(sender) => Reject(TargetScoreOps(BrokenCommitViolation, sender))
    case Staged(committer, actions) =>
      if c.steward != committer then Reject(TargetScoreOps(BrokenCommitViolation, committer))
      else if !Authorized(stewards, committer, inRecovery) then Reject(TargetScoreOps(MisbehavingCommitViolation, committer))
      else if ActionSet(actions) != ApprovedActions(w, approved) then Reject(TargetScoreOps(BrokenMlsProposalViolation, committer))
      else Accept(committer, Some(Pending(c.commit, actions)), Remove(self) in actions)
  }

  /** Who signed a bundle, as MLS sees it. */
  function SignerOf(staged: StageResult): (r: Option<Id>) {
    match staged
    case Staged(committer, _) => Some(committer)
    case BundleSenderMismatch(sender) => Some(sender)
    case _ => None
  }

  /** A rejection blames nobody when the bundle cannot be read, and otherwise the
      member that signed it, once: never whoever the candidate claims to come from. */
  lemma RejectionBlamesSigner(w: World, g: Group, approved: seq<Approval>, stewards: Stewards, inRecovery: bool,
        self: Id, c: Candidate)
    ensures var v, signer := JudgeRemote(w, g, approved, stewards, inRecovery, self, c), SignerOf(Stage(w, g, c.proposals, c.commit));
            && (v.Reject? ==> |v.penalties| == if signer.Some? then 1 else 0)
            && (v.Reject? && signer.Some? ==> v.penalties[0].member == signer.value && IsFine(v.penalties[0].event))
            && (v.Accept? ==> signer == Some(v.committer) && c.steward == v.committer)
  {
    hide Stage;
  }

  predicate IsFine(event: ScoreEvent) { event.BrokenCommit? || event.BrokenMlsProposal? || event.MisbehavingCommit? || event.CensorshipInactivity? }
}
