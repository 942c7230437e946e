/** Who is on duty, who is told off and who is rewarded, in terms of the list, the seats,
    the approved queue and the bytes of a candidate alone. */
module Duty {
  import opened ByteStrings
  import opened Modular
  import opened Protocol
  import opened MlsGroup
  import opened StewardLists
  import opened CommitBuffer
  import opened Queues
  import opened Consensus
  import opened CommitValidation
  import opened CommitApply
  import opened Agreement

  // ── The steward on duty ──

  /** Seated, and no removal of it waits in the queue. */
  ghost predicate CanServe(q: Queues, seats: Seats, m: Id) {
    m in Members(seats) && forall a :: a in q.approved ==> a.request != RemoveMember(m)
  }

  /** The list covers the epoch, and going round once from the epoch's slot `m` is the
      first listed member that can serve. */
  ghost predicate OnDuty(q: Queues, g: Group, stewards: Stewards, m: Id) {
    stewards.list.Some?
    && var members, first := stewards.list.value.members, stewards.list.value.electionEpoch;
       && first <= g.epoch < first + |members|
       && var start := g.epoch - first;
          exists step: nat :: FirstServing(q, g, members, start, step, m)
  }

  ghost predicate FirstServing(q: Queues, g: Group, members: seq<Id>, start: nat, step: nat, m: Id)
    requires start < |members|
  {
    && step < |members| && members[Slot(start, step, |members|)] == m && CanServe(q, g.seats, m)
    && forall k: nat :: k < step ==> !CanServe(q, g.seats, members[Slot(start, k, |members|)])
  }

  lemma EligibleMeaning(q: Queues, seats: Seats, m: Id)
    ensures m in q.Eligible(seats) <==> CanServe(q, seats, m)
  {
    hide Members, SeatIds;
    MembersHas(seats, m);
  }

  lemma {:induction false} WalkFindsFirst(q: Queues, g: Group, members: seq<Id>, start: nat, step: nat, m: Id)
    requires start < |members| && step <= |members|
    requires forall k: nat :: k < step ==> !CanServe(q, g.seats, members[Slot(start, k, |members|)])
    ensures Walk(members, start, step, q.Eligible(g.seats)) == Some(m) <==> exists k: nat :: FirstServing(q, g, members, start, k, m)
    decreases |members| - step
  {
    hide CanServe, Slot;
    if step < |members| {
      var next := members[Slot(start, step, |members|)];
      EligibleMeaning(q, g.seats, next);
      if CanServe(q, g.seats, next) {
        assert FirstServing(q, g, members, start, step, next);
        forall k: nat | FirstServing(q, g, members, start, k, m) ensures k == step {}
      } else {
        WalkFindsFirst(q, g, members, start, step + 1, m);
      }
    }
  }

  /** The steward that a round, or a missed round, takes to be on duty is the one that is;
      there is one exactly if the list covers the epoch and names somebody that can serve. */
  lemma DutyMeaning(q: Queues, g: Group, stewards: Stewards, m: Id)
    ensures stewards.DutySteward(g.epoch, q.Eligible(g.seats)) == Some(m) <==> OnDuty(q, g, stewards, m)
    ensures stewards.DutySteward(g.epoch, q.Eligible(g.seats)).Some?
            <==> && stewards.list.Some?
                 && stewards.list.value.electionEpoch <= g.epoch < stewards.list.value.electionEpoch + |stewards.list.value.members|
                 && exists x :: x in stewards.list.value.members && CanServe(q, g.seats, x)
  {
    hide CanServe;
    if stewards.list.Some? {
      var list := stewards.list.value;
      StewardFoundIff(list, g.epoch, 0, q.Eligible(g.seats));
      forall x ensures x in q.Eligible(g.seats) <==> CanServe(q, g.seats, x) { EligibleMeaning(q, g.seats, x); }
      if !list.Exhausted(g.epoch) {
        ModIs(g.epoch - list.electionEpoch, 0, |list.members|, g.epoch - list.electionEpoch);
        WalkFindsFirst(q, g, list.members, g.epoch - list.electionEpoch, 0, m);
      }
    }
  }

  /** Whoever is on duty is listed and seated, and its removal is not queued. */
  lemma OnDutyCanServe(q: Queues, g: Group, stewards: Stewards, m: Id)
    requires OnDuty(q, g, stewards, m)
    ensures stewards.list.Some? && m in stewards.list.value.members && m in Members(g.seats)
    ensures forall a :: a in q.approved ==> a.request != RemoveMember(m)
  {}

  // ── The ladder ──

  /** The bundle is the committer's alone: it signed every proposal, and says who it is. */
  predicate SignedByOne(senders: seq<Id>, committer: Id, claimed: Id) {
    (forall s | s in senders :: s == committer) && claimed == committer
  }

  /** A peer's candidate is accepted exactly if it opens to a valid commit, is its
      committer's alone, comes from a listed member unless we are in recovery or have no
      list, and carries the approved changes, no more and no fewer. */
  lemma AcceptedIff(w: World, g: Group, approved: seq<Approval>, stewards: Stewards, inRecovery: bool, self: Id,
        c: Candidate)
    ensures var v := JudgeRemote(w, g, approved, stewards, inRecovery, self, c);
            match w.open(g, c.proposals, c.commit)
            case Opened(senders, committer, actions) =>
              && (v.Accept? <==>
                    && ValidCommit(g.seats, committer, actions) && SignedByOne(senders, committer, c.steward)
                    && (inRecovery || stewards.list.None? || committer in stewards.list.value.members)
                    && forall a :: a in actions <==> a in ApprovedActions(w, approved))
              && (v.Accept? ==> v == Accept(committer, Some(Pending(c.commit, actions)), Remove(self) in actions))
            case _ => v == Reject([])
  {
    hide ValidCommit, ApprovedActions;
    match w.open(g, c.proposals, c.commit)
    case Opened(senders, committer, actions) =>
      assert (ActionSet(actions) == ApprovedActions(w, approved)) <==> forall a :: a in actions <==> a in ApprovedActions(w, approved);
    case _ =>
  }

  /** A candidate that opens to a valid commit and is rejected costs its committer, once:
      for a bundle that is not its own or a false name, for committing unlisted, or for
      the wrong changes, in that order. What does not open costs nobody. */
  lemma FaultsAreTold(w: World, g: Group, approved: seq<Approval>, stewards: Stewards, inRecovery: bool, self: Id,
        c: Candidate)
    ensures var v := JudgeRemote(w, g, approved, stewards, inRecovery, self, c);
            v.Reject? ==>
              match w.open(g, c.proposals, c.commit)
              case Opened(senders, committer, actions) =>
                v.penalties ==
                  (if !ValidCommit(g.seats, committer, actions) then []
                   else if !SignedByOne(senders, committer, c.steward) then [ScoreOp(committer, BrokenCommit)]
                   else if !inRecovery && stewards.list.Some? && committer !in stewards.list.value.members
                   then [ScoreOp(committer, MisbehavingCommit)]
                   else [ScoreOp(committer, BrokenMlsProposal)])
              case _ => v.penalties == []
  {
    hide ValidCommit, ApprovedActions;
  }

  // ── What a round tells ──

  lemma {:induction false} PenaltiesHas(vs: seq<Verdict>, op: ScoreOp)
    ensures op in Penalties(vs) <==> exists j :: 0 <= j < |vs| && vs[j].Reject? && op in vs[j].penalties
  {
    if vs != [] {
      var rest := vs[..|vs| - 1];
      PenaltiesHas(rest, op);
      assert forall j :: 0 <= j < |rest| ==> rest[j] == vs[j];
      if op in Penalties(vs) && op !in Penalties(rest) { assert vs[|vs| - 1].Reject? && op in vs[|vs| - 1].penalties; }
    }
  }

  lemma {:induction false} PenaltiesAtMost(vs: seq<Verdict>)
    requires forall j :: 0 <= j < |vs| && vs[j].Reject? ==> |vs[j].penalties| <= 1
    ensures |Penalties(vs)| <= |vs|
  {
    if vs != [] {
      PenaltiesAtMost(vs[..|vs| - 1]);
    }
  }

  /** `op` notes a candidate ranked behind the winner: honest if whoever it claims to be
      from is listed, misbehaving if not. */
  ghost predicate NotesLoser(stewards: Stewards, sorted: seq<Buffered>, place: nat, op: ScoreOp) {
    exists j :: place < j < |sorted| && op.member == sorted[j].msg.steward
      && op.event == if stewards.list.Some? && sorted[j].msg.steward in stewards.list.value.members then HonestCommitAttempt else MisbehavingCommit
  }

  /** `op` is the penalty of a candidate that ranks at `place` or before. */
  ghost predicate Punishes(vs: seq<Verdict>, place: nat, op: ScoreOp) {
    exists j :: 0 <= j < |vs| && j < place && vs[j].Reject? && op in vs[j].penalties
  }

  lemma LosersHas(stewards: Stewards, sorted: seq<Buffered>, place: nat, op: ScoreOp)
    requires place < |sorted|
    ensures op in LoserScores(stewards, sorted[place + 1..]) <==> NotesLoser(stewards, sorted, place, op)
  {
    var losers := sorted[place + 1..];
    var ops := LoserScores(stewards, losers);
    if op in ops {
      var k :| 0 <= k < |ops| && ops[k] == op;
      assert losers[k] == sorted[place + 1 + k];
    }
    if j :| place < j < |sorted| && op.member == sorted[j].msg.steward
              && op.event == if stewards.list.Some? && sorted[j].msg.steward in stewards.list.value.members then HonestCommitAttempt else MisbehavingCommit {
      assert losers[j - place - 1] == sorted[j];
      assert ops[j - place - 1] == op;
    }
  }

  /** What a round tells the scores: the penalties of what ranked before the winner, and
      with a winner its committer's reward, the fine of the steward on duty if that is
      neither the committer nor us, and a note on everything ranked behind; nothing else,
      and at most one entry per ranked candidate beside the fine. */
  lemma RoundTells(w: World, s: RoundState, stewards: Stewards, inRecovery: bool, allowSubset: bool, self: Id,
        op: ScoreOp)
    ensures var ops := FinalizeRound(w, s, stewards, inRecovery, allowSubset, self).1.scoreOps;
            var sorted, vs := Ranked(s, stewards, inRecovery, allowSubset, self), Opinions(w, s, stewards, inRecovery, allowSubset, self);
            var place, best := FirstAccepted(vs), Best(w, s, stewards, inRecovery, allowSubset, self);
            && |ops| <= |sorted| + 1
            && (op in ops <==>
                  || Punishes(vs, place, op)
                  || (best.Some? &&
                        var committer := vs[place].committer;
                        || op == ScoreOp(committer, SuccessfulCommit)
                        || (op.event.CensorshipInactivity? && op.member != committer && op.member != self
                            && OnDuty(s.queues, s.mls.group, stewards, op.member))
                        || NotesLoser(stewards, sorted, place, op)))
  {
    hide FinalizeRound, VerdictOn, OnDuty, NotesLoser, Rank, LoserScores, Penalties, Punishes;
    var ctx := Snapshot(s.queues, s.mls.group, stewards, inRecovery, self);
    var sorted, vs := Ranked(s, stewards, inRecovery, allowSubset, self), Opinions(w, s, stewards, inRecovery, allowSubset, self);
    var place := FirstAccepted(vs);
    RoundOpsShape(w, s, stewards, inRecovery, allowSubset, self);
    DutyMeaning(s.queues, s.mls.group, stewards, op.member);
    PenaltiesBefore(w, s, stewards, inRecovery, allowSubset, self, op);
    if place < |sorted| { LosersHas(stewards, sorted, place, op); }
  }

  lemma PenaltiesBefore(w: World, s: RoundState, stewards: Stewards, inRecovery: bool, allowSubset: bool,
        self: Id, op: ScoreOp)
    ensures var vs := Opinions(w, s, stewards, inRecovery, allowSubset, self);
            var place := FirstAccepted(vs);
            |Penalties(vs[..place])| <= place && (op in Penalties(vs[..place]) <==> Punishes(vs, place, op))
  {
    hide VerdictOn, Ranked, Penalties;
    var ctx, sorted := Snapshot(s.queues, s.mls.group, stewards, inRecovery, self), Ranked(s, stewards, inRecovery, allowSubset, self);
    var vs := Opinions(w, s, stewards, inRecovery, allowSubset, self);
    PenaltiesHas(vs[..FirstAccepted(vs)], op);
    forall j | 0 <= j < |vs| && vs[j].Reject? ensures |vs[j].penalties| <= 1 { OnePenalty(w, s, stewards, ctx, self, sorted[j]); }
    PenaltiesAtMost(vs[..FirstAccepted(vs)]);
  }

  lemma RoundOpsShape(w: World, s: RoundState, stewards: Stewards, inRecovery: bool, allowSubset: bool, self: Id)
    ensures var ctx := Snapshot(s.queues, s.mls.group, stewards, inRecovery, self);
            var sorted, vs := Ranked(s, stewards, inRecovery, allowSubset, self), Opinions(w, s, stewards, inRecovery, allowSubset, self);
            var place := FirstAccepted(vs);
            FinalizeRound(w, s, stewards, inRecovery, allowSubset, self).1.scoreOps
            == Penalties(vs[..place]) + if place == |sorted| then [] else WinnerScores(stewards, ctx, self, vs[place].committer, sorted[place + 1..])
  {
    hide VerdictOn, AfterMerge, Rank, WinnerScores;
    var taken := s.(queues := s.queues.(round := s.queues.round.Take(s.mls.group.epoch)));
    SnapshotIgnoresRound(s.queues, taken.queues, s.mls.group, stewards, inRecovery, self);
    SameOpinions(w, s, stewards, inRecovery, allowSubset, self);
    var vs := Opinions(w, s, stewards, inRecovery, allowSubset, self);
    assert vs[..|vs|] == vs;
  }

  /** Taking the candidates out of the buffer changes no opinion. */
  lemma SameOpinions(w: World, s: RoundState, stewards: Stewards, inRecovery: bool, allowSubset: bool, self: Id)
    ensures var taken := s.(queues := s.queues.(round := s.queues.round.Take(s.mls.group.epoch)));
            var ctx := Snapshot(taken.queues, s.mls.group, stewards, inRecovery, self);
            var sorted := Ranked(s, stewards, inRecovery, allowSubset, self);
            && sorted == Rank(s.queues.round.For(s.mls.group.epoch), ctx, allowSubset)
            && Verdicts(w, taken, stewards, ctx, self, sorted) == Opinions(w, s, stewards, inRecovery, allowSubset, self)
  {
    hide JudgeRemote, Rank;
    var taken := s.(queues := s.queues.(round := s.queues.round.Take(s.mls.group.epoch)));
    var ctx := Snapshot(s.queues, s.mls.group, stewards, inRecovery, self);
    SnapshotIgnoresRound(s.queues, taken.queues, s.mls.group, stewards, inRecovery, self);
    var sorted := Ranked(s, stewards, inRecovery, allowSubset, self);
    var vs, same := Opinions(w, s, stewards, inRecovery, allowSubset, self), Verdicts(w, taken, stewards, ctx, self, sorted);
    forall i | 0 <= i < |sorted| ensures vs[i] == same[i] {}
    assert vs == same;
  }

  lemma OnePenalty(w: World, s: RoundState, stewards: Stewards, ctx: Context, self: Id, c: Buffered)
    ensures var v := VerdictOn(w, s, stewards, ctx, self, c); v.Reject? ==> |v.penalties| <= 1
  {
    hide Stage;
  }
}
