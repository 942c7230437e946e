/** Per-conversation protocol state: the approved queue, the commit round, the
    early stash, the urgent target and the join epochs. */
module Queues {
  import opened ByteStrings
  import opened Sorting
  import opened Protocol
  import opened MlsGroup
  import opened CommitBuffer

  /** A candidate that came before its proposal was approved here. */
  datatype Early = Early(epoch: nat, candidate: Candidate)

  const RESOLVED_PROPOSAL_CACHE_CAPACITY: nat := 256

  // ── The approved queue ──

  /** Insertion-ordered map: a known id keeps its place and takes the new value. */
  function InsertApproval(s: seq<Approval>, a: Approval): (r: seq<Approval>) {
    if s == [] then [a]
    else if s[0].proposalId == a.proposalId then [a] + s[1..]
    else [s[0]] + InsertApproval(s[1..], a)
  }

  /** An unknown id goes to the end; a known one keeps its place and takes the new request;
      every other entry stays what and where it is. */
  lemma {:induction false} InsertMeaning(s: seq<Approval>, a: Approval)
    requires forall i, j :: 0 <= i < j < |s| ==> s[i].proposalId != s[j].proposalId
    ensures var r, known := InsertApproval(s, a), exists x :: x in s && x.proposalId == a.proposalId;
            && |r| == |s| + (if known then 0 else 1)
            && (!known ==> r[|s|] == a)
            && forall i :: 0 <= i < |s| ==> r[i] == if s[i].proposalId == a.proposalId then a else s[i]
  {
    if s != [] {
      assert s == [s[0]] + s[1..];
      if s[0].proposalId != a.proposalId {
        InsertMeaning(s[1..], a);
        var r, rest := InsertApproval(s, a), InsertApproval(s[1..], a);
        assert forall i :: 0 < i < |r| ==> r[i] == rest[i - 1];
      }
    }
  }

  lemma {:induction false} InsertFresh(s: seq<Approval>, a: Approval)
    requires forall x :: x in s ==> x.proposalId != a.proposalId
    ensures InsertApproval(s, a) == s + [a]
  {
    if s != [] {
      assert s[0] in s && forall x :: x in s[1..] ==> x in s;
      InsertFresh(s[1..], a);
    }
  }

  function Requests(s: seq<Approval>): (r: seq<Request>) { MapSeq((a: Approval) => a.request, s) }

  /** Entries that stay when every removal of a member in `gone` is dropped. */
  function Survives(gone: set<Id>): Approval -> bool {
    (a: Approval) => !(a.request.RemoveMember? && a.request.target in gone)
  }

  lemma {:induction false} KeepKeep<T>(p: T -> bool, q: T -> bool, both: T -> bool, s: seq<T>)
    requires forall x :: x in s ==> both(x) == (p(x) && q(x))
    ensures Keep(p, Keep(q, s)) == Keep(both, s)
  {
    if s != [] {
      assert s[0] in s && forall x :: x in s[1..] ==> x in s;
      KeepKeep(p, q, both, s[1..]);
      assert Keep(q, s) == (if q(s[0]) then [s[0]] else []) + Keep(q, s[1..]);
      if q(s[0]) {
        assert Keep(q, s)[1..] == Keep(q, s[1..]);
      } else {
        assert Keep(q, s) == Keep(q, s[1..]);
      }
    }
  }

  // ── The state ──

  datatype Queues = Queues(
    approved: seq<Approval>,
    committed: Window<Bytes>,
    round: CommitRound,
    resolved: Window<nat>,
    urgent: Option<Id>,
    early: seq<Early>,
    joinEpoch: map<Id, nat>,
    delta: Option<Delta>)
  {
    predicate HasApprovedRemoval(member: Id) { exists a | a in approved :: a.request == RemoveMember(member) }

    predicate HasApprovedInvite(w: World, key: Bytes) {
      exists a | a in approved :: a.request.MemberInvite? && w.keyOf(a.request.keyPackage) == Some(key)
    }

    /** Members that may serve as steward: seated and not about to be removed. */
    function Eligible(seats: Seats): (r: set<Id>) { set id | id in SeatIds(seats) && !HasApprovedRemoval(id) }

    function InsertApproved(id: nat, request: Request): (r: Queues) {
      this.(approved := InsertApproval(approved, Approval(id, request)))
    }

    function DropRemovals(gone: set<Id>): (r: Queues) { this.(approved := Keep(Survives(gone), approved)) }

    // ── Join epochs ──

    /** Settled once the epoch has moved past the join epoch; untracked members are. */
    predicate IsSettled(member: Id, epoch: nat) { SettledIn(joinEpoch, epoch)(member) }

    function Settled(members: seq<Id>, epoch: nat): (r: seq<Id>) { Keep(SettledIn(joinEpoch, epoch), members) }

    /** Fold the stored delta in: departed members lose their join epoch and their
        queued removals, joiners are stamped with `epoch`. */
    function Bookkept(epoch: nat): (r: Queues) {
      match delta
      case None => this
      case Some(d) => DropRemovals(SeatIds(d.removed)).(joinEpoch := Stamped(joinEpoch, d, epoch))
    }

    // ── Early candidates ──

    function Stash(epoch: nat, candidate: Candidate, cap: nat): (r: Queues) {
      var kept := Keep(OfEpoch(epoch), early);
      if (exists e | e in kept :: e.candidate.commit == candidate.commit) || |kept| >= cap then this.(early := kept)
      else this.(early := kept + [Early(epoch, candidate)])
    }

    function EarlyFor(epoch: nat): (r: seq<Candidate>) {
      Candidates(Keep(OfEpoch(epoch), early))
    }
  }

  function Candidates(early: seq<Early>): (r: seq<Candidate>) { MapSeq((e: Early) => e.candidate, early) }

  function SettledIn(joinEpoch: map<Id, nat>, epoch: nat): Id -> bool {
    (m: Id) => m in joinEpoch ==> joinEpoch[m] < epoch
  }

  function OfEpoch(epoch: nat): Early -> bool { (e: Early) => e.epoch == epoch }

  function Stamped(joinEpoch: map<Id, nat>, d: Delta, epoch: nat): (r: map<Id, nat>) {
    StampAll(joinEpoch - SeatIds(d.removed), d.added, epoch)
  }

  function StampAll(joinEpoch: map<Id, nat>, added: Seats, epoch: nat): (r: map<Id, nat>) {
    joinEpoch + map id | id in SeatIds(added) :: epoch
  }

  function NewQueues(dedupWindow: nat): (r: Queues) {
    Queues([], EmptyWindow(dedupWindow), CommitRound(0, []), EmptyWindow(RESOLVED_PROPOSAL_CACHE_CAPACITY), None, [], map[], None)
  }

  class ConversationQueues {
    var approvedProposals: seq<Approval>
    var committedBatchHashes: Window<Bytes>
    const commitRound: CommitRoundBuffer
    var resolvedProposals: Window<nat>
    var urgentCommitTarget: Option<Id>
    var earlyCandidates: seq<Early>
    var memberJoinEpoch: map<Id, nat>
    var pendingMembershipDelta: Option<Delta>

    function Value(): (q: Queues)
      reads this, commitRound
    {
      Queues(approvedProposals, committedBatchHashes, commitRound.Value(), resolvedProposals, urgentCommitTarget,
             earlyCandidates, memberJoinEpoch, pendingMembershipDelta)
    }

    constructor (dedupWindow: nat)
      ensures Value() == NewQueues(dedupWindow) && fresh(commitRound)
    {
      approvedProposals, committedBatchHashes := [], EmptyWindow(dedupWindow);
      commitRound := new CommitRoundBuffer();
      resolvedProposals, urgentCommitTarget := EmptyWindow(RESOLVED_PROPOSAL_CACHE_CAPACITY), None;
      earlyCandidates, memberJoinEpoch, pendingMembershipDelta := [], map[], None;
    }

    method InsertApprovedProposal(id: nat, request: Request)
      modifies this`approvedProposals
      ensures Value() == old(Value()).InsertApproved(id, request)
    {
      approvedProposals := InsertApproval(approvedProposals, Approval(id, request));
    }

    method DropApprovedRemovalsFor(target: Id)
      modifies this`approvedProposals
      ensures Value() == old(Value()).DropRemovals({target})
    {
      approvedProposals := Keep(Survives({target}), approvedProposals);
    }

    /** Empty the approved queue and hand the requests back in arrival order. */
    method DrainApprovedProposals() returns (batch: seq<Request>)
      modifies this`approvedProposals
      ensures batch == Requests(old(approvedProposals)) && Value() == old(Value()).(approved := [])
    {
      batch := Requests(approvedProposals);
      approvedProposals := [];
    }

    method StoreMembershipDelta(d: Delta)
      modifies this`pendingMembershipDelta
      ensures Value() == old(Value()).(delta := Some(d))
    {
      pendingMembershipDelta := Some(d);
    }

    method TakeMembershipDelta() returns (d: Delta)
      modifies this`pendingMembershipDelta
      ensures Value() == old(Value()).(delta := None)
      ensures d == match old(pendingMembershipDelta) case Some(stored) => stored case None => Delta(map[], map[])
    {
      d := match pendingMembershipDelta case Some(stored) => stored case None => Delta(map[], map[]);
      pendingMembershipDelta := None;
    }

    /** Member by member: forget everyone who left, stamp everyone who joined. */
    method ApplyMembershipDeltaBookkeeping(epoch: nat)
      modifies this`approvedProposals, this`memberJoinEpoch
      ensures Value() == old(Value()).Bookkept(epoch)
    {
      if pendingMembershipDelta.None? {
        return;
      }
      var d := pendingMembershipDelta.value;
      ForgetDeparted(d.removed);
      StampJoiners(d.added, epoch);
    }

    method ForgetDeparted(removed: Seats)
      modifies this`approvedProposals, this`memberJoinEpoch
      ensures approvedProposals == Keep(Survives(SeatIds(removed)), old(approvedProposals))
      ensures memberJoinEpoch == old(memberJoinEpoch) - SeatIds(removed)
    {
      var done: Seats := map[];
      var left := removed.Keys;
      KeepAll(Survives({}), approvedProposals);
      assert SeatIds(done) == {};
      while left != {}
        invariant left <= removed.Keys && done == map leaf | leaf in removed && leaf !in left :: removed[leaf]
        invariant approvedProposals == Keep(Survives(SeatIds(done)), old(approvedProposals))
        invariant memberJoinEpoch == old(memberJoinEpoch) - SeatIds(done)
        decreases left
      {
        var leaf: Leaf :| leaf in left;
        var id := MemberIdOf(leaf);
        ForgetGrow(old(approvedProposals), old(memberJoinEpoch), done, leaf, removed[leaf]);
        approvedProposals := Keep(Survives({id}), approvedProposals);
        memberJoinEpoch := memberJoinEpoch - {id};
        done := done[leaf := removed[leaf]];
        left := left - {leaf};
      }
      assert done == removed;
    }

    method StampJoiners(added: Seats, epoch: nat)
      modifies this`memberJoinEpoch
      ensures memberJoinEpoch == StampAll(old(memberJoinEpoch), added, epoch)
    {
      var done: Seats := map[];
      var left := added.Keys;
      assert SeatIds(done) == {};
      while left != {}
        invariant left <= added.Keys && done == map leaf | leaf in added && leaf !in left :: added[leaf]
        invariant memberJoinEpoch == StampAll(old(memberJoinEpoch), done, epoch)
        decreases left
      {
        var leaf: Leaf :| leaf in left;
        StampGrow(old(memberJoinEpoch), done, leaf, added[leaf], epoch);
        memberJoinEpoch := memberJoinEpoch[MemberIdOf(leaf) := epoch];
        done := done[leaf := added[leaf]];
        left := left - {leaf};
      }
      assert done == added;
    }

    method InsertCommittedHash(hash: Bytes)
      modifies this`committedBatchHashes
      ensures Value() == old(Value()).(committed := old(committedBatchHashes).Insert(hash))
    {
      committedBatchHashes := committedBatchHashes.Insert(hash);
    }

    method MarkConsensusOutcomeApplied(id: nat)
      modifies this`resolvedProposals
      ensures Value() == old(Value()).(resolved := old(resolvedProposals).Insert(id))
    {
      resolvedProposals := resolvedProposals.Insert(id);
    }

    method SetUrgentCommitTarget(target: Id)
      modifies this`urgentCommitTarget
      ensures Value() == old(Value()).(urgent := Some(target))
    {
      urgentCommitTarget := Some(target);
    }

    method TakeUrgentCommitTarget() returns (target: Option<Id>)
      modifies this`urgentCommitTarget
      ensures target == old(urgentCommitTarget) && Value() == old(Value()).(urgent := None)
    {
      target := urgentCommitTarget;
      urgentCommitTarget := None;
    }

    /** Drop what belongs to other epochs, then keep the candidate unless its commit
        is there already or the stash is full. */
    method StashEarlyCandidate(epoch: nat, candidate: Candidate, cap: nat)
      modifies this`earlyCandidates
      ensures Value() == old(Value()).Stash(epoch, candidate, cap)
    {
      earlyCandidates := Keep(OfEpoch(epoch), earlyCandidates);
      if (exists e | e in earlyCandidates :: e.candidate.commit == candidate.commit) || |earlyCandidates| >= cap {
        return;
      }
      earlyCandidates := earlyCandidates + [Early(epoch, candidate)];
    }

    method TakeEarlyCandidates(epoch: nat) returns (taken: seq<Candidate>)
      modifies this`earlyCandidates
      ensures taken == old(Value()).EarlyFor(epoch) && Value() == old(Value()).(early := [])
    {
      taken := Candidates(Keep(OfEpoch(epoch), earlyCandidates));
      earlyCandidates := [];
    }
  }

  lemma ForgetGrow(approved: seq<Approval>, joinEpoch: map<Id, nat>, removed: Seats, leaf: Leaf, key: Bytes)
    ensures var gone := SeatIds(removed[leaf := key]);
            && Keep(Survives(gone), approved) == Keep(Survives({MemberIdOf(leaf)}), Keep(Survives(SeatIds(removed)), approved))
            && joinEpoch - gone == joinEpoch - SeatIds(removed) - {MemberIdOf(leaf)}
  {
    SeatIdsGrow(removed, leaf, key);
    KeepKeep(Survives({MemberIdOf(leaf)}), Survives(SeatIds(removed)), Survives(SeatIds(removed[leaf := key])), approved);
  }

  lemma StampGrow(joinEpoch: map<Id, nat>, added: Seats, leaf: Leaf, key: Bytes, epoch: nat)
    ensures StampAll(joinEpoch, added[leaf := key], epoch) == StampAll(joinEpoch, added, epoch)[MemberIdOf(leaf) := epoch]
  {
    SeatIdsGrow(added, leaf, key);
  }

  lemma SeatIdsGrow(seats: Seats, leaf: Leaf, key: Bytes)
    ensures SeatIds(seats[leaf := key]) == SeatIds(seats) + {MemberIdOf(leaf)}
  {
    forall id ensures id in SeatIds(seats[leaf := key]) <==> id in SeatIds(seats) + {MemberIdOf(leaf)} {
      if id in SeatIds(seats) {
        var l: Leaf :| l in seats && MemberIdOf(l) == id;
        assert l in seats[leaf := key];
      }
      if id == MemberIdOf(leaf) {
        assert leaf in seats[leaf := key];
      }
    }
  }
}
