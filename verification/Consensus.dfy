/** What a resolved vote does to the queues. */
module Consensus {
  import opened ByteStrings
  import opened Sorting
  import opened Protocol
  import opened Queues

  datatype FollowUp =
    | NoAction
    | ElectionAccepted(election: Election)
    | ElectionRejected
    | RecoveryModeOpened
    | UrgentRemoval(target: Id)
    | QueuedRemoval(target: Id)
    | RejectedMembership(target: Bytes)

  function EvidenceOf(request: Request): (r: Option<Evidence>) {
    match request case EmergencyCriteria(evidence) => evidence case _ => None
  }

  predicate HasEvidence(request: Request, violation: Violation) {
    EvidenceOf(request).Some? && EvidenceOf(request).value.violation == violation
  }

  /** The member this decision would queue for removal. */
  function PendingRemovalTarget(request: Request, approved: bool): (r: Option<Id>) {
    if !approved then None
    else if HasEvidence(request, ScoreBelowThreshold) then Some(EvidenceOf(request).value.target)
    else match request case RemoveMember(target) => Some(target) case _ => None
  }

  function TargetOf(w: World, request: Request): (r: Option<Bytes>) {
    match request
    case MemberInvite(keyPackage) => w.keyOf(keyPackage)
    case RemoveMember(target) => Some(target)
    case _ => None
  }

  predicate AlreadyAdmitted(w: World, q: Queues, request: Request) {
    request.MemberInvite? && match w.keyOf(request.keyPackage) case Some(key) => q.HasApprovedInvite(w, key) case None => false
  }

  /** Classify a resolved proposal and apply its queue effects. */
  function ApplyConsensus(w: World, q: Queues, id: nat, approved: bool, request: Request): (r: (Queues, FollowUp)) {
    if request.StewardElection? then (q, if approved then ElectionAccepted(request.election) else ElectionRejected)
    else
      var target := PendingRemovalTarget(request, approved);
      if target.Some? && q.HasApprovedRemoval(target.value) then (q, NoAction)
      else if approved && AlreadyAdmitted(w, q, request) then (q, NoAction)
      else if approved && HasEvidence(request, ScoreBelowThreshold) then
        (q.InsertApproved(id, RemoveMember(target.value)).(urgent := target), UrgentRemoval(target.value))
      else
        var q' := if approved && EvidenceOf(request).None? then q.InsertApproved(id, request) else q;
        if approved && HasEvidence(request, Deadlock) then (q', RecoveryModeOpened)
        else if target.Some? then (q', QueuedRemoval(target.value))
        else if !approved && TargetOf(w, request).Some? then (q', RejectedMembership(TargetOf(w, request).value))
        else (q', NoAction)
  }

  method ApplyConsensusResult(w: World, conversation: ConversationQueues, id: nat, approved: bool, request: Request)
    returns (followUp: FollowUp)
    modifies conversation`approvedProposals, conversation`urgentCommitTarget
    ensures (conversation.Value(), followUp) == ApplyConsensus(w, old(conversation.Value()), id, approved, request)
  {
    if request.StewardElection? {
      return if approved then ElectionAccepted(request.election) else ElectionRejected;
    }
    var evidence := EvidenceOf(request);
    var transforms := approved && HasEvidence(request, ScoreBelowThreshold);
    var target := PendingRemovalTarget(request, approved);
    if target.Some? && conversation.Value().HasApprovedRemoval(target.value) {
      return NoAction;
    }
    if approved && AlreadyAdmitted(w, conversation.Value(), request) {
      return NoAction;
    }
    if transforms {
      conversation.InsertApprovedProposal(id, RemoveMember(target.value));
      conversation.SetUrgentCommitTarget(target.value);
      return UrgentRemoval(target.value);
    }
    if approved && evidence.None? {
      conversation.InsertApprovedProposal(id, request);
    }
    if approved && HasEvidence(request, Deadlock) {
      return RecoveryModeOpened;
    }
    if target.Some? {
      return QueuedRemoval(target.value);
    }
    if !approved && TargetOf(w, request).Some? {
      return RejectedMembership(TargetOf(w, request).value);
    }
    return NoAction;
  }

  /** What a decision asks for next, for every kind of request. */
  lemma FollowUpMeaning(w: World, q: Queues, id: nat, approved: bool, request: Request)
    ensures var f := ApplyConsensus(w, q, id, approved, request).1;
            && (forall e :: f == ElectionAccepted(e) <==> approved && request == StewardElection(e))
            && (f == ElectionRejected <==> !approved && request.StewardElection?)
            && (f == RecoveryModeOpened <==>
                  approved && request.EmergencyCriteria? && request.evidence.Some? && request.evidence.value.violation == Deadlock)
            && (forall t :: f == UrgentRemoval(t) <==>
                  && approved && request.EmergencyCriteria? && request.evidence.Some?
                  && request.evidence.value.violation == ScoreBelowThreshold && request.evidence.value.target == t
                  && forall a :: a in q.approved ==> a.request != RemoveMember(t))
            && (forall t :: f == QueuedRemoval(t) <==>
                  approved && request == RemoveMember(t) && forall a :: a in q.approved ==> a.request != RemoveMember(t))
            && (forall b :: f == RejectedMembership(b) <==>
                  !approved && (request == RemoveMember(b) || (request.MemberInvite? && w.keyOf(request.keyPackage) == Some(b))))
  {
    forall t ensures q.HasApprovedRemoval(t) <==> !forall a :: a in q.approved ==> a.request != RemoveMember(t) {}
  }

  // ── What the approved queue stands for ──

  /** The membership changes the queue has approved, as a set. */
  function ApprovedActions(w: World, approved: seq<Approval>): (r: set<Action>) {
    set a | a in approved && ActionOf(w, a.request).Some? :: ActionOf(w, a.request).value
  }

  /** A request the front ends produce: an invite parses, an emergency has evidence. */
  predicate WellFormed(w: World, request: Request) {
    match request
    case MemberInvite(keyPackage) => w.keyOf(keyPackage).Some?
    case EmergencyCriteria(evidence) => evidence.Some?
    case NoPayload => false
    case _ => true
  }

  /** The change an accepted vote adds to the approved ones. */
  function Gain(w: World, approved: bool, request: Request): (r: set<Action>) {
    if !approved then {}
    else match request
      case MemberInvite(_) => (match ActionOf(w, request) case Some(a) => {a} case None => {})
      case RemoveMember(target) => {Remove(target)}
      case EmergencyCriteria(Some(evidence)) => if evidence.violation == ScoreBelowThreshold then {Remove(evidence.target)} else {}
      case _ => {}
  }

  /** The queue holds only membership changes, each under its own id, no change
      twice; an urgent target has its removal queued. */
  ghost predicate Hygienic(w: World, q: Queues) {
    && (forall a :: a in q.approved ==> ProducesMlsAction(a.request) && ActionOf(w, a.request).Some?)
    && (forall i, j :: 0 <= i < j < |q.approved| ==> q.approved[i].proposalId != q.approved[j].proposalId)
    && (forall i, j :: 0 <= i < j < |q.approved| ==> ActionOf(w, q.approved[i].request) != ActionOf(w, q.approved[j].request))
    && (q.urgent.Some? ==> q.HasApprovedRemoval(q.urgent.value))
  }

  ghost predicate FreshId(q: Queues, id: nat) { forall a :: a in q.approved ==> a.proposalId != id }

  lemma ApprovedActionsHas(w: World, q: Queues)
    ensures forall id :: Remove(id) in ApprovedActions(w, q.approved) <==> q.HasApprovedRemoval(id)
    ensures forall key :: Add(key) in ApprovedActions(w, q.approved) <==> q.HasApprovedInvite(w, key)
  {
    forall id ensures Remove(id) in ApprovedActions(w, q.approved) <==> q.HasApprovedRemoval(id) {
      if q.HasApprovedRemoval(id) {
        var a :| a in q.approved && a.request == RemoveMember(id);
        assert ActionOf(w, a.request) == Some(Remove(id));
      }
    }
    forall key ensures Add(key) in ApprovedActions(w, q.approved) <==> q.HasApprovedInvite(w, key) {
      if q.HasApprovedInvite(w, key) {
        var a :| a in q.approved && a.request.MemberInvite? && w.keyOf(a.request.keyPackage) == Some(key);
        assert ActionOf(w, a.request) == Some(Add(key));
      }
    }
  }

  lemma ApprovedActionsGrow(w: World, s: seq<Approval>, a: Approval)
    ensures ApprovedActions(w, s + [a]) == ApprovedActions(w, s) + match ActionOf(w, a.request) case Some(x) => {x} case None => {}
  {
    var grown := ApprovedActions(w, s + [a]);
    assert a in s + [a];
    forall x | x in ApprovedActions(w, s) ensures x in grown {
      var b :| b in s && ActionOf(w, b.request) == Some(x);
      assert b in s + [a];
    }
  }

  lemma AppendKeepsHygiene(w: World, q: Queues, a: Approval)
    requires Hygienic(w, q) && FreshId(q, a.proposalId) && ProducesMlsAction(a.request)
    requires ActionOf(w, a.request).Some? && ActionOf(w, a.request).value !in ApprovedActions(w, q.approved)
    ensures Hygienic(w, q.(approved := q.approved + [a]))
  {
    var grown := q.(approved := q.approved + [a]);
    forall b | b in grown.approved ensures b in q.approved || b == a {}
    forall b | b in q.approved ensures ActionOf(w, b.request) != ActionOf(w, a.request) {
      assert ActionOf(w, b.request).value in ApprovedActions(w, q.approved);
    }
    forall i, j | 0 <= i < j < |grown.approved|
      ensures grown.approved[i].proposalId != grown.approved[j].proposalId
      ensures ActionOf(w, grown.approved[i].request) != ActionOf(w, grown.approved[j].request)
    {
      assert grown.approved[i] in q.approved;
    }
    if q.urgent.Some? {
      var b :| b in q.approved && b.request == RemoveMember(q.urgent.value);
      assert b in grown.approved;
    }
  }

  /** The entry a decision appends, if any. */
  function Entry(w: World, q: Queues, id: nat, approved: bool, request: Request): (r: seq<Approval>) {
    if Gain(w, approved, request) <= ApprovedActions(w, q.approved) then []
    else match request
      case EmergencyCriteria(Some(evidence)) => [Approval(id, RemoveMember(evidence.target))]
      case _ => [Approval(id, request)]
  }

  lemma OutcomeShape(w: World, q: Queues, id: nat, approved: bool, request: Request)
    requires FreshId(q, id) && WellFormed(w, request)
    ensures var q' := ApplyConsensus(w, q, id, approved, request).0;
            var entry := Entry(w, q, id, approved, request);
            && q' == q.(approved := q.approved + entry, urgent := q'.urgent)
            && (q'.urgent == q.urgent || (q'.urgent.Some? && entry != [] && entry[0].request == RemoveMember(q'.urgent.value)))
  {
    ApprovedActionsHas(w, q);
    var entry := Entry(w, q, id, approved, request);
    if entry == [] {
      assert q.approved + [] == q.approved;
    } else {
      InsertFresh(q.approved, entry[0]);
    }
  }

  lemma EntryFacts(w: World, q: Queues, id: nat, approved: bool, request: Request)
    requires WellFormed(w, request)
    ensures var entry := Entry(w, q, id, approved, request);
            entry != [] ==>
              && entry[0].proposalId == id && ProducesMlsAction(entry[0].request)
              && ActionOf(w, entry[0].request).Some?
              && Gain(w, approved, request) == {ActionOf(w, entry[0].request).value}
              && ActionOf(w, entry[0].request).value !in ApprovedActions(w, q.approved)
  {}

  /** Well-formed decisions under fresh ids append at most one entry, add exactly
      the change they stand for, and keep the queue clean. */
  lemma OutcomeKeepsHygiene(w: World, q: Queues, id: nat, approved: bool, request: Request)
    requires Hygienic(w, q) && FreshId(q, id) && WellFormed(w, request)
    ensures var q' := ApplyConsensus(w, q, id, approved, request).0;
            && Hygienic(w, q')
            && q'.approved == q.approved + Entry(w, q, id, approved, request)
            && ApprovedActions(w, q'.approved) == ApprovedActions(w, q.approved) + Gain(w, approved, request)
            && q' == q.(approved := q'.approved, urgent := q'.urgent)
  {
    OutcomeShape(w, q, id, approved, request);
    EntryFacts(w, q, id, approved, request);
    var entry := Entry(w, q, id, approved, request);
    if entry == [] {
      assert q.approved + [] == q.approved;
    } else {
      ApprovedActionsGrow(w, q.approved, entry[0]);
      AppendKeepsHygiene(w, q, entry[0]);
      assert entry[0] in q.approved + entry;
    }
  }

  /** A decision leaves the queue clean exactly if it was a rejection or its request was
      well-formed: an accepted invite that does not parse, an emergency without evidence
      and an empty request all get in. */
  lemma CleanIffWellFormed(w: World, q: Queues, id: nat, approved: bool, request: Request)
    requires Hygienic(w, q) && FreshId(q, id)
    ensures Hygienic(w, ApplyConsensus(w, q, id, approved, request).0) <==> !approved || WellFormed(w, request)
    ensures approved && !WellFormed(w, request) ==>
              ApplyConsensus(w, q, id, approved, request).0 == q.(approved := q.approved + [Approval(id, request)])
  {
    if WellFormed(w, request) {
      OutcomeKeepsHygiene(w, q, id, approved, request);
    } else if approved {
      MalformedGetsIn(w, q, id, request);
    }
  }

  lemma MalformedGetsIn(w: World, q: Queues, id: nat, request: Request)
    requires FreshId(q, id) && !WellFormed(w, request)
    ensures ApplyConsensus(w, q, id, true, request).0 == q.(approved := q.approved + [Approval(id, request)])
    ensures !Hygienic(w, q.(approved := q.approved + [Approval(id, request)]))
  {
    InsertFresh(q.approved, Approval(id, request));
    assert Approval(id, request) in q.approved + [Approval(id, request)];
  }

  /** Of two below-threshold votes on different members the later one decides who is
      urgent. */
  lemma LaterUrgencyWins(w: World, q: Queues, first: nat, second: nat, a: Evidence, b: Evidence)
    requires a.violation == ScoreBelowThreshold && b.violation == ScoreBelowThreshold && a.target != b.target
    requires !q.HasApprovedRemoval(a.target) && !q.HasApprovedRemoval(b.target)
    requires FreshId(q, first) && FreshId(q, second) && first != second
    ensures var onA, onB := EmergencyCriteria(Some(a)), EmergencyCriteria(Some(b));
            && ApplyConsensus(w, ApplyConsensus(w, q, first, true, onA).0, second, true, onB).0.urgent == Some(b.target)
            && ApplyConsensus(w, ApplyConsensus(w, q, second, true, onB).0, first, true, onA).0.urgent == Some(a.target)
  {
    InsertFresh(q.approved, Approval(first, RemoveMember(a.target)));
    InsertFresh(q.approved, Approval(second, RemoveMember(b.target)));
  }

  /** Of a ban and a below-threshold vote on one member, the vote makes it urgent only if
      it resolves first. */
  lemma UrgencyDependsOnOrder(w: World, q: Queues, ban: nat, emergency: nat, evidence: Evidence)
    requires evidence.violation == ScoreBelowThreshold && !q.HasApprovedRemoval(evidence.target)
    requires FreshId(q, ban) && FreshId(q, emergency) && ban != emergency
    ensures var removal, signal := RemoveMember(evidence.target), EmergencyCriteria(Some(evidence));
            && ApplyConsensus(w, ApplyConsensus(w, q, ban, true, removal).0, emergency, true, signal).0.urgent == q.urgent
            && ApplyConsensus(w, ApplyConsensus(w, q, emergency, true, signal).0, ban, true, removal).0.urgent == Some(evidence.target)
  {
    var first, second := Approval(ban, RemoveMember(evidence.target)), Approval(emergency, RemoveMember(evidence.target));
    InsertFresh(q.approved, first);
    InsertFresh(q.approved, second);
    assert first in q.approved + [first] && second in q.approved + [second];
  }

  lemma RemovedIsFiltered(w: World, q: Queues, gone: set<Id>)
    requires Hygienic(w, q)
    ensures Hygienic(w, q.DropRemovals(gone).(urgent := None))
    ensures forall a :: a in q.DropRemovals(gone).approved <==> a in q.approved && Survives(gone)(a)
  {
    var p := Survives(gone);
    var kept := Keep(p, q.approved);
    forall a ensures a in kept <==> a in q.approved && p(a) { KeepMembers(p, q.approved, a); }
    KeepDistinctBy((a: Approval) => a.proposalId, p, q.approved);
    KeepDistinctBy((a: Approval) => ActionOf(w, a.request), p, q.approved);
  }

  /** Filtering keeps elements apart that differ by `f`. */
  lemma {:induction false} KeepDistinctBy<T, U>(f: T -> U, p: T -> bool, s: seq<T>)
    requires forall i, j :: 0 <= i < j < |s| ==> f(s[i]) != f(s[j])
    ensures forall i, j :: 0 <= i < j < |Keep(p, s)| ==> f(Keep(p, s)[i]) != f(Keep(p, s)[j])
  {
    if s != [] {
      KeepDistinctBy(f, p, s[1..]);
      var rest := Keep(p, s[1..]);
      forall k | 0 <= k < |rest| ensures f(rest[k]) != f(s[0]) {
        KeepMembers(p, s[1..], rest[k]);
        var n :| 0 <= n < |s[1..]| && s[1..][n] == rest[k];
        assert s[n + 1] == rest[k];
      }
    }
  }
}
