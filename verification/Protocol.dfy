/** The vocabulary of the protocol: requests, candidates, MLS actions, scores, and
    the foreign functions the library is built on. */
module Protocol {
  import opened ByteStrings

  // ── MLS ──

  datatype MessageKind = ProposalKind | CommitKind | OtherKind

  /** A membership change: an Add names the joiner by its signature key, a Remove
      names a member by its leaf. */
  datatype Action = Add(key: Bytes) | Remove(id: Id)

  /** What a steward feeds into the commit pipeline. */
  datatype CommitInput = AddKeyPackage(keyPackage: Bytes) | RemoveId(target: Id)

  /** The MLS group: the epoch, who sits on which leaf (by signature key), and the
      commits merged so far. The last one stands for the transcript every member
      of an epoch authenticates. */
  datatype Group = Group(epoch: nat, seats: map<Leaf, Bytes>, history: seq<Bytes>)

  /** What MLS makes of a bundle of proposals and a commit in a given group. */
  datatype Opened =
    | Unreadable
    | Skipped
    | Opened(proposalSenders: seq<Id>, committer: Id, actions: seq<Action>)

  /** Foreign code, fixed but otherwise arbitrary: SHA-256, key-package parsing and
      the cryptographic half of MLS message processing, which depends on nothing
      but the group state and the bytes. */
  datatype World = World(
    conversationId: Bytes,
    commitHash: Bytes -> Bytes,
    stewardHash: (nat, nat, Bytes, Bytes) -> Bytes,
    keyOf: Bytes -> Option<Bytes>,
    messageKind: Bytes -> MessageKind,
    open: (Group, seq<Bytes>, Bytes) -> Opened)

  // ── Requests under vote ──

  datatype Violation =
    | Unspecified
    | BrokenCommitViolation
    | BrokenMlsProposalViolation
    | CensorshipViolation
    | ScoreBelowThreshold
    | Deadlock
    | MisbehavingCommitViolation

  datatype Evidence = Evidence(violation: Violation, target: Id, creator: Id)

  datatype Election = Election(stewards: seq<Id>, epoch: nat, retryRound: nat)

  datatype Request =
    | MemberInvite(keyPackage: Bytes)
    | RemoveMember(target: Id)
    | EmergencyCriteria(evidence: Option<Evidence>)
    | StewardElection(election: Election)
    | NoPayload

  /** One slot of the approved queue. */
  datatype Approval = Approval(proposalId: nat, request: Request)

  predicate ProducesMlsAction(request: Request) {
    request.MemberInvite? || request.RemoveMember?
  }

  predicate IsGovernance(request: Request) {
    request.EmergencyCriteria? || request.StewardElection?
  }

  /** The membership change a request asks for, as a commit would carry it. */
  function ActionOf(w: World, request: Request): (action: Option<Action>) {
    match request
    case MemberInvite(keyPackage) => (match w.keyOf(keyPackage) case Some(key) => Some(Add(key)) case None => None)
    case RemoveMember(target) => Some(Remove(target))
    case _ => None
  }

  // ── Commit candidates ──

  datatype Candidate = Candidate(proposals: seq<Bytes>, commit: Bytes, steward: Id)

  // ── Peer scores ──

  datatype ScoreEvent =
    | BrokenCommit
    | BrokenMlsProposal
    | CensorshipInactivity
    | EmergencyYesCreator
    | EmergencyNoCreator
    | SuccessfulCommit
    | HonestCommitAttempt
    | MisbehavingCommit

  datatype ScoreOp = ScoreOp(member: Id, event: ScoreEvent)

  /** The penalty a violation carries for its target, if any. */
  function TargetScoreOps(violation: Violation, target: Id): (ops: seq<ScoreOp>) {
    match violation
    case BrokenCommitViolation => [ScoreOp(target, BrokenCommit)]
    case BrokenMlsProposalViolation => [ScoreOp(target, BrokenMlsProposal)]
    case CensorshipViolation => [ScoreOp(target, CensorshipInactivity)]
    case MisbehavingCommitViolation => [ScoreOp(target, MisbehavingCommit)]
    case _ => []
  }

  /** Score changes a finished emergency vote implies. */
  function EmergencyScoreOps(request: Request, approved: bool): (ops: seq<ScoreOp>) {
    match request
    case EmergencyCriteria(Some(evidence)) =>
      if approved then [ScoreOp(evidence.creator, EmergencyYesCreator)] + TargetScoreOps(evidence.violation, evidence.target)
      else [ScoreOp(evidence.creator, EmergencyNoCreator)]
    case _ => []
  }

  // ── Dedup window ──

  /** A capacity-bounded set that forgets its oldest element first. */
  datatype Window<T(==)> = Window(items: seq<T>, capacity: nat) {
    predicate Has(item: T) { item in items }

    function Insert(item: T): (r: Window<T>) {
      if item in items then this
      else
        var grown := items + [item];
        this.(items := if |grown| <= capacity then grown else grown[|grown| - capacity..])
    }
  }

  /** Capacity is clamped to at least one. */
  function EmptyWindow<T(==)>(capacity: nat): (r: Window<T>) {
    Window([], if capacity == 0 then 1 else capacity)
  }

  function InsertAll<T(==)>(window: Window<T>, items: seq<T>): (r: Window<T>) {
    if items == [] then window else InsertAll(window, items[..|items| - 1]).Insert(items[|items| - 1])
  }

  /** What was inserted last is always remembered. */
  lemma InsertRemembers<T>(window: Window<T>, item: T)
    requires window.capacity > 0
    ensures window.Insert(item).Has(item) && window.Insert(item).capacity == window.capacity
  {
    var grown := window.items + [item];
    assert grown[|grown| - 1] == item;
  }

  /** After any number of new items a window that started empty holds the newest of them,
      in order, as many as fit: it forgets the oldest first and nothing too early. */
  lemma {:induction false} WindowKeepsNewest<T>(capacity: nat, items: seq<T>)
    requires forall i, j :: 0 <= i < j < |items| ==> items[i] != items[j]
    ensures var r, room := InsertAll(EmptyWindow(capacity), items), if capacity == 0 then 1 else capacity;
            && r.capacity == room
            && r.items == if |items| <= room then items else items[|items| - room..]
  {
    if items != [] {
      var rest, last := items[..|items| - 1], items[|items| - 1];
      WindowKeepsNewest(capacity, rest);
      var r := InsertAll(EmptyWindow(capacity), rest);
      assert items == rest + [last] && last !in r.items;
    }
  }
}
