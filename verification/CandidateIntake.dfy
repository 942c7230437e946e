/** How candidates get into a round: received from a peer, stashed early and
    replayed, or minted here. */
module CandidateIntake {
  import opened ByteStrings
  import opened Sorting
  import opened Protocol
  import opened MlsGroup
  import opened StewardLists
  import opened CommitBuffer
  import opened Queues
  import opened Consensus
  import opened CommitValidation
  import opened CommitApply

  // ── Receiving ──

  datatype Intake =
    | AlreadyCommitted
    | EmptyCandidatePayload
    | EmptyStewardMemberId
    | WireKindMismatch
    | CandidateStashedEarly
    | Received(steward: Id)
    | DuplicateBufferedHash
    | CandidateBufferFull

  predicate WireKindsOk(w: World, msg: Candidate) {
    w.messageKind(msg.commit) == CommitKind && forall p | p in msg.proposals :: w.messageKind(p) == ProposalKind
  }

  /** A candidate worth keeping: not committed yet, complete, and of the right kinds. */
  predicate Admissible(w: World, committed: Window<Bytes>, msg: Candidate) {
    && !committed.Has(w.commitHash(msg.commit))
    && msg.proposals != [] && msg.commit != [] && msg.steward != []
    && WireKindsOk(w, msg)
  }

  function Receive(w: World, g: Group, q: Queues, msg: Candidate): (r: (Queues, Intake)) {
    var cap := |Members(g.seats)|;
    if q.committed.Has(w.commitHash(msg.commit)) then (q, AlreadyCommitted)
    else if msg.proposals == [] || msg.commit == [] then (q, EmptyCandidatePayload)
    else if msg.steward == [] then (q, EmptyStewardMemberId)
    else if !WireKindsOk(w, msg) then (q, WireKindMismatch)
    else if q.approved == [] then (q.Stash(g.epoch, msg, cap), CandidateStashedEarly)
    else (q.(round := q.round.Add(w, msg, false, g.epoch, cap)),
          match q.round.Admit(w, msg, g.epoch, cap)
          case Added => Received(msg.steward)
          case DuplicateHash => DuplicateBufferedHash
          case CapReached => CandidateBufferFull)
  }

  function ReceiveAll(w: World, g: Group, q: Queues, msgs: seq<Candidate>): (r: Queues) {
    if msgs == [] then q else Receive(w, g, ReceiveAll(w, g, q, msgs[..|msgs| - 1]), msgs[|msgs| - 1]).0
  }

  /** Run the stash through reception again. */
  function Replay(w: World, g: Group, q: Queues): (r: Queues) {
    ReceiveAll(w, g, q.(early := []), q.EarlyFor(g.epoch))
  }

  /** Nobody remembers merging it, it is complete and says who it is from, and its parts
      are a commit and proposals. */
  predicate WorthKeeping(w: World, q: Queues, msg: Candidate) {
    && w.commitHash(msg.commit) !in q.committed.items
    && |msg.proposals| > 0 && |msg.commit| > 0 && |msg.steward| > 0
    && w.messageKind(msg.commit) == CommitKind && forall p | p in msg.proposals :: w.messageKind(p) == ProposalKind
  }

  /** A candidate comes to be buffered, last, exactly if it is worth keeping, something is
      approved, no candidate of this epoch has its hash and there are fewer of them than
      members; and to be stashed, last, exactly if nothing is approved, it is worth keeping,
      its commit is not stashed for this epoch and fewer candidates are than members. In
      every other case the candidates of this epoch stay what they are. */
  lemma ReceptionMeaning(w: World, g: Group, q: Queues, msg: Candidate)
    ensures var (q', intake) := Receive(w, g, q, msg);
            var cap, live, early := |Members(g.seats)|, q.round.For(g.epoch), q.EarlyFor(g.epoch);
            var buffers := WorthKeeping(w, q, msg) && q.approved != [] && |live| < cap && forall b | b in live :: b.hash != w.commitHash(msg.commit);
            var stashes := WorthKeeping(w, q, msg) && q.approved == [] && |early| < cap && forall c | c in early :: c.commit != msg.commit;
            && q' == q.(round := q'.round, early := q'.early)
            && (intake.Received? <==> buffers)
            && q'.round.For(g.epoch) == live + (if buffers then [Buffered(msg, w.commitHash(msg.commit), false)] else [])
            && q'.EarlyFor(g.epoch) == early + (if stashes then [msg] else [])
  {
    hide Members, Candidates, WorthKeeping, Receive;
    var cap := |Members(g.seats)|;
    WorthIsAdmissible(w, q, msg);
    ReceiveByWorth(w, g, q, msg);
    AddMeaning(w, q.round, msg, g.epoch, cap);
    StashMeaning(q, g.epoch, msg, cap);
    StashKeepsRound(q, g.epoch, msg, cap);
  }

  lemma WorthIsAdmissible(w: World, q: Queues, msg: Candidate)
    ensures WorthKeeping(w, q, msg) <==> Admissible(w, q.committed, msg)
  {}

  lemma ReceiveByWorth(w: World, g: Group, q: Queues, msg: Candidate)
    ensures var (q', intake) := Receive(w, g, q, msg);
            var cap := |Members(g.seats)|;
            if !Admissible(w, q.committed, msg) then q' == q && !intake.Received?
            else if q.approved == [] then q' == q.Stash(g.epoch, msg, cap) && !intake.Received?
            else q' == q.(round := q.round.Add(w, msg, false, g.epoch, cap)) && (intake.Received? <==> q.round.Admit(w, msg, g.epoch, cap) == Added)
  {
    hide Members;
  }

  lemma StashKeepsRound(q: Queues, epoch: nat, msg: Candidate, cap: nat)
    ensures var q' := q.Stash(epoch, msg, cap); q' == q.(early := q'.early)
  {}

  lemma AddMeaning(w: World, r: CommitRound, msg: Candidate, epoch: nat, cap: nat)
    ensures var adds := |r.For(epoch)| < cap && forall b | b in r.For(epoch) :: b.hash != w.commitHash(msg.commit);
            && r.Add(w, msg, false, epoch, cap).For(epoch) == r.For(epoch) + (if adds then [Buffered(msg, w.commitHash(msg.commit), false)] else [])
            && (r.Admit(w, msg, epoch, cap) == Added <==> adds)
  {
    assert r.At(epoch).candidates == r.For(epoch);
  }

  lemma StashMeaning(q: Queues, epoch: nat, msg: Candidate, cap: nat)
    ensures q.Stash(epoch, msg, cap).EarlyFor(epoch)
         == q.EarlyFor(epoch) + (if (forall c :: c in q.EarlyFor(epoch) ==> c.commit != msg.commit) && |q.EarlyFor(epoch)| < cap then [msg] else [])
  {
    var kept := Keep(OfEpoch(epoch), q.early);
    forall e | e in kept ensures OfEpoch(epoch)(e) { KeepMembers(OfEpoch(epoch), q.early, e); }
    KeepAll(OfEpoch(epoch), kept);
    KeepAll(OfEpoch(epoch), kept + [Early(epoch, msg)]);
    var cs := Candidates(kept);
    assert forall i :: 0 <= i < |kept| ==> cs[i] == kept[i].candidate && kept[i] in kept && cs[i] in cs;
    assert Candidates(kept + [Early(epoch, msg)]) == cs + [msg];
  }

  method ReceiveCommitCandidate(w: World, conversation: ConversationQueues, mls: MlsService,
        msg: Candidate) returns (r: Intake)
    modifies conversation, conversation.commitRound
    ensures (conversation.Value(), r) == Receive(w, mls.group, old(conversation.Value()), msg)
  {
    if conversation.committedBatchHashes.Has(w.commitHash(msg.commit)) {
      return AlreadyCommitted;
    }
    if msg.proposals == [] || msg.commit == [] {
      return EmptyCandidatePayload;
    }
    if msg.steward == [] {
      return EmptyStewardMemberId;
    }
    if !WireKindsOk(w, msg) {
      return WireKindMismatch;
    }
    var epoch, cap := mls.group.epoch, |Members(mls.group.seats)|;
    if conversation.approvedProposals == [] {
      conversation.StashEarlyCandidate(epoch, msg, cap);
      return CandidateStashedEarly;
    }
    var outcome := conversation.commitRound.Add(w, msg, false, epoch, cap);
    match outcome
    case Added => return Received(msg.steward);
    case DuplicateHash => return DuplicateBufferedHash;
    case CapReached => return CandidateBufferFull;
  }

  method ReplayEarlyCandidates(w: World, conversation: ConversationQueues, mls: MlsService)
    modifies conversation, conversation.commitRound
    ensures conversation.Value() == Replay(w, mls.group, old(conversation.Value()))
  {
    hide Receive;
    ghost var q := conversation.Value().(early := []);
    var early := conversation.TakeEarlyCandidates(mls.group.epoch);
    for i := 0 to |early|
      invariant conversation.Value() == ReceiveAll(w, mls.group, q, early[..i])
    {
      assert early[..i + 1][..i] == early[..i];
      var _ := ReceiveCommitCandidate(w, conversation, mls, early[i]);
    }
    assert early[..|early|] == early;
  }

  // ── Minting ──

  datatype MintError =
    | NotASteward
    | NoProposals
    | UnexpectedNonMlsProposals(ids: seq<nat>)
    | InvalidKeyPackage
    | InvalidConversationUpdateRequest
    | LibraryError

  predicate KeySeated(seats: Seats, key: Bytes) { exists leaf | leaf in seats :: seats[leaf] == key }

  /** What one approved entry contributes to the batch. */
  function InputOf(w: World, seats: Seats, urgent: Option<Id>,
        request: Request): (r: Result<seq<CommitInput>, MintError>) {
    match request
    case MemberInvite(keyPackage) =>
      if urgent.Some? then Ok([])
      else (match w.keyOf(keyPackage)
            case None => Err(InvalidKeyPackage)
            case Some(key) => Ok(if KeySeated(seats, key) then [] else [AddKeyPackage(keyPackage)]))
    case RemoveMember(target) =>
      if urgent.Some? && target != urgent.value then Ok([])
      else Ok(if target in SeatIds(seats) then [RemoveId(target)] else [])
    case _ => Err(InvalidConversationUpdateRequest)
  }

  function SelectInputs(w: World, seats: Seats, urgent: Option<Id>,
        entries: seq<Approval>): (r: Result<seq<CommitInput>, MintError>) {
    if entries == [] then Ok([])
    else match SelectInputs(w, seats, urgent, entries[..|entries| - 1])
      case Err(e) => Err(e)
      case Ok(earlier) =>
        match InputOf(w, seats, urgent, entries[|entries| - 1].request)
        case Err(e) => Err(e)
        case Ok(more) => Ok(earlier + more)
  }

  function GovernanceIds(approved: seq<Approval>): (ids: seq<nat>) {
    MapSeq((a: Approval) => a.proposalId, Keep((a: Approval) => IsGovernance(a.request), approved))
  }

  function Batch(approved: seq<Approval>, kMax: nat): (r: seq<Approval>) {
    if kMax <= |approved| then approved[..kMax] else approved
  }

  /** What would go into our commit; nothing when there is nothing we may commit. */
  function MintInputs(w: World, recovery: bool, kMax: nat, g: Group, q: Queues, stewards: Stewards,
        self: Id): (r: Result<seq<CommitInput>, MintError>) {
    if !stewards.IsSteward(self) && !recovery then Err(NotASteward)
    else if q.approved == [] then Err(NoProposals)
    else if q.HasApprovedRemoval(self) then Ok([])
    else if GovernanceIds(q.approved) != [] then Err(UnexpectedNonMlsProposals(GovernanceIds(q.approved)))
    else SelectInputs(w, g.seats, q.urgent, Batch(q.approved, kMax))
  }

  /** A commit the MLS library minted. */
  datatype Mint = Mint(art: Artifacts, actions: seq<Action>)

  /** If the library answers, it keeps its promise. */
  predicate MintPromise(w: World, mls: Mls, self: Id, inputs: seq<CommitInput>, minted: Option<Mint>) {
    minted.Some? ==> Minted(w, mls.group, self, inputs, minted.value.art, minted.value.actions)
  }

  function CandidateOf(self: Id, art: Artifacts): (c: Candidate) { Candidate(art.proposals, art.commit, self) }

  /** `minted` is the library's answer; while a commit of ours is pending it has none. */
  function BuildLocal(w: World, recovery: bool, kMax: nat, s: RoundState, stewards: Stewards, self: Id,
        minted: Option<Mint>)
    : (r: (RoundState, Result<Option<Candidate>, MintError>))
  {
    match MintInputs(w, recovery, kMax, s.mls.group, s.queues, stewards, self)
    case Err(e) => (s, Err(e))
    case Ok(inputs) =>
      if inputs == [] then (s, Ok(None))
      else if minted.None? || s.mls.own.Some? then (s, Err(LibraryError))
      else
        var msg := CandidateOf(self, minted.value.art);
        (RoundState(s.mls.(own := Some(Pending(msg.commit, minted.value.actions))),
                    s.queues.(round := s.queues.round.Add(w, msg, true, s.mls.group.epoch, |Members(s.mls.group.seats)|))),
         Ok(Some(msg)))
  }

  /** Walk the first `kMax` approved entries in arrival order and collect inputs. */
  method CollectInputs(w: World, kMax: nat, seats: Seats, urgent: Option<Id>, approved: seq<Approval>)
    returns (r: Result<seq<CommitInput>, MintError>)
    ensures r == SelectInputs(w, seats, urgent, Batch(approved, kMax))
  {
    var batch := Batch(approved, kMax);
    var updates: seq<CommitInput> := [];
    for i := 0 to |batch|
      invariant SelectInputs(w, seats, urgent, batch[..i]) == Ok(updates)
    {
      assert batch[..i + 1][..i] == batch[..i];
      match InputOf(w, seats, urgent, batch[i].request) {
        case Err(e) =>
          SelectInputsStops(w, seats, urgent, batch, i + 1, e);
          return Err(e);
        case Ok(more) => updates := updates + more;
      }
    }
    assert batch[..|batch|] == batch;
    return Ok(updates);
  }

  lemma {:induction false} SelectInputsStops(w: World, seats: Seats, urgent: Option<Id>, entries: seq<Approval>,
        n: nat, e: MintError)
    requires n <= |entries| && SelectInputs(w, seats, urgent, entries[..n]) == Err(e)
    ensures SelectInputs(w, seats, urgent, entries) == Err(e)
    decreases |entries| - n
  {
    if n == |entries| {
      assert entries[..n] == entries;
    } else {
      assert entries[..n + 1][..n] == entries[..n];
      SelectInputsStops(w, seats, urgent, entries, n + 1, e);
    }
  }

  /** Build our own candidate from the approved queue, mint its commit and buffer it. */
  method BuildLocalCandidate(w: World, recovery: bool, kMax: nat, conversation: ConversationQueues, mls: MlsService,
                             stewardList: StewardListService, self: Id, minted: Option<Mint>)
    returns (r: Result<Option<Candidate>, MintError>)
    modifies conversation.commitRound, mls`own
    ensures (RoundState(mls.State(), conversation.Value()), r)
         == BuildLocal(w, recovery, kMax, old(RoundState(mls.State(), conversation.Value())), stewardList.State(), self, minted)
  {
    if !stewardList.State().IsSteward(self) && !recovery {
      return Err(NotASteward);
    }
    if conversation.approvedProposals == [] {
      return Err(NoProposals);
    }
    if conversation.Value().HasApprovedRemoval(self) {
      return Ok(None);
    }
    var governance := GovernanceIds(conversation.approvedProposals);
    if governance != [] {
      return Err(UnexpectedNonMlsProposals(governance));
    }
    var inputs := CollectInputs(w, kMax, mls.group.seats, conversation.urgentCommitTarget, conversation.approvedProposals);
    if inputs.Err? {
      return Err(inputs.error);
    }
    if inputs.value == [] {
      return Ok(None);
    }
    if minted.None? || mls.own.Some? {
      return Err(LibraryError);
    }
    var Mint(art, actions) := minted.value;
    mls.CreateCommitCandidate(art, actions);
    var msg := CandidateOf(self, art);
    var _ := conversation.commitRound.Add(w, msg, true, mls.group.epoch, |Members(mls.group.seats)|);
    return Ok(Some(msg));
  }

  // ── Minting only skips entries ──

  lemma {:induction false} InputActionsConcat(w: World, a: seq<CommitInput>, b: seq<CommitInput>)
    ensures InputActions(w, a + b) == InputActions(w, a) + InputActions(w, b)
  {
    if a == [] {
      assert a + b == b;
    } else {
      assert (a + b)[1..] == a[1..] + b;
      InputActionsConcat(w, a[1..], b);
    }
  }

  /** A change that would still do something, and that an urgent target lets through. */
  predicate Effective(seats: Seats, urgent: Option<Id>, a: Action) {
    match a
    case Add(key) => urgent.None? && !KeySeated(seats, key)
    case Remove(id) => id in SeatIds(seats) && (urgent.None? || id == urgent.value)
  }

  function EffectiveActions(w: World, seats: Seats, urgent: Option<Id>, entries: seq<Approval>): (r: set<Action>) {
    set a | a in ApprovedActions(w, entries) && Effective(seats, urgent, a)
  }

  lemma OneInput(w: World, input: CommitInput)
    ensures InputActions(w, [input]) == match InputAction(w, input) case Some(a) => [a] case None => []
  {
    assert [input][1..] == [];
  }

  lemma InputIsEffective(w: World, seats: Seats, urgent: Option<Id>, request: Request)
    requires InputOf(w, seats, urgent, request).Ok?
    ensures ActionSet(InputActions(w, InputOf(w, seats, urgent, request).value))
         == match ActionOf(w, request) case Some(a) => (if Effective(seats, urgent, a) then {a} else {}) case None => {}
  {
    hide SeatIds, KeySeated;
    var inputs := InputOf(w, seats, urgent, request).value;
    if inputs != [] {
      OneInput(w, inputs[0]);
    }
  }

  /** What goes into a commit: exactly the approved changes that would still do
      something, restricted to the urgent target if there is one. */
  lemma {:induction false} MintedExactly(w: World, seats: Seats, urgent: Option<Id>, entries: seq<Approval>)
    requires SelectInputs(w, seats, urgent, entries).Ok?
    ensures ActionSet(InputActions(w, SelectInputs(w, seats, urgent, entries).value)) == EffectiveActions(w, seats, urgent, entries)
  {
    hide InputOf, EffectiveActions, InputActions;
    if entries == [] {
      NothingEffective(w, seats, urgent);
    } else {
      var rest, last := entries[..|entries| - 1], entries[|entries| - 1];
      MintedExactly(w, seats, urgent, rest);
      var earlier := SelectInputs(w, seats, urgent, rest).value;
      var more := InputOf(w, seats, urgent, last.request).value;
      InputActionsConcat(w, earlier, more);
      ActionSetConcat(InputActions(w, earlier), InputActions(w, more));
      assert entries == rest + [last];
      EffectiveGrow(w, seats, urgent, rest, last);
      InputIsEffective(w, seats, urgent, last.request);
    }
  }

  lemma NothingEffective(w: World, seats: Seats, urgent: Option<Id>)
    ensures EffectiveActions(w, seats, urgent, []) == {} == ActionSet(InputActions(w, []))
  {}

  lemma ActionSetConcat(a: seq<Action>, b: seq<Action>)
    ensures ActionSet(a + b) == ActionSet(a) + ActionSet(b)
  {}

  lemma EffectiveGrow(w: World, seats: Seats, urgent: Option<Id>, s: seq<Approval>, a: Approval)
    ensures EffectiveActions(w, seats, urgent, s + [a]) == EffectiveActions(w, seats, urgent, s)
              + match ActionOf(w, a.request) case Some(x) => (if Effective(seats, urgent, x) then {x} else {}) case None => {}
  {
    hide Effective, ActionOf, ApprovedActions;
    ApprovedActionsGrow(w, s, a);
  }

  /** The entry goes into the batch: it parses, is not held back by an urgent target,
      and still changes the group. */
  predicate Contributes(w: World, seats: Seats, urgent: Option<Id>, request: Request) {
    InputOf(w, seats, urgent, request).Ok? && InputOf(w, seats, urgent, request).value != []
  }

  lemma {:induction false} BatchLength(w: World, seats: Seats, urgent: Option<Id>, entries: seq<Approval>)
    requires SelectInputs(w, seats, urgent, entries).Ok?
    ensures |SelectInputs(w, seats, urgent, entries).value| <= |entries|
    ensures |SelectInputs(w, seats, urgent, entries).value| == |entries|
            <==> forall a :: a in entries ==> Contributes(w, seats, urgent, a.request)
  {
    if entries != [] {
      var rest, last := entries[..|entries| - 1], entries[|entries| - 1];
      assert entries == rest + [last];
      BatchLength(w, seats, urgent, rest);
      assert |InputOf(w, seats, urgent, last.request).value| <= 1;
    }
  }

  /** What a steward mints survives the strict count filter exactly if the whole queue
      fits into one batch and every entry contributes. An urgent target beside other
      approvals, or a queue longer than the batch limit, mints a commit that no strict
      round will take. */
  lemma MintSurvivesStrictFilterIff(w: World, kMax: nat, seats: Seats, urgent: Option<Id>, approved: seq<Approval>)
    requires forall a :: a in approved ==> ProducesMlsAction(a.request)
    requires SelectInputs(w, seats, urgent, Batch(approved, kMax)).Ok?
    ensures |SelectInputs(w, seats, urgent, Batch(approved, kMax)).value| == MlsCount(approved)
            <==> |approved| <= kMax && forall a :: a in approved ==> Contributes(w, seats, urgent, a.request)
  {
    hide Contributes;
    MlsCountAll(approved);
    BatchLength(w, seats, urgent, Batch(approved, kMax));
    if |approved| == kMax { assert approved[..kMax] == approved; }
  }

  lemma {:induction false} MlsCountAll(approved: seq<Approval>)
    requires forall a :: a in approved ==> ProducesMlsAction(a.request)
    ensures MlsCount(approved) == |approved|
  {
    if approved != [] {
      assert approved[0] in approved && forall a :: a in approved[1..] ==> a in approved;
      MlsCountAll(approved[1..]);
    }
  }

  /** The entry cannot be committed at all. */
  predicate Unmintable(w: World, urgent: Option<Id>, request: Request) {
    request.NoPayload? || IsGovernance(request) || (request.MemberInvite? && urgent.None? && w.keyOf(request.keyPackage).None?)
  }

  lemma {:induction false} SelectFailsIff(w: World, seats: Seats, urgent: Option<Id>, entries: seq<Approval>)
    ensures SelectInputs(w, seats, urgent, entries).Err? <==> exists a :: a in entries && Unmintable(w, urgent, a.request)
  {
    if entries != [] {
      var rest, last := entries[..|entries| - 1], entries[|entries| - 1];
      assert entries == rest + [last];
      SelectFailsIff(w, seats, urgent, rest);
      assert InputOf(w, seats, urgent, last.request).Err? <==> Unmintable(w, urgent, last.request);
    }
  }

  lemma GovernanceShows(approved: seq<Approval>)
    ensures GovernanceIds(approved) != [] <==> exists a :: a in approved && IsGovernance(a.request)
  {
    var p := (a: Approval) => IsGovernance(a.request);
    var kept := Keep((a: Approval) => IsGovernance(a.request), approved);
    forall a ensures a in kept <==> a in approved && IsGovernance(a.request) {
      KeepMembers((a: Approval) => IsGovernance(a.request), approved, a);
    }
    HasFirst(kept);
  }

  /** Past the gates, minting fails exactly if a governance entry is queued anywhere or
      an unmintable one sits inside the batch. */
  lemma MintFailsIff(w: World, recovery: bool, kMax: nat, g: Group, q: Queues, stewards: Stewards, self: Id)
    requires (stewards.IsSteward(self) || recovery) && q.approved != [] && !q.HasApprovedRemoval(self)
    ensures MintInputs(w, recovery, kMax, g, q, stewards, self).Err?
            <==> (exists a :: a in q.approved && IsGovernance(a.request))
                 || (exists a :: a in Batch(q.approved, kMax) && Unmintable(w, q.urgent, a.request))
  {
    hide InputOf;
    GovernanceShows(q.approved);
    SelectFailsIff(w, g.seats, q.urgent, Batch(q.approved, kMax));
  }

  /** Once a malformed request is accepted and fits into the batch, no steward that may
      commit the queue at all can mint from it any more. */
  lemma MalformedRequestStallsMints(w: World, q: Queues, id: nat, request: Request, recovery: bool, kMax: nat, g: Group,
        stewards: Stewards, self: Id)
    requires FreshId(q, id) && !WellFormed(w, request) && q.urgent.None? && |q.approved| < kMax
    requires (stewards.IsSteward(self) || recovery) && !q.HasApprovedRemoval(self)
    ensures MintInputs(w, recovery, kMax, g, ApplyConsensus(w, q, id, true, request).0, stewards, self).Err?
  {
    var entry := Approval(id, request);
    var stuck := q.(approved := q.approved + [entry]);
    MalformedGetsIn(w, q, id, request);
    assert entry in stuck.approved;
    assert Batch(stuck.approved, kMax) == stuck.approved;
    assert !stuck.HasApprovedRemoval(self);
    MintFailsIff(w, recovery, kMax, g, stuck, stewards, self);
  }

  /** A member mints a candidate exactly if it is listed or in recovery, no removal of it
      and no governance entry is queued, every entry of the batch can be committed and one
      of them still does something, the library answers, and no commit of its own is
      pending. The batch is what fits of the queue, oldest first. */
  lemma MintsIff(w: World, recovery: bool, kMax: nat, s: RoundState, stewards: Stewards, self: Id, minted: Option<Mint>)
    ensures var (s', r) := BuildLocal(w, recovery, kMax, s, stewards, self, minted);
            var batch := if |s.queues.approved| <= kMax then s.queues.approved else s.queues.approved[..kMax];
            && (r.Ok? && r.value.Some? <==>
                  && (recovery || (stewards.list.Some? && self in stewards.list.value.members))
                  && (forall a :: a in s.queues.approved ==> a.request != RemoveMember(self) && !IsGovernance(a.request))
                  && (forall a :: a in batch ==> !Unmintable(w, s.queues.urgent, a.request))
                  && (exists a :: a in batch && Contributes(w, s.mls.group.seats, s.queues.urgent, a.request))
                  && minted.Some? && s.mls.own.None?)
            && (r.Ok? && r.value.Some? ==>
                  && r.value.value == Candidate(minted.value.art.proposals, minted.value.art.commit, self)
                  && s'.mls == s.mls.(own := Some(Pending(minted.value.art.commit, minted.value.actions)))
                  && s'.queues == s.queues.(round := s'.queues.round))
            && (r.Err? || r.value.None? ==> s' == s)
  {
    hide InputOf, Contributes, Unmintable, Members;
    var q, batch := s.queues, Batch(s.queues.approved, kMax);
    assert batch == if |q.approved| <= kMax then q.approved else q.approved[..kMax];
    GovernanceShows(q.approved);
    SelectFailsIff(w, s.mls.group.seats, q.urgent, batch);
    SelectsSomethingIff(w, s.mls.group.seats, q.urgent, batch);
    if a :| a in batch && Contributes(w, s.mls.group.seats, q.urgent, a.request) { assert q.approved != []; }
    assert q.HasApprovedRemoval(self) <==> !forall a :: a in q.approved ==> a.request != RemoveMember(self);
  }

  lemma {:induction false} SelectsSomethingIff(w: World, seats: Seats, urgent: Option<Id>, entries: seq<Approval>)
    ensures var r := SelectInputs(w, seats, urgent, entries);
            r.Ok? ==> (r.value != [] <==> exists a :: a in entries && Contributes(w, seats, urgent, a.request))
  {
    hide InputOf;
    if entries != [] {
      var rest, last := entries[..|entries| - 1], entries[|entries| - 1];
      assert entries == rest + [last];
      SelectsSomethingIff(w, seats, urgent, rest);
    }
  }

  /** A minted candidate holds no more changes than the batch limit. */
  lemma MintsNoMoreThanLimit(w: World, recovery: bool, kMax: nat, s: RoundState, stewards: Stewards, self: Id,
        minted: Option<Mint>)
    requires var inputs := MintInputs(w, recovery, kMax, s.mls.group, s.queues, stewards, self);
             inputs.Ok? && inputs.value != [] ==> MintPromise(w, s.mls, self, inputs.value, minted)
    ensures var r := BuildLocal(w, recovery, kMax, s, stewards, self, minted).1;
            r.Ok? && r.value.Some? ==> 0 < |r.value.value.proposals| <= kMax
  {
    hide Stage, InputOf;
    var inputs := MintInputs(w, recovery, kMax, s.mls.group, s.queues, stewards, self);
    if inputs.Ok? && inputs.value != [] {
      BatchLength(w, s.mls.group.seats, s.queues.urgent, Batch(s.queues.approved, kMax));
    }
  }

  lemma PrefixApproved(w: World, approved: seq<Approval>, kMax: nat)
    ensures ApprovedActions(w, Batch(approved, kMax)) <= ApprovedActions(w, approved)
  {}

  /** Minting leaves our candidate and our pending commit matched: the invariant the
      unvalidated own path relies on. */
  lemma MintKeepsLocalOk(w: World, recovery: bool, kMax: nat, s: RoundState, stewards: Stewards, self: Id,
        minted: Option<Mint>)
    requires LocalOk(w, s, self)
    requires var inputs := MintInputs(w, recovery, kMax, s.mls.group, s.queues, stewards, self);
             inputs.Ok? && inputs.value != [] ==> MintPromise(w, s.mls, self, inputs.value, minted)
    ensures LocalOk(w, BuildLocal(w, recovery, kMax, s, stewards, self, minted).0, self)
  {
    hide Stage;
    var inputs := MintInputs(w, recovery, kMax, s.mls.group, s.queues, stewards, self);
    var after := BuildLocal(w, recovery, kMax, s, stewards, self, minted).0;
    if after != s {
      MintedExactly(w, s.mls.group.seats, s.queues.urgent, Batch(s.queues.approved, kMax));
      PrefixApproved(w, s.queues.approved, kMax);
      var msg := CandidateOf(self, minted.value.art);
      forall c | c in after.queues.round.For(s.mls.group.epoch) && c.isLocal ensures IsOwn(w, after, self, c) {
        assert c in s.queues.round.For(s.mls.group.epoch) || c == Buffered(msg, w.commitHash(msg.commit), true);
      }
    }
  }
}
