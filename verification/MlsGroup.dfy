/** The abstract MLS group and the service that wraps it: two commit slots, the
    stage/merge/discard pipeline, and the membership delta of a merge. */
module MlsGroup {
  import opened ByteStrings
  import opened Sorting
  import opened Protocol

  type Seats = map<Leaf, Bytes>

  function SeatIds(seats: Seats): (ids: set<Id>) { set leaf | leaf in seats :: MemberIdOf(leaf) }

  lemma SeatIdsHas(seats: Seats, leaf: Leaf)
    ensures MemberIdOf(leaf) in SeatIds(seats) <==> leaf in seats
  {
    if MemberIdOf(leaf) in SeatIds(seats) {
      var other: Leaf :| other in seats && MemberIdOf(other) == MemberIdOf(leaf);
      MemberIdInjective(leaf, other);
    }
  }

  /** The seated leaves at or after `from`, left to right. */
  function LeavesFrom(seats: Seats, from: nat): (r: seq<Leaf>)
    decreases |seats|, 0x1_0000_0000 - from
  {
    if from >= 0x1_0000_0000 then []
    else (if from in seats then [from] else []) + LeavesFrom(seats, from + 1)
  }

  /** All current members, in leaf order. */
  function Members(seats: Seats): (r: seq<Id>) { MapSeq(MemberIdOf, LeavesFrom(seats, 0)) }

  lemma {:induction false} LeavesFromFacts(seats: Seats, from: nat)
    ensures forall l: Leaf :: l in LeavesFrom(seats, from) <==> l in seats && from <= l
    ensures Distinct(LeavesFrom(seats, from))
    decreases |seats|, 0x1_0000_0000 - from
  {
    if from < 0x1_0000_0000 {
      LeavesFromFacts(seats, from + 1);
    }
  }

  lemma MembersHas(seats: Seats, id: Id)
    ensures id in Members(seats) <==> id in SeatIds(seats)
  {
    var leaves := LeavesFrom(seats, 0);
    LeavesFromFacts(seats, 0);
    if id in Members(seats) {
      var i :| 0 <= i < |leaves| && MemberIdOf(leaves[i]) == id;
      assert leaves[i] in leaves;
    }
    if id in SeatIds(seats) {
      var leaf: Leaf :| leaf in seats && MemberIdOf(leaf) == id;
      var i :| 0 <= i < |leaves| && leaves[i] == leaf;
      assert Members(seats)[i] == id;
    }
  }

  lemma MembersDistinct(seats: Seats)
    ensures Distinct(Members(seats))
  {
    var leaves := LeavesFrom(seats, 0);
    LeavesFromFacts(seats, 0);
    forall i, j | 0 <= i < j < |leaves| ensures Members(seats)[i] != Members(seats)[j] {
      MemberIdInjective(leaves[i], leaves[j]);
    }
  }

  ghost predicate Ascending(leaves: seq<Leaf>) { forall i, j :: 0 <= i < j < |leaves| ==> leaves[i] < leaves[j] }

  lemma {:induction false} LeavesAscend(seats: Seats, from: nat)
    ensures Ascending(LeavesFrom(seats, from))
    decreases |seats|, 0x1_0000_0000 - from
  {
    if from < 0x1_0000_0000 {
      LeavesAscend(seats, from + 1);
      LeavesFromFacts(seats, from + 1);
      var rest := LeavesFrom(seats, from + 1);
      forall k | 0 <= k < |rest| ensures from < rest[k] { assert rest[k] in rest; }
    }
  }

  /** They are named in the order of their leaves. */
  lemma MembersAscend(seats: Seats, i: nat, j: nat)
    requires i < j < |Members(seats)|
    ensures Less(Members(seats)[i], Members(seats)[j])
  {
    hide MemberIdOf, Less, LeavesFrom;
    var leaves := LeavesFrom(seats, 0);
    LeavesAscend(seats, 0);
    assert leaves[i] < leaves[j];
    assert Members(seats)[i] == MemberIdOf(leaves[i]) && Members(seats)[j] == MemberIdOf(leaves[j]);
    MemberIdKeepsOrder(leaves[i], leaves[j]);
  }

  // ── What a commit does to the tree ──

  /** The first unoccupied leaf at or after `from`. */
  function FirstBlank(seats: Seats, from: nat): (leaf: Option<Leaf>)
    decreases |seats|, 0x1_0000_0000 - from
  {
    if from >= 0x1_0000_0000 then None
    else if from !in seats then Some(from)
    else FirstBlank(seats, from + 1)
  }

  lemma {:induction false} FirstBlankIsLeftmost(seats: Seats, from: nat)
    ensures match FirstBlank(seats, from)
            case Some(leaf) => from <= leaf && leaf !in seats && forall l: Leaf :: from <= l < leaf ==> l in seats
            case None => forall l: Leaf :: from <= l ==> l in seats
    decreases |seats|, 0x1_0000_0000 - from
  {
    if from < 0x1_0000_0000 && from in seats {
      FirstBlankIsLeftmost(seats, from + 1);
    }
  }

  /** Removes come first (section 12.3 of RFC 9420)... */
  function Vacate(seats: Seats, actions: seq<Action>): (r: Seats) {
    map leaf | leaf in seats && Remove(MemberIdOf(leaf)) !in actions :: seats[leaf]
  }

  /** ...then every Add takes the leftmost blank leaf (section 12.1.1 of RFC 9420). */
  function SeatJoiners(seats: Seats, actions: seq<Action>): (r: Seats)
    decreases |actions|
  {
    if actions == [] then seats
    else match actions[0]
      case Remove(_) => SeatJoiners(seats, actions[1..])
      case Add(key) =>
        match FirstBlank(seats, 0)
        case None => seats
        case Some(leaf) => SeatJoiners(seats[leaf := key], actions[1..])
  }

  function ApplyActions(seats: Seats, actions: seq<Action>): (r: Seats) {
    SeatJoiners(Vacate(seats, actions), actions)
  }

  function Merge(g: Group, commit: Bytes, actions: seq<Action>): (r: Group) {
    Group(g.epoch + 1, ApplyActions(g.seats, actions), g.history + [commit])
  }

  function Joiners(actions: seq<Action>): (r: seq<Action>) { Keep((a: Action) => a.Add?, actions) }
  function Leavers(actions: seq<Action>): (r: seq<Action>) { Keep((a: Action) => a.Remove?, actions) }

  /** The rules of section 12.2 of RFC 9420 that a commit must meet, whoever checks
      them: no change twice, only members removed and never the committer, nobody
      added under a key already seated unless that seat is vacated, and room for
      everyone. */
  predicate ValidCommit(seats: Seats, committer: Id, actions: seq<Action>) {
    && committer in SeatIds(seats)
    && (forall i, j | 0 <= i < j < |actions| :: actions[i] != actions[j])
    && (forall a | a in actions :: a.Remove? ==> a.id in SeatIds(seats) && a.id != committer)
    && (forall a | a in actions :: a.Add? ==>
          forall leaf | leaf in seats :: seats[leaf] == a.key ==> Remove(MemberIdOf(leaf)) in actions)
    && |seats| + |Joiners(actions)| <= 0x1_0000_0000 + |Leavers(actions)|
  }

  datatype StageResult =
    | Staged(committer: Id, actions: seq<Action>)
    | BundleSenderMismatch(sender: Id)
    | Aborted
    | Failed

  /** Staging: open the bundle, check it against the tree, and insist that every
      bundled proposal comes from the committer. */
  function Stage(w: World, g: Group, proposals: seq<Bytes>, commit: Bytes): (r: StageResult) {
    match w.open(g, proposals, commit)
    case Unreadable => Failed
    case Skipped => Aborted
    case Opened(senders, committer, actions) =>
      if !ValidCommit(g.seats, committer, actions) then Failed
      else if exists s | s in senders :: s != committer then BundleSenderMismatch(committer)
      else Staged(committer, actions)
  }

  // ── The delta of a merge ──

  /** Who a merge seated and who it vacated, by leaf. */
  datatype Delta = Delta(added: Seats, removed: Seats)

  function RemovedMembersOf(seats: Seats, actions: seq<Action>): (r: Seats) {
    map leaf | leaf in seats && Remove(MemberIdOf(leaf)) in actions :: seats[leaf]
  }

  function DeltaFrom(before: set<Leaf>, removed: Seats, after: Seats): (d: Delta) {
    Delta(map leaf | leaf in after && (leaf !in before || leaf in removed) :: after[leaf], removed)
  }

  function DeltaOf(seats: Seats, actions: seq<Action>): (d: Delta) {
    DeltaFrom(seats.Keys, RemovedMembersOf(seats, actions), ApplyActions(seats, actions))
  }

  lemma {:induction false} SeatJoinersKeeps(seats: Seats, actions: seq<Action>)
    ensures forall leaf :: leaf in seats ==> leaf in SeatJoiners(seats, actions) && SeatJoiners(seats, actions)[leaf] == seats[leaf]
    decreases |actions|
  {
    if actions != [] {
      match actions[0]
      case Remove(_) => SeatJoinersKeeps(seats, actions[1..]);
      case Add(key) =>
        FirstBlankIsLeftmost(seats, 0);
        match FirstBlank(seats, 0)
        case None =>
        case Some(leaf) => SeatJoinersKeeps(seats[leaf := key], actions[1..]);
    }
  }

  lemma RemovedIds(seats: Seats, actions: seq<Action>)
    ensures SeatIds(RemovedMembersOf(seats, actions)) == (set a | a in actions && a.Remove? && a.id in SeatIds(seats) :: a.id)
  {
    var removed := RemovedMembersOf(seats, actions);
    var left := set a | a in actions && a.Remove? && a.id in SeatIds(seats) :: a.id;
    forall id ensures id in SeatIds(removed) <==> id in left {
      if id in left {
        assert Remove(id) in actions;
        var leaf: Leaf :| leaf in seats && MemberIdOf(leaf) == id;
        assert leaf in removed;
      }
    }
  }

  /** Taking the delta's removals out of the old seats and putting its additions in
      gives exactly the new seats; a leaf that was seated before shows up as added
      only if its occupant was removed. */
  lemma DeltaTurnsOldIntoNew(seats: Seats, actions: seq<Action>)
    ensures var d := DeltaOf(seats, actions);
            && (map leaf | leaf in seats && leaf !in d.removed :: seats[leaf]) + d.added == ApplyActions(seats, actions)
            && (forall leaf :: leaf in seats && leaf in d.added ==> leaf in d.removed)
            && SeatIds(d.removed) == (set a | a in actions && a.Remove? && a.id in SeatIds(seats) :: a.id)
  {
    var d := DeltaOf(seats, actions);
    SeatJoinersKeeps(Vacate(seats, actions), actions);
    assert (map leaf | leaf in seats && leaf !in d.removed :: seats[leaf]) == Vacate(seats, actions);
    RemovedIds(seats, actions);
  }

  // ── The service ──

  /** Our own commit, or a peer's staged one, waiting to be merged or dropped. */
  datatype Pending = Pending(commit: Bytes, actions: seq<Action>)

  datatype Artifacts = Artifacts(proposals: seq<Bytes>, commit: Bytes)

  function InputAction(w: World, input: CommitInput): (action: Option<Action>) {
    match input
    case AddKeyPackage(keyPackage) => (match w.keyOf(keyPackage) case Some(key) => Some(Add(key)) case None => None)
    case RemoveId(target) => Some(Remove(target))
  }

  function InputActions(w: World, inputs: seq<CommitInput>): (actions: seq<Action>) {
    if inputs == [] then []
    else (match InputAction(w, inputs[0]) case Some(a) => [a] case None => []) + InputActions(w, inputs[1..])
  }

  /** What the MLS library promises about a commit it mints for `self` from
      `inputs`: one proposal per input, messages of the right kinds, and any member
      of the same group stages it as self's commit of exactly those changes. */
  predicate Minted(w: World, g: Group, self: Id, inputs: seq<CommitInput>, art: Artifacts, actions: seq<Action>) {
    && |art.proposals| == |inputs|
    && art.commit != []
    && w.messageKind(art.commit) == CommitKind
    && (forall p | p in art.proposals :: w.messageKind(p) == ProposalKind)
    && |actions| == |inputs|
    && (set a | a in actions) == (set a | a in InputActions(w, inputs))
    && Stage(w, g, art.proposals, art.commit) == Staged(self, actions)
  }

  /** The group and its two commit slots. */
  datatype Mls = Mls(group: Group, own: Option<Pending>, staged: Option<Pending>)

  class MlsService {
    var group: Group
    var own: Option<Pending>
    var staged: Option<Pending>

    function State(): (m: Mls) reads this { Mls(group, own, staged) }

    constructor (g: Group)
      ensures group == g && own.None? && staged.None?
    {
      group := g;
      own, staged := None, None;
    }

    /** Keep the commit the library minted. It waits in our own slot; the group
        does not move. */
    method CreateCommitCandidate(art: Artifacts, actions: seq<Action>)
      requires own.None?
      modifies this`own
      ensures own == Some(Pending(art.commit, actions))
    {
      own := Some(Pending(art.commit, actions));
    }

    /** Apply our own commit. Without one the library does nothing. */
    method MergeOwnCommit() returns (delta: Delta)
      modifies this`group, this`own
      ensures own.None?
      ensures match old(own)
              case Some(p) => group == Merge(old(group), p.commit, p.actions) && delta == DeltaOf(old(group.seats), p.actions)
              case None => group == old(group) && delta == Delta(map[], map[])
    {
      var removed := match own case Some(p) => RemovedMembersOf(group.seats, p.actions) case None => map[];
      var before := group.seats.Keys;
      if own.Some? {
        group := Merge(group, own.value.commit, own.value.actions);
        own := None;
      }
      delta := DeltaFrom(before, removed, group.seats);
    }

    method DiscardOwnCommit()
      modifies this`own
      ensures own.None?
    {
      own := None;
    }

    /** Stage a peer's commit beside our own. The group and our own commit stay as
        they are whatever comes out. */
    method StageRemoteCommit(w: World, proposals: seq<Bytes>, commit: Bytes) returns (r: StageResult)
      modifies this`staged
      ensures r == Stage(w, group, proposals, commit)
      ensures staged == if r.Staged? then Some(Pending(commit, r.actions)) else old(staged)
    {
      r := Stage(w, group, proposals, commit);
      if r.Staged? {
        staged := Some(Pending(commit, r.actions));
      }
    }

    method MergeStagedCommit() returns (delta: Delta)
      requires staged.Some?
      modifies this`group, this`staged
      ensures staged.None?
      ensures var p := old(staged.value);
              group == Merge(old(group), p.commit, p.actions) && delta == DeltaOf(old(group.seats), p.actions)
    {
      var p := staged.value;
      staged := None;
      var removed := RemovedMembersOf(group.seats, p.actions);
      var before := group.seats.Keys;
      group := Merge(group, p.commit, p.actions);
      delta := DeltaFrom(before, removed, group.seats);
    }

    method DiscardStagedCommit()
      modifies this`staged
      ensures staged.None?
    {
      staged := None;
    }
  }
}
