/** What a valid commit does to the tree: everybody it adds gets a seat, the leftmost ones
    that are free, nobody else moves, and no key is ever seated twice. */
module Seating {
  import opened ByteStrings
  import opened Protocol
  import opened MlsGroup

  /** No two seats hold the same key. */
  ghost predicate KeysDistinct(seats: Seats) {
    forall a, b :: a in seats && b in seats && a != b ==> seats[a] != seats[b]
  }

  lemma {:induction false} AtLeast(seats: Seats, n: nat)
    requires n <= 0x1_0000_0000 && forall leaf: Leaf :: leaf < n ==> leaf in seats
    ensures |seats| >= n
  {
    if n > 0 {
      var last: Leaf := n - 1;
      AtLeast(seats - {last}, n - 1);
      assert (seats - {last}).Keys == seats.Keys - {last};
      assert |(seats - {last}).Keys| == |seats - {last}| && |seats.Keys| == |seats|;
    }
  }

  /** While seats are left there is a blank one. */
  lemma RoomMeansBlank(seats: Seats)
    requires |seats| < 0x1_0000_0000
    ensures FirstBlank(seats, 0).Some?
  {
    FirstBlankIsLeftmost(seats, 0);
    if FirstBlank(seats, 0).None? {
      AtLeast(seats, 0x1_0000_0000);
    }
  }

  /** Every Add in `actions` names a key of its own, seated nowhere yet. */
  ghost predicate NewKeys(seats: Seats, actions: seq<Action>) {
    && (forall i, j :: 0 <= i < j < |actions| ==> actions[i] != actions[j])
    && (forall a, leaf :: a in actions && a.Add? && leaf in seats ==> seats[leaf] != a.key)
  }

  lemma JoinersStep(actions: seq<Action>)
    requires actions != []
    ensures |Joiners(actions)| == |Joiners(actions[1..])| + if actions[0].Add? then 1 else 0
  {}

  lemma NewKeysStep(seats: Seats, actions: seq<Action>, leaf: Leaf)
    requires NewKeys(seats, actions) && actions != [] && actions[0].Add?
    ensures NewKeys(seats[leaf := actions[0].key], actions[1..])
  {
    forall a | a in actions[1..] ensures a != actions[0] && a in actions {
      var i :| 0 <= i < |actions[1..]| && actions[1..][i] == a;
      assert actions[i + 1] == a;
    }
  }

  /** What seating joiners comes down to. */
  ghost predicate WellSeated(seats: Seats, actions: seq<Action>, after: Seats) {
    && |after| == |seats| + |Joiners(actions)|
    && (forall a :: a in actions && a.Add? ==> exists leaf :: leaf in after && after[leaf] == a.key)
    && (forall leaf: Leaf, blank: Leaf :: leaf in after && leaf !in seats && blank !in after ==> leaf < blank)
    && (KeysDistinct(seats) ==> KeysDistinct(after))
  }

  lemma {:induction false} JoinersAreSeated(seats: Seats, actions: seq<Action>)
    requires |seats| + |Joiners(actions)| <= 0x1_0000_0000 && NewKeys(seats, actions)
    ensures WellSeated(seats, actions, SeatJoiners(seats, actions))
    decreases |actions|
  {
    if actions == [] {
    } else {
      JoinersStep(actions);
      assert actions == [actions[0]] + actions[1..];
      if actions[0].Remove? {
        assert NewKeys(seats, actions[1..]) by { assert forall a :: a in actions[1..] ==> a in actions; }
        JoinersAreSeated(seats, actions[1..]);
      } else {
        RoomMeansBlank(seats);
        FirstBlankIsLeftmost(seats, 0);
        var leaf := FirstBlank(seats, 0).value;
        NewKeysStep(seats, actions, leaf);
        JoinersAreSeated(seats[leaf := actions[0].key], actions[1..]);
        OneJoinerMore(seats, actions, leaf, SeatJoiners(seats[leaf := actions[0].key], actions[1..]));
      }
    }
  }

  lemma OneJoinerMore(seats: Seats, actions: seq<Action>, leaf: Leaf, after: Seats)
    requires actions != [] && actions[0].Add? && NewKeys(seats, actions)
    requires leaf !in seats && forall l: Leaf :: l < leaf ==> l in seats
    requires after == SeatJoiners(seats[leaf := actions[0].key], actions[1..])
    requires WellSeated(seats[leaf := actions[0].key], actions[1..], after)
    ensures WellSeated(seats, actions, after)
  {
    SeatJoinersKeeps(seats[leaf := actions[0].key], actions[1..]);
    JoinersStep(actions);
    assert actions == [actions[0]] + actions[1..] && actions[0] in actions;
    assert leaf in after && after[leaf] == actions[0].key;
    if KeysDistinct(seats) {
      assert KeysDistinct(seats[leaf := actions[0].key]);
    }
  }

  lemma LeaversStep(seats: Seats, actions: seq<Action>)
    requires actions != []
    ensures |Leavers(actions)| == |Leavers(actions[1..])| + if actions[0].Remove? then 1 else 0
    ensures actions[0].Add? ==> RemovedMembersOf(seats, actions) == RemovedMembersOf(seats, actions[1..])
  {
    hide MemberIdOf;
    assert actions == [actions[0]] + actions[1..];
  }

  lemma {:induction false} LeaversCount(seats: Seats, actions: seq<Action>)
    requires forall i, j :: 0 <= i < j < |actions| ==> actions[i] != actions[j]
    requires forall a :: a in actions && a.Remove? ==> a.id in SeatIds(seats)
    ensures |RemovedMembersOf(seats, actions)| == |Leavers(actions)|
  {
    hide SeatIds, RemovedMembersOf, Leavers;
    if actions == [] {
      NobodyLeaves(seats);
    } else {
      var rest := actions[1..];
      assert actions == [actions[0]] + rest;
      assert actions[0] in actions && forall a :: a in rest ==> a in actions;
      LeaversCount(seats, rest);
      LeaversStep(seats, actions);
      if actions[0].Remove? {
        OneLeaverMore(seats, actions);
      }
    }
  }

  lemma NobodyLeaves(seats: Seats)
    ensures RemovedMembersOf(seats, []) == map[] && Leavers([]) == []
  {}

  lemma RemovedAt(seats: Seats, actions: seq<Action>, leaf: Leaf)
    ensures leaf in RemovedMembersOf(seats, actions) <==> leaf in seats && Remove(MemberIdOf(leaf)) in actions
  {}

  /** Among distinct actions the first Remove vacates one leaf more than the rest. */
  lemma FirstRemoveVacates(seats: Seats, actions: seq<Action>, gone: Leaf)
    requires actions != [] && gone in seats && actions[0] == Remove(MemberIdOf(gone)) && actions[0] !in actions[1..]
    ensures RemovedMembersOf(seats, actions).Keys == RemovedMembersOf(seats, actions[1..]).Keys + {gone}
    ensures gone !in RemovedMembersOf(seats, actions[1..])
  {
    hide MemberIdOf, RemovedMembersOf;
    assert actions == [actions[0]] + actions[1..];
    RemovedAt(seats, actions[1..], gone);
    forall leaf: Leaf ensures leaf in RemovedMembersOf(seats, actions) <==> leaf in RemovedMembersOf(seats, actions[1..]) || leaf == gone {
      RemovedAt(seats, actions, leaf);
      RemovedAt(seats, actions[1..], leaf);
      MemberIdInjective(leaf, gone);
    }
  }

  lemma OneLeaverMore(seats: Seats, actions: seq<Action>)
    requires actions != [] && actions[0].Remove? && actions[0].id in SeatIds(seats)
    requires forall i, j :: 0 <= i < j < |actions| ==> actions[i] != actions[j]
    ensures |RemovedMembersOf(seats, actions)| == |RemovedMembersOf(seats, actions[1..])| + 1
  {
    hide MemberIdOf, RemovedMembersOf;
    var gone: Leaf :| gone in seats && MemberIdOf(gone) == actions[0].id;
    FirstRemoveVacates(seats, actions, gone);
    var more, fewer := RemovedMembersOf(seats, actions), RemovedMembersOf(seats, actions[1..]);
    assert |more.Keys| == |more| && |fewer.Keys| == |fewer|;
  }

  lemma VacateCount(seats: Seats, actions: seq<Action>)
    ensures |Vacate(seats, actions)| + |RemovedMembersOf(seats, actions)| == |seats|
  {
    var kept, gone := Vacate(seats, actions), RemovedMembersOf(seats, actions);
    assert kept.Keys + gone.Keys == seats.Keys && kept.Keys !! gone.Keys;
    assert |kept.Keys| == |kept| && |gone.Keys| == |gone| && |seats.Keys| == |seats|;
  }

  /** A commit that meets the rules of section 12.2 of RFC 9420 changes the number of seats
      by exactly what it says, seats everybody it adds, on leaves left of every leaf that
      stays blank, keeps its committer, and never seats a key twice. */
  lemma ValidCommitSeatsEverybody(seats: Seats, committer: Id, actions: seq<Action>)
    requires ValidCommit(seats, committer, actions)
    ensures var after, d := ApplyActions(seats, actions), DeltaOf(seats, actions);
            && |after| == |seats| + |Joiners(actions)| - |Leavers(actions)|
            && (forall a :: a in actions && a.Add? ==> exists leaf :: leaf in after && after[leaf] == a.key)
            && (forall leaf: Leaf, blank: Leaf :: leaf in d.added && blank !in after ==> leaf < blank)
            && (KeysDistinct(seats) ==> KeysDistinct(after))
            && committer in SeatIds(after)
  {
    hide MemberIdOf;
    var vacated := Vacate(seats, actions);
    VacateCount(seats, actions);
    LeaversCount(seats, actions);
    forall a, leaf | a in actions && a.Add? && leaf in vacated ensures vacated[leaf] != a.key {
      assert leaf in seats && Remove(MemberIdOf(leaf)) !in actions;
    }
    JoinersAreSeated(vacated, actions);
    SeatJoinersKeeps(vacated, actions);
    var leaf: Leaf :| leaf in seats && MemberIdOf(leaf) == committer;
    assert leaf in vacated;
  }
}
