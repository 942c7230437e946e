/** A strict round that splits the group: a list elected after the mint no longer names
    the minter. Two members that start alike live through the same epoch. */
module Delisting {
  import opened ByteStrings
  import opened Sorting
  import opened Protocol
  import opened MlsGroup
  import opened StewardLists
  import opened CommitBuffer
  import opened Queues
  import opened Consensus
  import opened CommitApply
  import opened CandidateIntake
  import opened Agreement
  import opened Outcomes
  import opened Confluence
  import opened Nodes
  import opened Lockstep
  import opened Founding
  import opened Examples

  /** Two of the three are listed, the first among them; `e` is the election of the next
      retry round, which drops it. */
  ghost predicate Rotates(t: Trio, e: Election) {
    var config, members := Config(1, 2, false), Members(t.g.seats);
    && Present(t) && t.stewards.config == config && members != []
    && t.stewards.list.value == StewardList(Canonical(t.w, t.g.epoch, members, config, 0), config, t.g.epoch, 0)
    && e == Election(Canonical(t.w, t.g.epoch, members, config, 1), t.g.epoch, 1)
    && t.first !in e.stewards
  }

  function Someone(t: Trio, self: Id): (n: Node) {
    Node(self, 1, RoundState(t.Fresh(), NewQueues(8)), t.stewards, Scoring(map[], 100, 0, map[]), false)
  }

  /** A removal is voted through, the first member mints and the third receives what it
      minted, then the new list is voted through. */
  function Vote(t: Trio): (e: Event) { Decide(1, true, RemoveMember(t.second)) }
  function MinterEvents(t: Trio, e: Election): (es: seq<Event>) {
    [Vote(t)] + [MintOwn(Some(t.Minted()))] + [ListVote(2, true, e)]
  }
  function PeerEvents(t: Trio, e: Election): (es: seq<Event>) { [Vote(t)] + [Arrive(t.Message())] + [ListVote(2,
        true, e)] }

  // ── Going through the events ──

  lemma OneMore(w: World, m: Member, s: RoundState, es: seq<Event>, e: Event)
    ensures RunBoth(w, m, s, es + [e])
         == (StepMember(w, MemberAfter(w, m, s, es), RunRound(w, m, s, es), e), StepRound(w, MemberAfter(w, m, s, es), RunRound(w, m, s, es), e))
  {
    hide StepMember, StepRound;
    assert (es + [e])[..|es|] == es;
  }

  lemma OneMoreOk(w: World, m: Member, s: RoundState, es: seq<Event>, e: Event, universe: set<Candidate>)
    requires RunOk(w, m, s, es, universe) && EventOk(w, MemberAfter(w, m, s, es), RunRound(w, m, s, es), e, universe)
    ensures RunOk(w, m, s, es + [e], universe)
  {
    hide EventOk, RunBoth;
    assert (es + [e])[..|es|] == es;
  }

  lemma OneMoreHeard(w: World, m: Member, s: RoundState, es: seq<Event>, e: Event)
    ensures HeardIn(w, m, s, es + [e]) == HeardIn(w, m, s, es) + Heard(w, MemberAfter(w, m, s, es), RunRound(w, m, s, es), e)
  {
    hide Heard, RunBoth;
    assert (es + [e])[..|es|] == es;
  }

  /** The list vote that ends both members' events: the queues keep everything, the
      stewards change over. */
  function Relisted(t: Trio, e: Election): (r: Stewards) { Elect(t.w, map[], t.g, t.stewards, true, e) }

  lemma TheListVote(t: Trio, e: Election, q: Queues)
    requires Rotates(t, e) && q.early == [] && !q.resolved.Has(2) && q.joinEpoch == map[]
    ensures OnOutcome(t.w, t.g, q, 2, true, StewardElection(e)).0 == q.(resolved := q.resolved.Insert(2))
    ensures Relisted(t, e) == t.stewards.(list := Relisted(t, e).list)
    ensures Relisted(t, e).list.Some? && Relisted(t, e).list.value.members == e.stewards
  {
    hide Members, Stage, Canonical, Generate;
    var members := Members(t.g.seats);
    KeepAll(SettledIn(map[], t.g.epoch), members);
    ValidateAcceptsExactlyCanonical(t.w, e.stewards, t.g.epoch, members, t.stewards.config, 1);
    ValidElectionInstalls(t.w, map[], t.g, t.stewards, e);
  }

  /** The round state with the third's or our own copy of the candidate buffered. */
  function Buffering(t: Trio, own: Option<Pending>, isLocal: bool): (s: RoundState) {
    RoundState(t.Fresh().(own := own), t.Voted().(round := CommitRound(t.g.epoch, [t.Mine().(isLocal := isLocal)])))
  }

  function Minting(t: Trio): (s: RoundState) { Buffering(t, Some(Pending(t.commit, [Remove(t.second)])), true) }

  function Resolved(s: RoundState): (r: RoundState) {
    s.(queues := s.queues.(resolved := s.queues.resolved.Insert(2)))
  }

  lemma AfterVote(t: Trio, e: Election)
    requires Present(t)
    ensures var q := t.Voted();
            && q == NewQueues(8).(approved := [Approval(1, RemoveMember(t.second))], resolved := q.resolved)
            && q.resolved.items == [1]
  {
    hide OnOutcome;
    TheVote(t);
  }

  lemma AfterFirst(t: Trio, self: Id)
    ensures var m := MemberOf(Someone(t, self));
            RunBoth(t.w, m, Someone(t, self).s, [Vote(t)]) == (m, RoundState(t.Fresh(), t.Voted()))
  {
    hide OnOutcome;
    var m, s := MemberOf(Someone(t, self)), Someone(t, self).s;
    OneMore(t.w, m, s, [], Vote(t));
    assert [] + [Vote(t)] == [Vote(t)];
  }

  lemma AfterSecond(t: Trio, self: Id, e: Event)
    requires Present(t) && ((e == MintOwn(Some(t.Minted())) && self == t.first) || e == Arrive(t.Message()))
    ensures var m := MemberOf(Someone(t, self));
            RunBoth(t.w, m, Someone(t, self).s, [Vote(t)] + [e])
            == (m, if e.MintOwn? then Minting(t) else Buffering(t, None, false))
  {
    hide OnOutcome, Members, Stage, BuildLocal, Receive, RunBoth;
    AfterVote(t, Election([], 0, 0));
    AfterFirst(t, self);
    OneMore(t.w, MemberOf(Someone(t, self)), Someone(t, self).s, [Vote(t)], e);
    if e.MintOwn? {
      MintsAlone(t, t.Voted());
    } else {
      ReceivesAlone(t, t.Voted());
    }
  }

  lemma AfterThird(t: Trio, e: Election, self: Id, second: Event, s: RoundState)
    requires Rotates(t, e)
    requires RunBoth(t.w, MemberOf(Someone(t, self)), Someone(t, self).s, [Vote(t)] + [second]) == (MemberOf(Someone(t, self)), s)
    requires s == Minting(t) || s == Buffering(t, None, false)
    ensures RunBoth(t.w, MemberOf(Someone(t, self)), Someone(t, self).s, [Vote(t)] + [second] + [ListVote(2, true, e)])
         == (Member(self, 1, Relisted(t, e)), Resolved(s))
  {
    hide OnOutcome, Elect, RunBoth, Rotates;
    RotatesIsPresent(t, e);
    AfterVote(t, e);
    TheListVote(t, e, s.queues);
    OneMore(t.w, MemberOf(Someone(t, self)), Someone(t, self).s, [Vote(t)] + [second], ListVote(2, true, e));
  }

  lemma RotatesIsPresent(t: Trio, e: Election)
    requires Rotates(t, e)
    ensures Present(t)
  {}

  // ── The environment keeps its side ──

  lemma EventsFit(t: Trio, e: Election, self: Id, second: Event)
    requires Rotates(t, e) && ((second == MintOwn(Some(t.Minted())) && self == t.first) || second == Arrive(t.Message()))
    ensures RunOk(t.w, MemberOf(Someone(t, self)), Someone(t, self).s, [Vote(t)] + [second] + [ListVote(2, true, e)], {t.Message()})
  {
    hide OnOutcome, RunBoth, RunOk, MintInputs, MintPromise, Rotates, Stage, Members, Receive, BuildLocal;
    var m, s := MemberOf(Someone(t, self)), Someone(t, self).s;
    RotatesIsPresent(t, e);
    AfterVote(t, e);
    NothingYet(t.w, m, s, {t.Message()});
    OneMoreOk(t.w, m, s, [], Vote(t), {t.Message()});
    assert [] + [Vote(t)] == [Vote(t)];
    AfterFirst(t, self);
    MintsFirstRemoval(t, t.Voted());
    OneMoreOk(t.w, m, s, [Vote(t)], second, {t.Message()});
    AfterSecond(t, self, second);
    OneMoreOk(t.w, m, s, [Vote(t)] + [second], ListVote(2, true, e), {t.Message()});
  }

  lemma NothingYet(w: World, m: Member, s: RoundState, universe: set<Candidate>)
    ensures RunOk(w, m, s, [], universe) && RunBoth(w, m, s, []) == (m, s) && HeardIn(w, m, s, []) == {}
  {}

  lemma HearsTheOne(t: Trio, e: Election, self: Id, second: Event)
    requires Rotates(t, e) && ((second == MintOwn(Some(t.Minted())) && self == t.first) || second == Arrive(t.Message()))
    ensures HeardIn(t.w, MemberOf(Someone(t, self)), Someone(t, self).s, [Vote(t)] + [second] + [ListVote(2, true, e)]) == {t.Message()}
  {
    hide OnOutcome, RunBoth, HeardIn, Rotates, Stage, Members, Receive, BuildLocal;
    var m, s := MemberOf(Someone(t, self)), Someone(t, self).s;
    RotatesIsPresent(t, e);
    AfterVote(t, e);
    NothingYet(t.w, m, s, {});
    OneMoreHeard(t.w, m, s, [], Vote(t));
    assert [] + [Vote(t)] == [Vote(t)];
    AfterFirst(t, self);
    MintsAlone(t, t.Voted());
    OneMoreHeard(t.w, m, s, [Vote(t)], second);
    OneMoreHeard(t.w, m, s, [Vote(t)] + [second], ListVote(2, true, e));
  }

  // ── The end of the round ──

  /** What both hold when the round ends fits the lemma on delisted minters. */
  lemma EndsSplit(t: Trio, e: Election)
    requires Rotates(t, e)
    ensures var mine, theirs, stewards := Resolved(Minting(t)), Resolved(Buffering(t, None, false)), Relisted(t, e);
            && !stewards.config.allowSubset
            && FinalizeRound(t.w, mine, stewards, false, false, t.first).1.outcome == Applied(false)
            && FinalizeRound(t.w, mine, stewards, false, false, t.first).0.mls.group == Merge(t.g, t.commit, [Remove(t.second)])
            && FinalizeRound(t.w, theirs, stewards, false, false, t.third).1.outcome.NoCandidate?
            && FinalizeRound(t.w, theirs, stewards, false, false, t.third).0.mls.group == t.g
  {
    hide FinalizeRound, OnOutcome, Elect, Stage, Members, Rotates, ApplyActions, FinalizeBatch;
    var mine, theirs, stewards := Resolved(Minting(t)), Resolved(Buffering(t, None, false)), Relisted(t, e);
    RotatesIsPresent(t, e);
    AfterVote(t, e);
    TheListVote(t, e, t.Voted());
    IsDelisted(t, e);
    MlsCountAll(mine.queues.approved);
    assert mine.queues.approved[0] in mine.queues.approved;
    assert Remove(t.second) in ApprovedActions(t.w, mine.queues.approved);
    DelistedMinterSplits(t.w, mine, theirs, stewards, t.first, t.third, t.Mine());
    LoneRound(t.w, mine, stewards, false, false, t.first, t.Mine());
  }

  lemma IsDelisted(t: Trio, e: Election)
    requires Rotates(t, e)
    ensures t.first !in e.stewards && !t.stewards.config.allowSubset
  {}

  lemma MinterEnds(t: Trio, e: Election)
    requires Rotates(t, e)
    ensures var after := StepNode(t.w, Someone(t, t.first), Epoch(MinterEvents(t, e), {t.Message()}));
            !after.left && after.s.mls.group == Merge(t.g, t.commit, [Remove(t.second)])
  {
    hide FinalizeRound, OnOutcome, Elect, Stage, Members, Rotates, RunBoth, Merge, Reconcile, VoteScores, RescoreMembers;
    var own := MintOwn(Some(t.Minted()));
    RotatesIsPresent(t, e);
    AfterSecond(t, t.first, own);
    AfterThird(t, e, t.first, own, Minting(t));
    EndsSplit(t, e);
  }

  lemma PeerEnds(t: Trio, e: Election)
    requires Rotates(t, e)
    ensures var after := StepNode(t.w, Someone(t, t.third), Epoch(PeerEvents(t, e), {t.Message()}));
            !after.left && after.s.mls.group == t.g
  {
    hide FinalizeRound, OnOutcome, Elect, Stage, Members, Rotates, RunBoth, VoteScores;
    RotatesIsPresent(t, e);
    AfterSecond(t, t.third, Arrive(t.Message()));
    AfterThird(t, e, t.third, Arrive(t.Message()), Buffering(t, None, false));
    EndsSplit(t, e);
  }

  lemma SameThings(t: Trio, e: Election)
    requires Rotates(t, e)
    ensures SameEpoch(t.w, Someone(t, t.first), MinterEvents(t, e), Someone(t, t.third), PeerEvents(t, e))
    ensures forall x :: x in MinterEvents(t, e) + PeerEvents(t, e) ==> Ordinary(x)
  {
    hide HeardIn, Rotates;
    var es, fs := MinterEvents(t, e), PeerEvents(t, e);
    HearsTheOne(t, e, t.first, MintOwn(Some(t.Minted())));
    HearsTheOne(t, e, t.third, Arrive(t.Message()));
    assert es[2] == fs[2] == ListVote(2, true, e) && es[0] == fs[0] == Vote(t);
    KeepOnlyLast(MovesList(), es);
    KeepOnlyLast(MovesList(), fs);
  }

  lemma KeepOnlyLast(p: Event -> bool, es: seq<Event>)
    requires |es| == 3 && !p(es[0]) && !p(es[1]) && p(es[2])
    ensures Keep(p, es) == [es[2]]
  {
    assert es == [es[0]] + [es[1]] + [es[2]];
    KeepConcat(p, [es[0]] + [es[1]], [es[2]]);
    KeepConcat(p, [es[0]], [es[1]]);
    KeepOne(p, es[0]);
    KeepOne(p, es[1]);
    KeepOne(p, es[2]);
  }

  /** Two members start alike, every vote resolves at both in the same order, both know
      the same candidate, nothing is out of order for either, and the round is strict. Yet
      the minter merges and its peer does not, because the list that came into force in
      between no longer names the minter. */
  lemma StrictRoundSplitExists() returns (t: Trio, e: Election)
    ensures Rotates(t, e) && t.stewards.IsSteward(t.first) && !t.stewards.config.allowSubset
    ensures var mine, theirs, universe := Someone(t, t.first), Someone(t, t.third), {t.Message()};
            && NodeOk(t.w, mine) && NodeOk(t.w, theirs) && Alike(t.w, mine, theirs)
            && FitsRound(t.w, t.g, universe)
            && RunOk(t.w, MemberOf(mine), mine.s, MinterEvents(t, e), universe)
            && RunOk(t.w, MemberOf(theirs), theirs.s, PeerEvents(t, e), universe)
            && SameEpoch(t.w, mine, MinterEvents(t, e), theirs, PeerEvents(t, e))
            && (forall x :: x in MinterEvents(t, e) + PeerEvents(t, e) ==> Ordinary(x))
    ensures var mine, theirs := StepNode(t.w, Someone(t, t.first), Epoch(MinterEvents(t, e), {t.Message()})),
                                StepNode(t.w, Someone(t, t.third), Epoch(PeerEvents(t, e), {t.Message()}));
            !mine.left && !theirs.left && mine.s.mls.group == Merge(t.g, t.commit, [Remove(t.second)]) && theirs.s.mls.group == t.g
  {
    hide StepNode, RunOk, SameEpoch, Rotates, Ordinary, Merge, NodeOk, Known, Members, Stage;
    t, e := DuoExists();
    RotatesIsPresent(t, e);
    IsDelisted(t, e);
    QuietStart(t.w, Someone(t, t.first), 8);
    QuietStart(t.w, Someone(t, t.third), 8);
    EventsFit(t, e, t.first, MintOwn(Some(t.Minted())));
    EventsFit(t, e, t.third, Arrive(t.Message()));
    SameThings(t, e);
    MinterEnds(t, e);
    PeerEnds(t, e);
  }

  // ── There is one ──

  /** Whoever comes last in the order of a round is not on a list of two out of three. */
  lemma LastIsDropped(w: World, epoch: nat, round: nat, pool: seq<Id>, last: Id)
    requires |pool| == 3 && Distinct(pool) && last in pool
    requires forall id :: id in pool && id != last ==> !Before(w, epoch, round)(last, id)
    ensures var list := Canonical(w, epoch, pool, Config(1, 2, false), round);
            |list| == 2 && last !in list && forall id :: id in pool && id != last ==> id in list
  {
    var leq := Before(w, epoch, round);
    BeforeIsTotalOrder(w, epoch, round, pool);
    SortByMultiset(leq, pool);
    SortBySorted(leq, pool);
    var ordered := Ordered(w, epoch, round, pool);
    DistinctSorted(leq, pool);
    forall id ensures id in ordered <==> id in pool { assert id in multiset(ordered) <==> id in multiset(pool); }
    assert leq(ordered[0], ordered[2]) && leq(ordered[1], ordered[2]) && ordered[2] in ordered;
  }

  lemma ComesLast(first: Id, second: Id, third: Id, epoch: nat, round: nat, id: Id)
    requires id != if round == 0 then third else first
    ensures !Before(OneCommitWorld(first, second, third), epoch, round)(if round == 0 then third else first, id)
  {
    var high: Bytes, low: Bytes := [1], [0];
    assert !Less(high, low) && high != low;
  }

  lemma ListOfTwo(first: Id, second: Id, third: Id, epoch: nat, round: nat, pool: seq<Id>)
    requires |pool| == 3 && Distinct(pool) && first in pool && third in pool && first != third
    ensures var list := Canonical(OneCommitWorld(first, second, third), epoch, pool, Config(1, 2, false), round);
            |list| == 2 && (first in list <==> round == 0)
  {
    hide Before, Canonical;
    var last := if round == 0 then third else first;
    forall id | id in pool && id != last ensures !Before(OneCommitWorld(first, second, third), epoch, round)(last, id) {
      ComesLast(first, second, third, epoch, round, id);
    }
    LastIsDropped(OneCommitWorld(first, second, third), epoch, round, pool, last);
  }

  lemma DuoOf(l0: Leaf, l1: Leaf, l2: Leaf, key: Bytes, proposal: Bytes, commit: Bytes,
        epoch: nat) returns (t: Trio, e: Election)
    requires l0 != l1 && l1 != l2 && l0 != l2 && |proposal| == 2 && |commit| == 1
    ensures Rotates(t, e)
  {
    hide Members, Canonical, Stage, MemberIdOf;
    var seats: Seats := map[l0 := key, l1 := key, l2 := key];
    var first, second, third := MemberIdOf(l0), MemberIdOf(l1), MemberIdOf(l2);
    var g, config := Group(epoch, seats, []), Config(1, 2, false);
    var w := OneCommitWorld(first, second, third);
    ThreeSeats(l0, l1, l2, key);
    MembersDistinct(seats);
    ItStages(g, first, second, third, [proposal], commit);
    ListOfTwo(first, second, third, epoch, 0, Members(seats));
    ListOfTwo(first, second, third, epoch, 1, Members(seats));
    IdIsNotEmpty(l0);
    var list := StewardList(Canonical(w, epoch, Members(seats), config, 0), config, epoch, 0);
    t := Trio(w, g, first, second, third, proposal, commit, Stewards(Some(list), config, 0, 0));
    e := Election(Canonical(w, epoch, Members(seats), config, 1), epoch, 1);
  }

  lemma DuoExists() returns (t: Trio, e: Election)
    ensures Rotates(t, e)
  {
    var l0: Leaf, l1: Leaf, l2: Leaf := 0, 1, 2;
    var proposal: Bytes, commit: Bytes := [1, 1], [2];
    t, e := DuoOf(l0, l1, l2, [], proposal, commit, 1);
  }
}
