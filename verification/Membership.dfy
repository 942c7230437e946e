/** State keyed by leaf follows the seats: scores, join epochs, and who counted as
    settled in an epoch long past. */
module Membership {
  import opened ByteStrings
  import opened Protocol
  import opened MlsGroup
  import opened StewardLists
  import opened Queues
  import opened CommitValidation
  import opened CommitApply
  import opened CandidateIntake
  import opened Outcomes
  import opened Confluence
  import opened Nodes
  import opened Lifecycle
  import opened SyncMessages
  import opened ConversationModel
  import PeerScoring

  /** Members that count as settled in `epoch`, by what is on record now. */
  function SettledIds(joinEpoch: map<Id, nat>, seats: Seats, epoch: nat): (r: set<Id>) {
    set id | id in SeatIds(seats) && SettledIn(joinEpoch, epoch)(id)
  }

  // ── One merge ──

  /** By id: the new members are the old ones minus the departed plus the joined, and
      nobody stays seated across the merge while being counted as joined. */
  lemma IdsAfterMerge(seats: Seats, actions: seq<Action>)
    ensures var d := DeltaOf(seats, actions);
            && SeatIds(ApplyActions(seats, actions)) == SeatIds(seats) - SeatIds(d.removed) + SeatIds(d.added)
            && SeatIds(d.added) * SeatIds(seats) <= SeatIds(d.removed)
  {
    var d, after := DeltaOf(seats, actions), ApplyActions(seats, actions);
    DeltaTurnsOldIntoNew(seats, actions);
    forall id ensures id in SeatIds(after) <==> id in SeatIds(seats) - SeatIds(d.removed) + SeatIds(d.added) {
      IdsAfterMergeAt(seats, actions, id);
    }
    forall id | id in SeatIds(d.added) * SeatIds(seats) ensures id in SeatIds(d.removed) {
      IdsAfterMergeAt(seats, actions, id);
    }
  }

  lemma IdsAfterMergeAt(seats: Seats, actions: seq<Action>, id: Id)
    ensures var d := DeltaOf(seats, actions);
            && (id in SeatIds(ApplyActions(seats, actions)) <==> (id in SeatIds(seats) && id !in SeatIds(d.removed)) || id in SeatIds(d.added))
            && (id in SeatIds(d.added) && id in SeatIds(seats) ==> id in SeatIds(d.removed))
  {
    hide ApplyActions;
    var d, after := DeltaOf(seats, actions), ApplyActions(seats, actions);
    DeltaTurnsOldIntoNew(seats, actions);
    if leaf: Leaf :| MemberIdOf(leaf) == id && (leaf in seats || leaf in after || leaf in d.added || leaf in d.removed) {
      SeatIdsHas(seats, leaf);
      SeatIdsHas(after, leaf);
      SeatIdsHas(d.added, leaf);
      SeatIdsHas(d.removed, leaf);
    }
  }

  /** A merge only takes departed members out of what was settled before; a leaf that
      is filled again counts as unsettled for every earlier epoch. */
  lemma MergeOnlyUnsettlesDeparted(joinEpoch: map<Id, nat>, seats: Seats, actions: seq<Action>, now: nat, epoch: nat)
    requires epoch < now
    ensures var d := DeltaOf(seats, actions);
            SettledIds(Stamped(joinEpoch, d, now), ApplyActions(seats, actions), epoch)
            == SettledIds(joinEpoch, seats, epoch) - SeatIds(d.removed)
  {
    hide ApplyActions, SeatIds;
    IdsAfterMerge(seats, actions);
  }

  // ── One round ──

  /** Membership after merging `actions`. */
  ghost predicate MembershipMoved(s: RoundState, after: RoundState, actions: seq<Action>) {
    var d := DeltaOf(s.mls.group.seats, actions);
    && after.queues.delta == Some(d)
    && after.queues.joinEpoch == Stamped(s.queues.joinEpoch, d, s.mls.group.epoch + 1)
    && after.mls.group.seats == ApplyActions(s.mls.group.seats, actions)
    && after.mls.group.epoch >= s.mls.group.epoch
  }

  lemma MergeMoves(s: RoundState, commit: Option<Pending>, hash: Bytes)
    ensures MembershipMoved(s, AfterMerge(s, commit, hash, s.mls.group.epoch).0, match commit case Some(p) => p.actions case None => [])
  {
    hide ApplyActions, DeltaOf, Stamped;
    NothingChanges(s.mls.group.seats);
  }

  /** The commit a round merges is all that touches membership. */
  lemma RoundMembership(w: World, s: RoundState, stewards: Stewards, inRecovery: bool, allowSubset: bool, self: Id)
    returns (actions: seq<Action>)
    ensures var (after, r) := FinalizeRound(w, s, stewards, inRecovery, allowSubset, self);
            if r.outcome.NoCandidate? then after.mls.group == s.mls.group && after.queues.joinEpoch == s.queues.joinEpoch
            else MembershipMoved(s, after, actions)
  {
    hide VerdictOn, AfterMerge, DeltaOf, Stamped, ApplyActions;
    var taken := s.(queues := s.queues.(round := s.queues.round.Take(s.mls.group.epoch)));
    var ctx := Snapshot(taken.queues, s.mls.group, stewards, inRecovery, self);
    var sorted := Rank(s.queues.round.For(s.mls.group.epoch), ctx, allowSubset);
    var vs := Verdicts(w, taken, stewards, ctx, self, sorted);
    var i := FirstAccepted(vs);
    if i < |sorted| {
      actions := match vs[i].commit case Some(p) => p.actions case None => [];
      MergeMoves(taken, vs[i].commit, sorted[i].hash);
    } else {
      actions := [];
    }
  }

  lemma NothingChanges(seats: Seats)
    ensures DeltaOf(seats, []) == Delta(map[], map[]) && ApplyActions(seats, []) == seats
  {
    assert Vacate(seats, []) == seats;
    assert RemovedMembersOf(seats, []) == map[];
  }

  // ── Runs ──

  /** Who the round takes out that closes now. */
  function RoundDepartures(w: World, c: Conversing): (r: set<Id>) {
    var n, recovery := c.node, c.life.mode.Recovery?;
    var (after, r) := FinalizeRound(w, n.s, n.stewards, recovery, recovery || n.stewards.config.allowSubset, n.self);
    if r.outcome.Applied? && after.queues.delta.Some? then SeatIds(after.queues.delta.value.removed) else {}
  }

  /** Members that a step takes out, in recovery or not. */
  function Departures(w: World, p: Policy, c: Conversing, step: LifeStep): (r: set<Id>) {
    if c.node.left || !step.Freeze? || !c.life.phase.Freezing? then {}
    else
      var ready := AutoCommit(w, p, c, step.now, step.minted);
      if RoundDue(p, ready, step.now) && !step.finalizeFails then RoundDepartures(w, ready) else {}
  }

  function DeparturesIn(w: World, p: Policy, c: Conversing, steps: seq<LifeStep>): (r: set<Id>) {
    if steps == [] then {}
    else DeparturesIn(w, p, c, steps[..|steps| - 1]) + Departures(w, p, RunLife(w, p, c, steps[..|steps| - 1]), steps[|steps| - 1])
  }

  ghost predicate SameRecord(n: Node, n': Node) {
    && n'.s.mls.group == n.s.mls.group && n'.s.queues.joinEpoch == n.s.queues.joinEpoch
    && n'.scoring.scores.Keys == n.scoring.scores.Keys
    && n'.scoring.default == n.scoring.default && n'.scoring.threshold == n.scoring.threshold
  }

  /** Members a sync lists a score for. */
  function Listed(sync: Sync): (ids: set<Id>) { set entry | entry in sync.scores :: entry.0 }

  /** The record after taking over `sync`: whoever it lists is tracked from now on. */
  ghost predicate AdoptedRecord(n: Node, n': Node, sync: Sync) {
    && n'.s.mls.group == n.s.mls.group && n'.s.queues.joinEpoch == n.s.queues.joinEpoch
    && n'.scoring.scores.Keys == n.scoring.scores.Keys + Listed(sync)
    && PeerScoring.ScoresValid(n'.scoring.default, n'.scoring.threshold)
  }

  /** The record after merging `actions`: join epochs and scores move with the seats. */
  ghost predicate MovedRecord(n: Node, n': Node, actions: seq<Action>) {
    var d := DeltaOf(n.s.mls.group.seats, actions);
    && n'.s.mls.group.seats == ApplyActions(n.s.mls.group.seats, actions)
    && n'.s.mls.group.epoch >= n.s.mls.group.epoch
    && n'.s.queues.joinEpoch == Stamped(n.s.queues.joinEpoch, d, n.s.mls.group.epoch + 1)
    && n'.scoring.scores.Keys == n.scoring.scores.Keys - SeatIds(d.removed) + SeatIds(d.added)
    && n'.scoring.default == n.scoring.default && n'.scoring.threshold == n.scoring.threshold
    && forall id :: id in SeatIds(d.added) ==> n'.scoring.scores[id] == n.scoring.default
  }

  lemma UpdatedMoves(w: World, live: Node, scored: Node, actions: seq<Action>)
    requires MembershipMoved(live.s, scored.s, actions)
    requires scored.scoring.scores.Keys == live.scoring.scores.Keys
    requires scored.scoring.default == live.scoring.default && scored.scoring.threshold == live.scoring.threshold
    ensures MovedRecord(live, Updated(w, scored), actions)
  {
    hide DeltaOf, ApplyActions, Stamped, SeatIds, Reconcile;
  }

  lemma MissedSameRecord(n: Node)
    ensures SameRecord(n, Missed(n))
  {}

  /** However a round closes, in recovery or not, its commit is all that moves the
      record, and a round without one moves nothing. */
  lemma CloseRoundMembership(w: World, p: Policy, c: Conversing, now: nat, finalizeFails: bool)
    returns (actions: seq<Action>)
    requires !CloseRound(w, p, c, now, finalizeFails).node.left
    ensures var n, n', gone := c.node, CloseRound(w, p, c, now, finalizeFails).node, RoundDepartures(w, c);
            || (SameRecord(n, n') && (finalizeFails || gone == {}))
            || (MovedRecord(n, n', actions) && !finalizeFails && gone == SeatIds(DeltaOf(n.s.mls.group.seats, actions).removed))
  {
    hide FinalizeRound, DeltaOf, MovedRecord, Updated, Missed, SeatIds;
    var n, recovery := c.node, c.life.mode.Recovery?;
    actions := RoundMembership(w, n.s, n.stewards, recovery, recovery || n.stewards.config.allowSubset, n.self);
    var (after, r) := FinalizeRound(w, n.s, n.stewards, recovery, recovery || n.stewards.config.allowSubset, n.self);
    var scored := n.(s := after, scoring := n.scoring.Apply(r.scoreOps));
    if finalizeFails {
      assert SameRecord(n, CloseRound(w, p, c, now, finalizeFails).node);
    } else if r.outcome.Applied? {
      UpdatedMoves(w, n, scored, actions);
      assert MovedRecord(n, CloseRound(w, p, c, now, finalizeFails).node, actions);
    } else {
      MissedSameRecord(scored);
      assert SameRecord(n, CloseRound(w, p, c, now, finalizeFails).node);
    }
  }

  lemma MintingSameRecord(w: World, c: Conversing, minted: Option<Mint>)
    ensures SameRecord(c.node, Minting(w, c, minted).node) && Minting(w, c, minted).node.left == c.node.left
  {
    hide MintInputs;
  }

  lemma EnterFreezeSameRecord(w: World, c: Conversing, now: nat, minted: Option<Mint>)
    ensures SameRecord(c.node, EnterFreeze(w, c, now, minted).node)
    ensures EnterFreeze(w, c, now, minted).node.left == c.node.left
  {
    hide Minting;
    MintingSameRecord(w, c.(life := c.life.StartFreezing(now)), minted);
  }

  lemma OutcomeSameRecord(w: World, c: Conversing, id: nat, approved: bool, request: Request, now: nat,
        minted: Option<Mint>)
    ensures SameRecord(c.node, HandleOutcome(w, c, id, approved, request, now, minted).node)
  {
    hide OnOutcome, EnterFreeze, ValidateElection, EmergencyScoreOps;
    var (q, f) := OnOutcome(w, c.node.s.mls.group, c.node.s.queues, id, approved, request);
    OutcomeKeepsJoinEpochs(w, c.node.s.mls.group, c.node.s.queues, id, approved, request);
    EnterFreezeSameRecord(w, c.(node := c.node.(s := c.node.s.(queues := q))), now, minted);
  }

  lemma ArrivalSameRecord(w: World, c: Conversing, msg: Candidate, now: nat, minted: Option<Mint>)
    ensures SameRecord(c.node, CandidateArrived(w, c, msg, now, minted).node)
  {
    hide Receive, EnterFreeze;
    var q := Receive(w, c.node.s.mls.group, c.node.s.queues, msg).0;
    ReceiveTouches(w, c.node.s.mls.group, c.node.s.queues, msg);
    EnterFreezeSameRecord(w, c.(node := c.node.(s := c.node.s.(queues := q))), now, minted);
  }

  lemma FreezeMembership(w: World, p: Policy, c: Conversing, step: LifeStep) returns (actions: seq<Action>)
    requires step.Freeze? && !StepLife(w, p, c, step).node.left
    ensures var n, n' := c.node, StepLife(w, p, c, step).node;
            || (SameRecord(n, n') && Departures(w, p, c, step) == {})
            || (MovedRecord(n, n', actions) && Departures(w, p, c, step) == SeatIds(DeltaOf(n.s.mls.group.seats, actions).removed))
  {
    hide Minting, RoundDue, CloseRound, RoundDepartures, SeatIds, DeltaOf, ApplyActions, Stamped;
    actions := [];
    if c.life.phase.Freezing? {
      var ready := AutoCommit(w, p, c, step.now, step.minted);
      MintingSameRecord(w, c, step.minted);
      if RoundDue(p, ready, step.now) {
        actions := CloseRoundMembership(w, p, ready, step.now, step.finalizeFails);
        var n' := CloseRound(w, p, ready, step.now, step.finalizeFails).node;
        if SameRecord(ready.node, n') && (step.finalizeFails || RoundDepartures(w, ready) == {}) {
          assert SameRecord(c.node, n');
        } else {
          assert MovedRecord(c.node, n', actions);
        }
      }
    }
  }

  lemma {:induction false} AdoptKeys(scores: PeerScoring.Scores, entries: seq<(Id, int)>)
    ensures PeerScoring.Adopt(scores, entries).Keys == scores.Keys + (set entry | entry in entries :: entry.0)
  {
    if entries != [] {
      var rest, last := entries[..|entries| - 1], entries[|entries| - 1];
      assert entries == rest + [last];
      AdoptKeys(scores, rest);
    }
  }

  lemma SyncRecord(w: World, n: Node, sync: Sync)
    ensures if Adopts(w, n, sync) then AdoptedRecord(n, OnSync(w, n, sync), sync) else OnSync(w, n, sync) == n
  {
    hide Members, Validate;
    if Adopts(w, n, sync) {
      AcceptedSyncInstalls(w, n.stewards, sync, n.s.mls.group.epoch, Members(n.s.mls.group.seats));
      AdoptKeys(PeerScoring.AdoptDefault(n.scoring.scores, n.scoring.default, sync.SyncedDefault()), sync.scores);
    }
  }

  /** What a step does to the membership record of a member that stays. */
  lemma StepMembership(w: World, p: Policy, c: Conversing, step: LifeStep) returns (actions: seq<Action>)
    requires !StepLife(w, p, c, step).node.left
    ensures var n, n' := c.node, StepLife(w, p, c, step).node;
            || (SameRecord(n, n') && Departures(w, p, c, step) == {})
            || (MovedRecord(n, n', actions) && Departures(w, p, c, step) == SeatIds(DeltaOf(n.s.mls.group.seats, actions).removed))
            || (Adopting(w, c, step) && AdoptedRecord(n, n', step.sync) && Departures(w, p, c, step) == {})
  {
    hide HandleOutcome, CandidateArrived, Minting, AdvanceFreezing, EnterFreeze, OnSync, Adopts;
    hide RoundDepartures, DeltaOf, ApplyActions, Stamped, SeatIds;
    actions := [];
    match step {
      case Outcome(id, approved, request, now, minted) => OutcomeSameRecord(w, c, id, approved, request, now, minted);
      case Arrived(msg, now, minted) => ArrivalSameRecord(w, c, msg, now, minted);
      case Manual(minted) => MintingSameRecord(w, c, minted);
      case Freeze(_, _, _) => actions := FreezeMembership(w, p, c, step);
      case Inactivity(now, inFlight, minted) => EnterFreezeSameRecord(w, c, now, minted);
      case Silence(_, _) =>
      case Synced(sync) => SyncRecord(w, c.node, sync);
    }
  }

  lemma LeftIsFinal(w: World, p: Policy, c: Conversing, step: LifeStep)
    requires !StepLife(w, p, c, step).node.left
    ensures !c.node.left
  {}

  /** Retrospective settledness. For a member that applied every commit, those of
      recovery rounds included, the settled set of a past epoch, worked out now, is the
      one of that epoch minus everyone who has left since, recycled leaves included. */
  lemma {:induction false} RetrospectiveSettledness(w: World, p: Policy, c: Conversing, steps: seq<LifeStep>,
        epoch: nat)
    requires epoch <= c.node.s.mls.group.epoch && !RunLife(w, p, c, steps).node.left
    ensures var n, n' := c.node, RunLife(w, p, c, steps).node;
            && n'.s.mls.group.epoch >= n.s.mls.group.epoch
            && SettledIds(n'.s.queues.joinEpoch, n'.s.mls.group.seats, epoch)
               == SettledIds(n.s.queues.joinEpoch, n.s.mls.group.seats, epoch) - DeparturesIn(w, p, c, steps)
  {
    hide StepLife, Departures, DeltaOf, ApplyActions, Stamped, SettledIds, SeatIds, Adopting;
    if steps != [] {
      var rest, last := steps[..|steps| - 1], steps[|steps| - 1];
      var mid := RunLife(w, p, c, rest);
      LeftIsFinal(w, p, mid, last);
      RetrospectiveSettledness(w, p, c, rest, epoch);
      var actions := StepMembership(w, p, mid, last);
      MergeOnlyUnsettlesDeparted(mid.node.s.queues.joinEpoch, mid.node.s.mls.group.seats, actions, mid.node.s.mls.group.epoch + 1, epoch);
    }
  }

  /** Every seated member has a score, and only seated ones a join epoch. */
  predicate SeatsAreScored(n: Node) {
    && SeatIds(n.s.mls.group.seats) <= n.scoring.scores.Keys
    && n.s.queues.joinEpoch.Keys <= SeatIds(n.s.mls.group.seats)
  }

  /** Scores are kept for exactly the seated members, join epochs for some of them. */
  predicate KeyedBySeats(n: Node) {
    && n.scoring.scores.Keys == SeatIds(n.s.mls.group.seats)
    && n.s.queues.joinEpoch.Keys <= SeatIds(n.s.mls.group.seats)
  }

  /** The check does not look at whom a sync lists a score for: taking it over keeps the
      scores on the seats exactly if everybody listed is seated. */
  lemma AdoptionKeepsKeysIff(w: World, n: Node, sync: Sync)
    requires KeyedBySeats(n) && Adopts(w, n, sync)
    ensures KeyedBySeats(OnSync(w, n, sync)) <==> Listed(sync) <= SeatIds(n.s.mls.group.seats)
  {
    hide OnSync, Adopts, SeatIds;
    SyncRecord(w, n, sync);
  }

  /** So any sync that is taken can be made to list a stranger, and is still taken. */
  lemma StrangerGetsScore(w: World, n: Node, sync: Sync, stranger: Id, score: int)
    requires KeyedBySeats(n) && Adopts(w, n, sync) && stranger !in SeatIds(n.s.mls.group.seats)
    ensures var padded := sync.(scores := sync.scores + [(stranger, score)]);
            Adopts(w, n, padded) && stranger in OnSync(w, n, padded).scoring.scores && !KeyedBySeats(OnSync(w, n, padded))
  {
    hide OnSync, SeatIds, Members, Validate;
    var padded := sync.(scores := sync.scores + [(stranger, score)]);
    assert (stranger, score) in padded.scores;
    assert stranger in Listed(padded);
    SyncRecord(w, n, padded);
  }

  /** Every sync the run takes over lists seated members only. */
  predicate SeatedSyncs(w: World, p: Policy, c: Conversing, steps: seq<LifeStep>) {
    steps != [] ==>
      && SeatedSyncs(w, p, c, steps[..|steps| - 1])
      && var mid, last := RunLife(w, p, c, steps[..|steps| - 1]), steps[|steps| - 1];
         Adopting(w, mid, last) ==> Listed(last.sync) <= SeatIds(mid.node.s.mls.group.seats)
  }

  /** Over every run, whatever syncs are taken over, every seated member has a score; and
      scores are kept for nobody else as long as those syncs list seated members only. */
  lemma {:induction false} ScoresFollowSeats(w: World, p: Policy, c: Conversing, steps: seq<LifeStep>)
    requires !RunLife(w, p, c, steps).node.left
    ensures SeatsAreScored(c.node) ==> SeatsAreScored(RunLife(w, p, c, steps).node)
    ensures KeyedBySeats(c.node) && SeatedSyncs(w, p, c, steps) ==> KeyedBySeats(RunLife(w, p, c, steps).node)
  {
    hide StepLife, Departures, DeltaOf, ApplyActions, SeatIds, Adopting, Listed;
    if steps != [] {
      var rest, last := steps[..|steps| - 1], steps[|steps| - 1];
      var mid := RunLife(w, p, c, rest);
      LeftIsFinal(w, p, mid, last);
      ScoresFollowSeats(w, p, c, rest);
      var actions := StepMembership(w, p, mid, last);
      IdsAfterMerge(mid.node.s.mls.group.seats, actions);
    }
  }

  /** A default that is positive and above the threshold stays that way, syncs among the
      steps or not. */
  lemma {:induction false} ScoresStayValid(w: World, p: Policy, c: Conversing, steps: seq<LifeStep>)
    requires PeerScoring.ScoresValid(c.node.scoring.default, c.node.scoring.threshold)
    requires !RunLife(w, p, c, steps).node.left
    ensures var after := RunLife(w, p, c, steps).node.scoring; PeerScoring.ScoresValid(after.default, after.threshold)
  {
    hide StepLife, Departures, DeltaOf, ApplyActions, SeatIds, Adopting, Listed, PeerScoring.ScoresValid;
    if steps != [] {
      var rest, last := steps[..|steps| - 1], steps[|steps| - 1];
      LeftIsFinal(w, p, RunLife(w, p, c, rest), last);
      ScoresStayValid(w, p, c, rest);
      var actions := StepMembership(w, p, RunLife(w, p, c, rest), last);
    }
  }

  /** Whoever takes a leaf in a merge, recycled or new, starts at the default score, with
      the new epoch as join epoch, and is settled in every later epoch but not before. */
  lemma NewcomersStartFresh(w: World, p: Policy, c: Conversing, step: LifeStep, leaf: Leaf)
    requires KeyedBySeats(c.node) && !StepLife(w, p, c, step).node.left
    requires leaf in StepLife(w, p, c, step).node.s.mls.group.seats
    requires MemberIdOf(leaf) in Departures(w, p, c, step) || leaf !in c.node.s.mls.group.seats
    ensures var n, n', id := c.node, StepLife(w, p, c, step).node, MemberIdOf(leaf);
            && id in n'.scoring.scores && n'.scoring.scores[id] == n.scoring.default
            && id in n'.s.queues.joinEpoch && n'.s.queues.joinEpoch[id] == n.s.mls.group.epoch + 1
            && forall k: nat :: n'.s.queues.IsSettled(id, k) <==> k > n.s.mls.group.epoch + 1
  {
    hide StepLife, Departures, DeltaOf, ApplyActions, SeatIds, Adopting, Listed;
    var n', id := StepLife(w, p, c, step).node, MemberIdOf(leaf);
    var actions := StepMembership(w, p, c, step);
    IdsAfterMerge(c.node.s.mls.group.seats, actions);
    SeatIdsHas(c.node.s.mls.group.seats, leaf);
    SeatIdsHas(n'.s.mls.group.seats, leaf);
  }

  // ── Genesis ──

  /** A new conversation: the creator on leaf 0, sole steward of epoch 0. */
  function Create(w: World, key: Bytes, kMax: nat, dedupWindow: nat, config: Config, maxRetries: nat,
        scoring: Scoring): (r: Option<Node>) {
    var first: Leaf := 0;
    var self := MemberIdOf(first);
    match Stewards(None, config, 0, maxRetries).Install(w, 0, [self], 1, 0)
    case Err(_) => None
    case Ok(stewards) =>
      Some(Node(self, kMax, RoundState(Mls(Group(0, map[first := key], []), None, None), NewQueues(dedupWindow)),
                stewards, scoring.(scores := map[self := scoring.default]), false))
  }

  /** Seeding: everyone invited at the start comes in with one commit, unvoted and
      without a join epoch, and the list is rebuilt over all of them. */
  function Seed(w: World, n: Node, commit: Pending): (r: Option<Node>) {
    var g := Merge(n.s.mls.group, commit.commit, commit.actions);
    var d := DeltaOf(n.s.mls.group.seats, commit.actions);
    var settled := n.s.queues.Settled(Members(g.seats), g.epoch);
    match n.stewards.Install(w, g.epoch, settled, n.stewards.config.ListSize(|settled|), 0)
    case Err(_) => None
    case Ok(stewards) =>
      Some(n.(s := n.s.(mls := n.s.mls.(group := g)), stewards := stewards,
              scoring := n.scoring.(scores := ScoreAll(n.scoring.scores, d.added, n.scoring.default))))
  }

  /** From genesis on, seeded or not, scores and join epochs follow the seats through
      every run, as long as whatever sync is taken over lists seated members only. */
  lemma GenesisFollowsSeats(w: World, p: Policy, key: Bytes, kMax: nat, dedupWindow: nat, config: Config,
        maxRetries: nat,
        scoring: Scoring, seed: Option<Pending>, steps: seq<LifeStep>)
    requires seed.Some? ==> forall a :: a in seed.value.actions ==> a.Add?
    ensures var created := Create(w, key, kMax, dedupWindow, config, maxRetries, scoring);
            var founded := if created.Some? && seed.Some? then Seed(w, created.value, seed.value) else created;
            founded.Some? ==>
              var c := Conversing(NewLife(), founded.value);
              && KeyedBySeats(c.node)
              && (!RunLife(w, p, c, steps).node.left ==> SeatsAreScored(RunLife(w, p, c, steps).node))
              && (!RunLife(w, p, c, steps).node.left && SeatedSyncs(w, p, c, steps) ==> KeyedBySeats(RunLife(w, p, c, steps).node))
  {
    hide RunLife, SeatedSyncs, DeltaOf, ApplyActions, Members;
    var created := Create(w, key, kMax, dedupWindow, config, maxRetries, scoring);
    var founded := if created.Some? && seed.Some? then Seed(w, created.value, seed.value) else created;
    if founded.Some? {
      assert created.value.s.queues.joinEpoch == map[];
      if seed.Some? {
        SeedKeyed(w, created.value, seed.value);
      }
      if !RunLife(w, p, Conversing(NewLife(), founded.value), steps).node.left {
        ScoresFollowSeats(w, p, Conversing(NewLife(), founded.value), steps);
      }
    }
  }

  lemma AddsRemoveNobody(seats: Seats, actions: seq<Action>)
    requires forall a :: a in actions ==> a.Add?
    ensures SeatIds(DeltaOf(seats, actions).removed) == {}
  {
    hide ApplyActions;
    assert RemovedMembersOf(seats, actions) == map[];
  }

  lemma SeedKeyed(w: World, n: Node, commit: Pending)
    requires KeyedBySeats(n) && n.s.queues.joinEpoch == map[] && Seed(w, n, commit).Some?
    requires forall a :: a in commit.actions ==> a.Add?
    ensures KeyedBySeats(Seed(w, n, commit).value)
  {
    hide ApplyActions, DeltaOf, SeatIds, Members;
    IdsAfterMerge(n.s.mls.group.seats, commit.actions);
    AddsRemoveNobody(n.s.mls.group.seats, commit.actions);
  }
}
