/** Will a joiner take the sync we send? Elections that were held long ago, worked out
    again from what is on record now. */
module ConversationSync {
  import opened ByteStrings
  import opened Sorting
  import opened Protocol
  import opened MlsGroup
  import opened StewardLists
  import opened Queues
  import opened Nodes
  import opened ConversationModel
  import opened Lifecycle
  import opened Membership
  import opened SyncMessages
  import PeerScoring

  // ── Will a joiner accept what we send? ──

  lemma SettledSeq(joinEpoch: map<Id, nat>, seats: Seats, epoch: nat)
    ensures var pool := Keep(SettledIn(joinEpoch, epoch), Members(seats));
            Distinct(pool) && forall m :: m in pool <==> m in SettledIds(joinEpoch, seats, epoch)
  {
    MembersDistinct(seats);
    KeepDistinct(SettledIn(joinEpoch, epoch), Members(seats));
    forall m ensures m in Keep(SettledIn(joinEpoch, epoch), Members(seats)) <==> m in SettledIds(joinEpoch, seats, epoch) {
      KeepMembers(SettledIn(joinEpoch, epoch), Members(seats), m);
      MembersHas(seats, m);
    }
  }

  /** The list everybody computes over who is on record as settled at its election, which
      is not ahead of the group. */
  ghost predicate Elected(w: World, joinEpoch: map<Id, nat>, g: Group, list: StewardList) {
    var pool := Keep(SettledIn(joinEpoch, list.electionEpoch), Members(g.seats));
    && list.electionEpoch <= g.epoch
    && list.config.Valid() && pool != []
    && list.members == Canonical(w, list.electionEpoch, pool, list.config, list.retryRound)
  }

  ghost predicate ElectedAt(w: World, n: Node, list: StewardList) {
    Elected(w, n.s.queues.joinEpoch, n.s.mls.group, list)
  }

  /** How the pools then and now relate. */
  lemma PoolsThenAndNow(w: World, p: Policy, c: Conversing, steps: seq<LifeStep>, epoch: nat)
    requires epoch <= c.node.s.mls.group.epoch && !RunLife(w, p, c, steps).node.left
    ensures var n, n' := c.node, RunLife(w, p, c, steps).node;
            var pool := n.s.queues.Settled(Members(n.s.mls.group.seats), epoch);
            var remaining := n'.s.queues.Settled(Members(n'.s.mls.group.seats), epoch);
            && n'.s.mls.group.epoch >= n.s.mls.group.epoch
            && Distinct(pool) && Distinct(remaining)
            && forall m :: m in remaining <==> m in pool && m !in DeparturesIn(w, p, c, steps)
  {
    hide RunLife, DeparturesIn, Members, SettledIds, SettledIn;
    var n, n' := c.node, RunLife(w, p, c, steps).node;
    RetrospectiveSettledness(w, p, c, steps, epoch);
    SettledSeq(n.s.queues.joinEpoch, n.s.mls.group.seats, epoch);
    SettledSeq(n'.s.queues.joinEpoch, n'.s.mls.group.seats, epoch);
  }

  /** Sender and joiner in the same group: the check comes down to the order of the list
      over what remains of the pool. */
  lemma SyncCheckIsListCheck(w: World, n: Node, list: StewardList, diverged: seq<(Id, int)>)
    requires n.stewards.list == Some(list) && list.config.Valid() && list.members != []
    requires list.electionEpoch <= n.s.mls.group.epoch
    requires PeerScoring.ScoresValid(n.scoring.default, n.scoring.threshold)
    ensures var members := Members(n.s.mls.group.seats);
            var remaining := n.s.queues.Settled(members, list.electionEpoch);
            ValidateSync(w, BuildSync(n, diverged).value, n.s.mls.group.epoch, members) == Ok(true)
            <==> Validate(w, list.members, list.electionEpoch, remaining, list.config, list.retryRound) == Ok(true)
  {
    hide Members;
    var members := Members(n.s.mls.group.seats);
    var remaining := n.s.queues.Settled(members, list.electionEpoch);
    JoinerRebuildsPool(n.s.queues.joinEpoch, list.electionEpoch, members);
    ValidateReadsSizes(w, list.members, list.electionEpoch, remaining, list.config, list.retryRound);
    if Validate(w, list.members, list.electionEpoch, remaining, list.config, list.retryRound) == Ok(true) {
      ValidateAcceptsExactlyCanonical(w, list.members, list.electionEpoch, remaining, list.config, list.retryRound);
      CanonicalMembers(w, list.electionEpoch, remaining, list.config, list.retryRound);
      assert list.members[0] in list.members && list.members[0] in remaining;
      KeepMembers(SettledIn(n.s.queues.joinEpoch, list.electionEpoch), members, list.members[0]);
    }
  }

  /** A member that applied every commit since the election, in recovery or not, sends a
      sync that passes the joiner's check exactly if none of the listed stewards has
      left since. */
  lemma SyncPassesIff(w: World, p: Policy, c: Conversing, steps: seq<LifeStep>, list: StewardList,
        diverged: seq<(Id, int)>)
    requires ElectedAt(w, c.node, list) && PeerScoring.ScoresValid(c.node.scoring.default, c.node.scoring.threshold)
    requires !RunLife(w, p, c, steps).node.left && RunLife(w, p, c, steps).node.stewards.list == Some(list)
    ensures var n' := RunLife(w, p, c, steps).node;
            ValidateSync(w, BuildSync(n', diverged).value, n'.s.mls.group.epoch, Members(n'.s.mls.group.seats)) == Ok(true)
            <==> forall m :: m in list.members ==> m !in DeparturesIn(w, p, c, steps)
  {
    hide RunLife, DeparturesIn, Members, Validate, Canonical, BuildSync, ValidateSync, SettledIds;
    var n, n' := c.node, RunLife(w, p, c, steps).node;
    var pool := n.s.queues.Settled(Members(n.s.mls.group.seats), list.electionEpoch);
    var remaining := n'.s.queues.Settled(Members(n'.s.mls.group.seats), list.electionEpoch);
    PoolsThenAndNow(w, p, c, steps, list.electionEpoch);
    ScoresStayValid(w, p, c, steps);
    CanonicalMembers(w, list.electionEpoch, pool, list.config, list.retryRound);
    ListIsNotEmpty(w, list.electionEpoch, pool, list.config, list.retryRound);
    ValidateReadsSizes(w, list.members, list.electionEpoch, remaining, list.config, list.retryRound);
    SyncCheckIsListCheck(w, n', list, diverged);
    assert forall m :: m in list.members ==> (m in remaining <==> m !in DeparturesIn(w, p, c, steps));
    if remaining != [] {
      CanonicalSurvivesDepartures(w, list.electionEpoch, pool, remaining, list.config, list.retryRound);
    } else {
      assert list.members[0] in list.members;
    }
  }

  lemma ListIsNotEmpty(w: World, epoch: nat, pool: seq<Id>, config: Config, round: nat)
    requires config.Valid() && pool != []
    ensures Canonical(w, epoch, pool, config, round) != []
  {
    SortByMultiset(Before(w, epoch, round), pool);
  }

  lemma ValidateReadsSizes(w: World, proposed: seq<Id>, epoch: nat, pool: seq<Id>, config: Config, round: nat)
    ensures Validate(w, proposed, epoch, pool, config, round) == Validate(w, proposed, epoch, pool, Config(config.snMin, config.snMax, false), round)
    ensures pool == [] ==> Validate(w, proposed, epoch, pool, config, round).Err?
  {}

  /** In particular it passes when nobody settled at the election has left. */
  lemma SyncPassesWithoutDepartures(w: World, p: Policy, c: Conversing, steps: seq<LifeStep>, list: StewardList,
        diverged: seq<(Id, int)>)
    requires ElectedAt(w, c.node, list) && PeerScoring.ScoresValid(c.node.scoring.default, c.node.scoring.threshold)
    requires !RunLife(w, p, c, steps).node.left && RunLife(w, p, c, steps).node.stewards.list == Some(list)
    requires SettledIds(c.node.s.queues.joinEpoch, c.node.s.mls.group.seats, list.electionEpoch) !! DeparturesIn(w, p, c, steps)
    ensures var n' := RunLife(w, p, c, steps).node;
            ValidateSync(w, BuildSync(n', diverged).value, n'.s.mls.group.epoch, Members(n'.s.mls.group.seats)) == Ok(true)
  {
    hide RunLife, DeparturesIn, Members, Canonical, ValidateSync, BuildSync, SettledIds;
    var n := c.node;
    var pool := n.s.queues.Settled(Members(n.s.mls.group.seats), list.electionEpoch);
    SettledSeq(n.s.queues.joinEpoch, n.s.mls.group.seats, list.electionEpoch);
    CanonicalMembers(w, list.electionEpoch, pool, list.config, list.retryRound);
    SyncPassesIff(w, p, c, steps, list, diverged);
  }
}
