/** How a group starts: the creator seeds it with one commit, and every founding member
    takes over the creator's sync. They start alike. */
module Founding {
  import opened ByteStrings
  import opened Sorting
  import opened Protocol
  import opened MlsGroup
  import opened StewardLists
  import opened Queues
  import opened CommitApply
  import opened Confluence
  import opened Nodes
  import opened Lockstep
  import opened Lifecycle
  import opened ConversationModel
  import opened SyncMessages
  import opened Membership
  import opened ConversationSync
  import opened ListsInForce
  import PeerScoring

  /** A member that joins from the welcome of the founding commit: the same group, empty
      queues, no list of its own yet. */
  function Joined(g: Group, self: Id, kMax: nat, dedupWindow: nat, config: Config, maxRetries: nat,
        scoring: Scoring): (n: Node) {
    Node(self, kMax, RoundState(Mls(g, None, None), NewQueues(dedupWindow)), Stewards(None, config, 0, maxRetries), scoring, false)
  }

  lemma EverybodySettled(members: seq<Id>, epoch: nat)
    ensures Keep(SettledIn(map[], epoch), members) == members
  {
    KeepAll(SettledIn(map[], epoch), members);
  }

  /** The list a seeded creator goes by is the one of an election in its epoch. */
  lemma SeededListIsElected(w: World, n: Node, commit: Pending)
    requires n.s.queues.joinEpoch == map[] && n.stewards.config.Valid() && Seed(w, n, commit).Some?
    ensures var founded := Seed(w, n, commit).value;
            && founded.stewards.list.Some? && ElectedAt(w, founded, founded.stewards.list.value)
            && founded.stewards.list.value.config == n.stewards.config
            && founded.stewards == n.stewards.(list := founded.stewards.list)
  {
    hide Members, Merge;
    var g := Merge(n.s.mls.group, commit.commit, commit.actions);
    var members := Members(g.seats);
    EverybodySettled(members, g.epoch);
    GeneratedFields(w, g.epoch, members, n.stewards.config.ListSize(|members|), n.stewards.config, 0);
    if members != [] {
      ValidateAcceptsExactlyCanonical(w, [], g.epoch, members, n.stewards.config, 0);
    }
  }

  /** Adopting the creator's sync gives the creator's stewards. */
  lemma AdoptedListIsSame(w: World, founded: Node, mine: Stewards, diverged: seq<(Id, int)>)
    requires founded.stewards.list.Some? && ElectedAt(w, founded, founded.stewards.list.value)
    requires founded.stewards.list.value.config == founded.stewards.config
    requires mine.nextRound == founded.stewards.nextRound
    ensures AdoptSync(w, mine, BuildSync(founded, diverged).value) == Ok(founded.stewards)
  {
    hide Members;
    var list := founded.stewards.list.value;
    var pool := founded.s.queues.Settled(Members(founded.s.mls.group.seats), list.electionEpoch);
    var sn := list.config.ListSize(|pool|);
    ValidateAcceptsExactlyCanonical(w, [], list.electionEpoch, pool, list.config, list.retryRound);
    ReinstallReproduces(w, list.electionEpoch, pool, sn, list.config, list.retryRound);
    GeneratedFields(w, list.electionEpoch, pool, sn, list.config, list.retryRound);
    GeneratedFields(w, list.electionEpoch, list.members, |list.members|, list.config, list.retryRound);
  }

  lemma QuietStart(w: World, n: Node, dedupWindow: nat)
    requires n.s.mls.own.None? && n.s.mls.staged.None?
    requires n.s.queues == NewQueues(dedupWindow)
    ensures NodeOk(w, n) && Known(n.s.queues, n.s.mls.group.epoch) == {}
  {
    FreshEpochInRound(w, n.s.mls.group, n.s.queues);
    InRoundWidens(w, n.s.mls.group, n.s.queues, {}, Known(n.s.queues, n.s.mls.group.epoch));
  }

  /** The creator of a group and any founding member that remembers as many commits as
      the creator does, whatever its other settings, start alike: the member accepts the
      creator's sync, which installs without error, and from then on the two are fit for
      lockstep. The size of that memory is the one setting that counts and that no sync
      carries. */
  lemma FoundersStartAlike(w: World, key: Bytes, kMax: nat, dedupWindow: nat, config: Config, maxRetries: nat,
        scoring: Scoring,
        commit: Pending, self: Id, ownKMax: nat, ownConfig: Config, ownRetries: nat, ownScoring: Scoring,
        diverged: seq<(Id, int)>)
    requires config.Valid() && PeerScoring.ScoresValid(scoring.default, scoring.threshold)
    requires Create(w, key, kMax, dedupWindow, config, maxRetries, scoring).Some?
    requires Seed(w, Create(w, key, kMax, dedupWindow, config, maxRetries, scoring).value, commit).Some?
    ensures var founded := Seed(w, Create(w, key, kMax, dedupWindow, config, maxRetries, scoring).value, commit).value;
            var joined := Joined(founded.s.mls.group, self, ownKMax, dedupWindow, ownConfig, ownRetries, ownScoring);
            var sync := BuildSync(founded, diverged);
            && sync.Some?
            && Wanted(joined.stewards, sync.value, joined.s.mls.group.epoch)
            && ValidateSync(w, sync.value, joined.s.mls.group.epoch, Members(joined.s.mls.group.seats)) == Ok(true)
            && AdoptSync(w, joined.stewards, sync.value).Ok?
            && var member := joined.(stewards := AdoptSync(w, joined.stewards, sync.value).value);
               NodeOk(w, founded) && NodeOk(w, member) && Alike(w, founded, member)
  {
    hide Members, Merge, ValidateSync, NodeOk, DeltaOf, Known, ElectedAt;
    var created := Create(w, key, kMax, dedupWindow, config, maxRetries, scoring).value;
    CreatedShape(w, key, kMax, dedupWindow, config, maxRetries, scoring);
    var founded := Seed(w, created, commit).value;
    var joined := Joined(founded.s.mls.group, self, ownKMax, dedupWindow, ownConfig, ownRetries, ownScoring);
    SeededListIsElected(w, created, commit);
    AdoptedListIsSame(w, founded, joined.stewards, diverged);
    var c := Conversing(NewLife(), founded);
    SyncPassesIff(w, DefaultPolicy(), c, [], founded.stewards.list.value, diverged);
    QuietStart(w, founded, dedupWindow);
    QuietStart(w, joined.(stewards := founded.stewards), dedupWindow);
  }

  function DefaultPolicy(): (p: Policy) { Policy(0, 0, 0, None, 0) }

  lemma CreatedShape(w: World, key: Bytes, kMax: nat, dedupWindow: nat, config: Config, maxRetries: nat,
        scoring: Scoring)
    requires Create(w, key, kMax, dedupWindow, config, maxRetries, scoring).Some?
    ensures var n := Create(w, key, kMax, dedupWindow, config, maxRetries, scoring).value;
            && n.s.queues == NewQueues(dedupWindow) && n.s.queues.joinEpoch == map[]
            && n.s.mls.own.None? && n.s.mls.staged.None? && !n.left
            && n.stewards.config == config && n.stewards.nextRound == 0
            && n.scoring.default == scoring.default && n.scoring.threshold == scoring.threshold
  {}

  // ── What founders send later ──

  lemma OnlyMember(seats: Seats, leaf: Leaf, key: Bytes)
    requires seats == map[leaf := key]
    ensures Members(seats) == [MemberIdOf(leaf)]
  {
    hide Members, MemberIdOf;
    var members, self := Members(seats), MemberIdOf(leaf);
    MembersDistinct(seats);
    MembersHas(seats, self);
    SeatIdsHas(seats, leaf);
    forall m | m in members ensures m == self { MembersHas(seats, m); }
    DistinctCardinality(members);
    assert ToSet(members) == {self} && members[0] in members;
  }

  lemma CreatedListIsElected(w: World, key: Bytes, kMax: nat, dedupWindow: nat, config: Config, maxRetries: nat,
        scoring: Scoring)
    requires config.Valid()
    ensures var created := Create(w, key, kMax, dedupWindow, config, maxRetries, scoring);
            && created.Some? && created.value.stewards.list.Some? && created.value.stewards.config == config
            && ElectedAt(w, created.value, created.value.stewards.list.value)
  {
    hide Members, Canonical, Generate;
    var first: Leaf := 0;
    var self := MemberIdOf(first);
    OnlyMember(map[first := key], first, key);
    EverybodySettled([self], 0);
    GeneratedFields(w, 0, [self], 1, config, 0);
    ValidateAcceptsExactlyCanonical(w, [], 0, [self], config, 0);
  }

  /** From genesis on, seeded or not, there is a list, and the sync a member builds from
      it passes the joiner's check exactly if none of its stewards has left since it was
      installed. */
  lemma GenesisSyncPassesIff(w: World, p: Policy, key: Bytes, kMax: nat, dedupWindow: nat, config: Config,
        maxRetries: nat,
        scoring: Scoring, seed: Option<Pending>, steps: seq<LifeStep>, diverged: seq<(Id, int)>)
    requires config.Valid() && PeerScoring.ScoresValid(scoring.default, scoring.threshold)
    ensures var created := Create(w, key, kMax, dedupWindow, config, maxRetries, scoring);
            var founded := if created.Some? && seed.Some? then Seed(w, created.value, seed.value) else created;
            founded.Some? ==>
              var c := Conversing(NewLife(), founded.value);
              var n', k := RunLife(w, p, c, steps).node, LastInstall(w, p, c, steps);
              !n'.left && DatedRun(w, p, c, steps) ==>
                && n'.stewards.list.Some?
                && (ValidateSync(w, BuildSync(n', diverged).value, n'.s.mls.group.epoch, Members(n'.s.mls.group.seats)) == Ok(true)
                    <==> forall m :: m in n'.stewards.list.value.members ==> m !in DeparturesIn(w, p, RunLife(w, p, c, steps[..k]), steps[k..]))
  {
    hide RunLife, DeparturesIn, LastInstall, DatedRun, Members, ElectedAt, ValidateSync, BuildSync, Create, Seed;
    CreatedListIsElected(w, key, kMax, dedupWindow, config, maxRetries, scoring);
    CreatedShape(w, key, kMax, dedupWindow, config, maxRetries, scoring);
    var created := Create(w, key, kMax, dedupWindow, config, maxRetries, scoring);
    var founded := if created.Some? && seed.Some? then Seed(w, created.value, seed.value) else created;
    if founded.Some? {
      if seed.Some? {
        SeededListIsElected(w, created.value, seed.value);
        SeedKeepsSettings(w, created.value, seed.value);
      }
      var c := Conversing(NewLife(), founded.value);
      if !RunLife(w, p, c, steps).node.left && DatedRun(w, p, c, steps) {
        ListInForceIsElected(w, p, c, steps);
        SentSyncPassesIff(w, p, c, steps, diverged);
      }
    }
  }

  lemma SeedKeepsSettings(w: World, n: Node, commit: Pending)
    requires Seed(w, n, commit).Some?
    ensures var founded := Seed(w, n, commit).value;
            && founded.scoring.default == n.scoring.default && founded.scoring.threshold == n.scoring.threshold
            && founded.left == n.left
  {
    hide Merge, DeltaOf, Members;
  }
}
