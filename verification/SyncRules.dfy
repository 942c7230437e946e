/** When a sync from the wire may replace what a member goes by, and what the member holds
    afterwards. */
module SyncRules {
  import opened ByteStrings
  import opened Sorting
  import opened Protocol
  import opened MlsGroup
  import opened StewardLists
  import opened Queues
  import opened CommitApply
  import opened Nodes
  import opened SyncMessages
  import opened Lifecycle
  import opened ConversationModel
  import opened Membership
  import opened ConversationSync
  import opened Transitions
  import opened VoteEffects
  import opened PhaseMoves
  import opened ListsInForce
  import PeerScoring

  predicate Covers(list: StewardList, epoch: nat) {
    list.electionEpoch <= epoch < list.electionEpoch + |list.members|
  }

  /** The list may give way: there is none, or it does not cover the epoch and the sync
      is of a strictly later election. */
  predicate MayGiveWay(n: Node, sync: Sync) {
    n.stewards.list.Some? ==>
      !Covers(n.stewards.list.value, n.s.mls.group.epoch) && sync.electionEpoch > n.stewards.list.value.electionEpoch
  }

  // ── Which syncs are taken ──

  /** What the sync says holds together: the election is not ahead of us, everybody it
      calls unsettled is a member, the bounds make sense, the list is the one everybody
      computes over the remaining members, and the default score is positive and above
      the threshold. */
  ghost predicate HoldsTogether(w: World, n: Node, sync: Sync) {
    var members, default := Members(n.s.mls.group.seats), if sync.defaultScore == 0 then 100 else sync.defaultScore;
    var pool := Keep(Without(sync.unsettled), members);
    && sync.electionEpoch <= n.s.mls.group.epoch
    && (forall u :: u in sync.unsettled ==> u in members)
    && 1 <= sync.snMin <= sync.snMax
    && pool != [] && sync.stewards == Canonical(w, sync.electionEpoch, pool, Config(sync.snMin, sync.snMax, false), sync.retryRound)
    && default > 0 && default > sync.threshold
  }

  lemma CheckMeaning(w: World, n: Node, sync: Sync)
    ensures ValidateSync(w, sync, n.s.mls.group.epoch, Members(n.s.mls.group.seats)) == Ok(true) <==> HoldsTogether(w, n, sync)
  {
    hide Members, Canonical;
    var members, config := Members(n.s.mls.group.seats), Config(sync.snMin, sync.snMax, false);
    var pool := Keep(Without(sync.unsettled), members);
    if config.Valid() && pool != [] {
      ValidateAcceptsExactlyCanonical(w, sync.stewards, sync.electionEpoch, pool, config, sync.retryRound);
      ListIsNotEmpty(w, sync.electionEpoch, pool, config, sync.retryRound);
      CanonicalMembers(w, sync.electionEpoch, pool, config, sync.retryRound);
      if sync.stewards == Canonical(w, sync.electionEpoch, pool, config, sync.retryRound) {
        assert sync.stewards[0] in sync.stewards;
        KeepMembers(Without(sync.unsettled), members, sync.stewards[0]);
      }
    }
  }

  /** A sync is taken exactly if the list may give way and what it says holds together. */
  lemma SyncTakenIff(w: World, n: Node, sync: Sync)
    ensures Adopts(w, n, sync) <==> MayGiveWay(n, sync) && HoldsTogether(w, n, sync)
  {
    hide HoldsTogether, ValidateSync;
    CheckMeaning(w, n, sync);
  }

  /** What is held after a sync has been taken: the list it names, its bounds and retries,
      its default and threshold, the scores it lists, and the new default for everybody
      who was at the old one. */
  lemma SyncTaken(w: World, n: Node, sync: Sync)
    requires Adopts(w, n, sync)
    requires forall i, j :: 0 <= i < j < |sync.scores| ==> sync.scores[i].0 != sync.scores[j].0
    ensures var config := Config(sync.snMin, sync.snMax, sync.allowSubset);
            var after, default := OnSync(w, n, sync), if sync.defaultScore == 0 then 100 else sync.defaultScore;
            && after.stewards.list == Some(StewardList(sync.stewards, config, sync.electionEpoch, sync.retryRound))
            && after.stewards == Stewards(after.stewards.list, config, n.stewards.nextRound, sync.maxRetries)
            && after.scoring.default == default && after.scoring.threshold == sync.threshold && after.scoring.overrides == n.scoring.overrides
            && (forall entry :: entry in sync.scores ==> entry.0 in after.scoring.scores && after.scoring.scores[entry.0] == entry.1)
            && (forall m :: m in n.scoring.scores && (forall entry :: entry in sync.scores ==> entry.0 != m) ==>
                  && m in after.scoring.scores
                  && after.scoring.scores[m] == if n.scoring.scores[m] == n.scoring.default then default else n.scoring.scores[m])
  {
    hide Members, Canonical, Generate, ValidateSync;
    AcceptedSyncInstalls(w, n.stewards, sync, n.s.mls.group.epoch, Members(n.s.mls.group.seats));
    CheckMeaning(w, n, sync);
    var config := Config(sync.snMin, sync.snMax, sync.allowSubset);
    GeneratedFields(w, sync.electionEpoch, sync.stewards, |sync.stewards|, config, sync.retryRound);
    var rebased := PeerScoring.AdoptDefault(n.scoring.scores, n.scoring.default, sync.SyncedDefault());
    forall m ensures m in PeerScoring.Adopt(rebased, sync.scores) <==> m in rebased || exists entry :: entry in sync.scores && entry.0 == m {
      PeerScoring.AdoptLookup(rebased, sync.scores, m);
    }
    forall entry | entry in sync.scores ensures PeerScoring.Adopt(rebased, sync.scores)[entry.0] == entry.1 {
      PeerScoring.AdoptLookup(rebased, sync.scores, entry.0);
    }
    forall m | m in rebased && (forall entry :: entry in sync.scores ==> entry.0 != m)
      ensures PeerScoring.Adopt(rebased, sync.scores)[m] == rebased[m]
    {
      PeerScoring.AdoptLookup(rebased, sync.scores, m);
    }
  }

  /** A joiner that tracks the members of the sender, all at its own default, ends up with
      the sender's scores, default and threshold. */
  lemma SyncRebuildsScores(sender: Node, diverged: seq<(Id, int)>, mine: Scoring)
    requires sender.stewards.list.Some? && PeerScoring.ScoresValid(sender.scoring.default, sender.scoring.threshold)
    requires PeerScoring.IsSnapshot(sender.scoring.scores, sender.scoring.default, diverged)
    requires mine.scores.Keys == sender.scoring.scores.Keys && forall m :: m in mine.scores ==> mine.scores[m] == mine.default
    ensures AdoptScores(mine, BuildSync(sender, diverged).value) == sender.scoring.(overrides := mine.overrides)
  {
    hide Members;
    PeerScoring.SnapshotRebuildsTable(sender.scoring.scores, sender.scoring.default, mine.scores, mine.default, diverged);
  }

  // ── Over runs ──

  /** Whatever the sync and wherever in a run it comes: it moves nothing but the steward
      list and the scores, and moves those only if the list may give way. A list that
      covers the epoch survives it. */
  lemma SyncsReplaceOnlySpentLists(w: World, p: Policy, c: Conversing, steps: seq<LifeStep>, sync: Sync)
    ensures var before, after := RunLife(w, p, c, steps), RunLife(w, p, c, steps + [Synced(sync)]);
            && after == before.(node := before.node.(stewards := after.node.stewards, scoring := after.node.scoring))
            && (after != before ==> MayGiveWay(before.node, sync))
            && (before.node.stewards.list.Some? && Covers(before.node.stewards.list.value, before.node.s.mls.group.epoch) ==> after == before)
  {
    hide Adopts, RunLife, OnSync;
    var before := RunLife(w, p, c, steps);
    RunLonger(w, p, c, steps, Synced(sync));
    SyncTakenIff(w, before.node, sync);
    SyncMoves(w, before.node, sync);
    if !Adopts(w, before.node, sync) { UntakenIsIgnored(w, before.node, sync); }
  }

  lemma UntakenIsIgnored(w: World, n: Node, sync: Sync)
    requires !Adopts(w, n, sync)
    ensures OnSync(w, n, sync) == n
  {}

  /** No step is an accepted vote on a list. */
  predicate NoListVotes(steps: seq<LifeStep>) {
    forall s | s in steps :: s.Outcome? && s.approved ==> !s.request.StewardElection?
  }

  lemma ClosingKeepsLiveList(w: World, p: Policy, c: Conversing, now: nat, fails: bool)
    requires c.node.stewards.list.Some?
    requires Covers(c.node.stewards.list.value, CloseRound(w, p, c, now, fails).node.s.mls.group.epoch)
    ensures CloseRound(w, p, c, now, fails).node.stewards.list == c.node.stewards.list
  {
    hide FinalizeRound, Generate, RescoreMembers;
  }

  lemma FreezeKeepsLiveList(w: World, p: Policy, c: Conversing, step: LifeStep)
    requires step.Freeze? && !c.node.left
    requires c.node.stewards.list.Some?
    requires Covers(c.node.stewards.list.value, StepLife(w, p, c, step).node.s.mls.group.epoch)
    ensures StepLife(w, p, c, step).node.stewards.list == c.node.stewards.list
  {
    hide CloseRound, Ready, CollectionOver, Covers;
    var Freeze(now, minted, fails) := step;
    if c.life.phase == Freezing {
      FreezeIs(w, p, c, now, minted, fails);
      ReadyKeeps(w, p, c, now, minted);
      var ready := Ready(w, p, c, now, minted);
      if CollectionOver(p, ready, now) { ClosingKeepsLiveList(w, p, ready, now, fails); }
    }
  }

  lemma VoteKeepsList(w: World, p: Policy, c: Conversing, step: LifeStep)
    requires step.Outcome? && !(step.approved && step.request.StewardElection?) && !c.node.left
    ensures StepLife(w, p, c, step).node.stewards.list == c.node.stewards.list
  {
    hide StepLife;
    var Outcome(id, approved, request, now, minted) := step;
    if c.node.s.queues.resolved.Has(id) {
      VoteCountsOnce(w, p, c, id, approved, request, now, minted);
    } else if request.StewardElection? {
      ListVoteFails(w, p, c, id, request.election, now, minted);
    } else if OpensNow(c, step) {
      DeadlockKeepsList(w, p, c, id, request.evidence.value, now, minted);
    } else {
      OtherVotes(w, p, c, id, approved, request, now, minted);
    }
  }

  /** A list that covers the epoch before and after a step stays, unless a list is voted
      in. */
  lemma LiveListStays(w: World, p: Policy, c: Conversing, step: LifeStep)
    requires !(step.Outcome? && step.approved && step.request.StewardElection?)
    requires c.node.stewards.list.Some? && Covers(c.node.stewards.list.value, c.node.s.mls.group.epoch)
    requires Covers(c.node.stewards.list.value, StepLife(w, p, c, step).node.s.mls.group.epoch)
    ensures StepLife(w, p, c, step).node.stewards.list == c.node.stewards.list
  {
    hide StepLife, RunLife, OnSync, Adopts;
    if c.node.left {
      LeftRests(w, p, c, step);
    } else if step.Outcome? {
      VoteKeepsList(w, p, c, step);
    } else if step.Freeze? {
      FreezeKeepsLiveList(w, p, c, step);
    } else if step.Synced? {
      SyncsReplaceOnlySpentLists(w, p, c, [], step.sync);
      RunLonger(w, p, c, [], step);
      NothingRun(w, p, c);
    } else {
      OtherStepKeepsList(w, p, c, step);
    }
  }

  lemma LeftRests(w: World, p: Policy, c: Conversing, step: LifeStep)
    requires c.node.left
    ensures StepLife(w, p, c, step) == c
  {}

  lemma NothingRun(w: World, p: Policy, c: Conversing)
    ensures RunLife(w, p, c, []) == c
  {}

  /** Over every run without an accepted list vote, whatever syncs come in: a list that
      covers the epoch at the start and still covers it at the end is in force all along. */
  lemma {:induction false} LiveListSurvives(w: World, p: Policy, c: Conversing, steps: seq<LifeStep>)
    requires NoListVotes(steps) && !RunLife(w, p, c, steps).node.left
    requires c.node.stewards.list.Some? && Covers(c.node.stewards.list.value, c.node.s.mls.group.epoch)
    requires Covers(c.node.stewards.list.value, RunLife(w, p, c, steps).node.s.mls.group.epoch)
    ensures RunLife(w, p, c, steps).node.stewards.list == c.node.stewards.list
  {
    hide StepLife, Departures, DeltaOf, Stamped, ApplyActions, SeatIds, Adopting;
    if steps != [] {
      var rest, last := steps[..|steps| - 1], steps[|steps| - 1];
      assert steps == rest + [last] && last in steps && forall s :: s in rest ==> s in steps;
      var mid := RunLife(w, p, c, rest);
      LeftIsFinal(w, p, mid, last);
      var actions := StepMembership(w, p, mid, last);
      RetrospectiveSettledness(w, p, c, rest, 0);
      LiveListSurvives(w, p, c, rest);
      LiveListStays(w, p, mid, last);
    }
  }
}
