/** The one thing arrival order does decide within an epoch: whether a removal is
    urgent, and whose. */
module Urgency {
  import opened ByteStrings
  import opened Sorting
  import opened Protocol
  import opened MlsGroup
  import opened Queues
  import opened Consensus
  import opened CommitValidation
  import opened CommitApply
  import opened CandidateIntake
  import opened Outcomes
  import opened Confluence

  /** The member an accepted below-threshold vote is about. */
  function MarkOf(e: Event): (r: Option<Id>) {
    if e.Decide? && e.approved && HasEvidence(e.request, ScoreBelowThreshold) then Some(EvidenceOf(e.request).value.target) else None
  }

  /** Some other accepted vote removes the member. */
  predicate Bans(e: Event, target: Id) { e.Decide? && e.approved && e.request == RemoveMember(target) }

  /** Members with a below-threshold vote whose removal was not queued at the start. */
  function FreshMarks(acts: set<Action>, es: seq<Event>): (r: set<Id>) {
    set e | e in es && MarkOf(e).Some? && Remove(MarkOf(e).value) !in acts :: MarkOf(e).value
  }

  /** At most one such member, and no other vote removes it. */
  ghost predicate OrderFree(acts: set<Action>, es: seq<Event>) {
    && (forall t, u :: t in FreshMarks(acts, es) && u in FreshMarks(acts, es) ==> t == u)
    && (forall t, e :: t in FreshMarks(acts, es) && e in es ==> !Bans(e, t))
  }

  /** The last vote that finds its member's removal not queued yet. */
  function LastMark(w: World, acts: set<Action>, es: seq<Event>): (r: Option<Id>) {
    if es == [] then None
    else
      var rest, mark := es[..|es| - 1], MarkOf(es[|es| - 1]);
      if mark.Some? && Remove(mark.value) !in acts + GainedIn(w, rest) then mark else LastMark(w, acts, rest)
  }

  // ── What a run does to the mark ──

  lemma OutcomeUrgent(w: World, g: Group, q: Queues, id: nat, approved: bool, request: Request)
    requires !q.resolved.Has(id)
    ensures OnOutcome(w, g, q, id, approved, request).0.urgent
         == var mark := MarkOf(Decide(id, approved, request));
            if mark.Some? && Remove(mark.value) !in ApprovedActions(w, q.approved) then mark else q.urgent
  {
    hide Replay;
    ApprovedActionsHas(w, q);
    var marked := q.(resolved := q.resolved.Insert(id));
    ReplayTouches(w, g, ApplyConsensus(w, marked, id, approved, request).0);
  }

  lemma {:induction false} RunUrgent(w: World, m: Member, s: RoundState, es: seq<Event>, universe: set<Candidate>)
    requires MemberOk(w, m, s, universe) && FitsRound(w, s.mls.group, universe) && RunOk(w, m, s, es, universe)
    ensures RunRound(w, m, s, es).queues.urgent
         == match LastMark(w, ApprovedActions(w, s.queues.approved), es) case Some(t) => Some(t) case None => s.queues.urgent
  {
    hide MemberOk, FitsRound, ApprovedActions, OnOutcome, Receive, MintInputs, Elect, Gained, MarkOf;
    if es != [] {
      var rest, last := es[..|es| - 1], es[|es| - 1];
      RunUrgent(w, m, s, rest, universe);
      RunEffect(w, m, s, rest, universe);
      var mid := RunRound(w, m, s, rest);
      match last
      case Decide(id, approved, request) => OutcomeUrgent(w, mid.mls.group, mid.queues, id, approved, request);
      case ListVote(id, accepted, election) =>
        OutcomeUrgent(w, mid.mls.group, mid.queues, id, accepted, StewardElection(election));
        OnlyDecisionsMark(last);
        OnlyDecisionsMark(Decide(id, accepted, StewardElection(election)));
      case Arrive(msg) =>
        ReceiveTouches(w, mid.mls.group, mid.queues, msg);
        OnlyDecisionsMark(last);
      case MintOwn(_) => OnlyDecisionsMark(last);
      case Silent => OnlyDecisionsMark(last);
    }
  }

  lemma OnlyDecisionsMark(e: Event)
    ensures MarkOf(e).Some? ==> e.Decide? && e.request.EmergencyCriteria?
  {}

  // ── Marks in a sequence ──

  lemma GainsRemoval(w: World, es: seq<Event>, t: Id)
    ensures Remove(t) in GainedIn(w, es) <==> exists e :: e in es && (MarkOf(e) == Some(t) || Bans(e, t))
  {
    GainedInHas(w, es, Remove(t));
    forall e | e in es ensures Remove(t) in Gained(w, e) <==> MarkOf(e) == Some(t) || Bans(e, t) {
      GainsRemovalAt(w, e, t);
    }
  }

  lemma GainsRemovalAt(w: World, e: Event, t: Id)
    ensures Remove(t) in Gained(w, e) <==> MarkOf(e) == Some(t) || Bans(e, t)
  {}

  /** Under the condition the outcome can be read off without looking at the order. */
  lemma {:induction false} OrderFreeMark(w: World, acts: set<Action>, es: seq<Event>)
    requires OrderFree(acts, es)
    ensures match LastMark(w, acts, es) case Some(t) => FreshMarks(acts, es) == {t} case None => FreshMarks(acts, es) == {}
  {
    hide MarkOf, Bans, GainedIn;
    if es != [] {
      var rest, last := es[..|es| - 1], es[|es| - 1];
      assert es == rest + [last];
      FreshMarksGrow(acts, rest, last);
      OrderFreeMark(w, acts, rest);
      if MarkOf(last).Some? {
        GainsRemoval(w, rest, MarkOf(last).value);
        FreshMarksHas(acts, rest, MarkOf(last).value);
      }
    }
  }

  lemma FreshMarksGrow(acts: set<Action>, es: seq<Event>, e: Event)
    ensures FreshMarks(acts, es + [e])
         == FreshMarks(acts, es) + if MarkOf(e).Some? && Remove(MarkOf(e).value) !in acts then {MarkOf(e).value} else {}
  {
    hide MarkOf;
    assert e in es + [e] && forall x :: x in es ==> x in es + [e];
  }

  lemma FreshMarksHas(acts: set<Action>, es: seq<Event>, t: Id)
    ensures t in FreshMarks(acts, es) <==> Remove(t) !in acts && exists e :: e in es && MarkOf(e) == Some(t)
  {
    hide MarkOf;
  }

  /** Votes without a mark at the end change nothing. */
  lemma {:induction false} MarklessTail(w: World, acts: set<Action>, es: seq<Event>, tail: seq<Event>)
    requires forall e :: e in tail ==> MarkOf(e).None?
    ensures LastMark(w, acts, es + tail) == LastMark(w, acts, es)
  {
    hide MarkOf;
    if tail == [] {
      assert es + tail == es;
    } else {
      var rest := tail[..|tail| - 1];
      assert (es + tail)[..|es + tail| - 1] == es + rest;
      assert tail[|tail| - 1] in tail;
      MarklessTail(w, acts, es, rest);
    }
  }

  /** Votes on one member, not queued before, mark it. */
  lemma {:induction false} MarkedTail(w: World, acts: set<Action>, es: seq<Event>, tail: seq<Event>, t: Id)
    requires tail != [] && forall e :: e in tail ==> MarkOf(e) == Some(t)
    requires Remove(t) !in acts + GainedIn(w, es)
    ensures LastMark(w, acts, es + tail) == Some(t)
  {
    hide MarkOf, GainedIn;
    var rest := tail[..|tail| - 1];
    assert (es + tail)[..|es + tail| - 1] == es + rest;
    assert tail[|tail| - 1] in tail;
    if rest != [] {
      MarkedTail(w, acts, es, rest, t);
    } else {
      assert es + rest == es;
    }
  }

  /** Votes whose removals are queued already mark nobody. */
  lemma {:induction false} QueuedTail(w: World, acts: set<Action>, es: seq<Event>, tail: seq<Event>)
    requires LastMark(w, acts, es).None?
    requires forall e :: e in tail && MarkOf(e).Some? ==> Remove(MarkOf(e).value) in acts + GainedIn(w, es)
    ensures LastMark(w, acts, es + tail).None?
  {
    hide MarkOf;
    if tail == [] {
      assert es + tail == es;
    } else {
      var rest := tail[..|tail| - 1];
      assert (es + tail)[..|es + tail| - 1] == es + rest;
      assert tail[|tail| - 1] in tail;
      QueuedTail(w, acts, es, rest);
      GainsGrow(w, es, rest);
    }
  }

  lemma GainsGrow(w: World, a: seq<Event>, b: seq<Event>)
    ensures GainedIn(w, a) <= GainedIn(w, a + b)
  {
    hide Gained;
    forall x | x in GainedIn(w, a) ensures x in GainedIn(w, a + b) {
      GainedInHas(w, a, x);
      GainedInHas(w, a + b, x);
    }
  }

  // ── Two orders that differ ──

  function MarksOther(t: Id): Event -> bool { (e: Event) => MarkOf(e).Some? && MarkOf(e) != Some(t) }
  function MarksThis(t: Id): Event -> bool { (e: Event) => MarkOf(e) == Some(t) }
  function Markless(): Event -> bool { (e: Event) => MarkOf(e).None? }
  function Marking(): Event -> bool { (e: Event) => MarkOf(e).Some? }

  /** The order in which `t` is marked last: first every other mark, then those on `t`,
      then everything else. */
  function MarkedLast(es: seq<Event>, t: Id): (r: seq<Event>) {
    Keep(MarksOther(t), es) + Keep(MarksThis(t), es) + Keep(Markless(), es)
  }

  /** The order in which nobody is marked that some other vote removes. */
  function MarksAtEnd(es: seq<Event>): (r: seq<Event>) { Keep(Markless(), es) + Keep(Marking(), es) }

  lemma MarkedLastPermutes(es: seq<Event>, t: Id)
    ensures multiset(MarkedLast(es, t)) == multiset(es)
  {
    forall e ensures multiset(MarkedLast(es, t))[e] == multiset(es)[e] {
      KeepCount(MarksOther(t), es, e);
      KeepCount(MarksThis(t), es, e);
      KeepCount(Markless(), es, e);
    }
  }

  lemma MarksAtEndPermutes(es: seq<Event>)
    ensures multiset(MarksAtEnd(es)) == multiset(es)
  {
    forall e ensures multiset(MarksAtEnd(es))[e] == multiset(es)[e] {
      KeepCount(Marking(), es, e);
      KeepCount(Markless(), es, e);
    }
  }

  lemma MarkedLastMarks(w: World, acts: set<Action>, es: seq<Event>, t: Id)
    requires t in FreshMarks(acts, es)
    ensures LastMark(w, acts, MarkedLast(es, t)) == Some(t)
  {
    hide LastMark;
    var others, these, rest := Keep(MarksOther(t), es), Keep(MarksThis(t), es), Keep(Markless(), es);
    forall e ensures (e in others <==> e in es && MarksOther(t)(e)) && (e in these <==> e in es && MarksThis(t)(e))
                     && (e in rest <==> e in es && Markless()(e)) {
      KeepMembers(MarksOther(t), es, e);
      KeepMembers(MarksThis(t), es, e);
      KeepMembers(Markless(), es, e);
    }
    GainsRemoval(w, others, t);
    MarkedTail(w, acts, others, these, t);
    MarklessTail(w, acts, others + these, rest);
  }

  lemma MarksAtEndMarksNobody(w: World, acts: set<Action>, es: seq<Event>)
    requires forall t :: t in FreshMarks(acts, es) ==> exists e :: e in es && Bans(e, t)
    ensures LastMark(w, acts, MarksAtEnd(es)).None?
  {
    hide LastMark;
    var rest, marks := Keep(Markless(), es), Keep(Marking(), es);
    forall e ensures (e in rest <==> e in es && Markless()(e)) && (e in marks <==> e in es && Marking()(e)) {
      KeepMembers(Markless(), es, e);
      KeepMembers(Marking(), es, e);
    }
    forall e | e in marks && Remove(MarkOf(e).value) !in acts ensures Remove(MarkOf(e).value) in GainedIn(w, rest) {
      var t := MarkOf(e).value;
      assert t in FreshMarks(acts, es);
      var b :| b in es && Bans(b, t);
      assert b in rest;
      GainsRemoval(w, rest, t);
    }
    MarklessTail(w, acts, [], rest);
    assert [] + rest == rest;
    NoMarks(w, acts);
    QueuedTail(w, acts, rest, marks);
  }

  lemma NoMarks(w: World, acts: set<Action>)
    ensures LastMark(w, acts, []).None?
  {}

  /** If the condition fails, two orders of the same votes end with different marks. */
  lemma TwoOrders(w: World, acts: set<Action>, es: seq<Event>) returns (a: seq<Event>, b: seq<Event>)
    requires !OrderFree(acts, es)
    ensures multiset(a) == multiset(es) == multiset(b)
    ensures LastMark(w, acts, a).Some? && LastMark(w, acts, a).value in FreshMarks(acts, es)
    ensures LastMark(w, acts, b) != LastMark(w, acts, a)
  {
    hide LastMark;
    if t, u :| t in FreshMarks(acts, es) && u in FreshMarks(acts, es) && t != u {
      a, b := MarkedLast(es, t), MarkedLast(es, u);
      MarkedLastPermutes(es, t);
      MarkedLastPermutes(es, u);
      MarkedLastMarks(w, acts, es, t);
      MarkedLastMarks(w, acts, es, u);
    } else {
      var t, e :| t in FreshMarks(acts, es) && e in es && Bans(e, t);
      a, b := MarkedLast(es, t), MarksAtEnd(es);
      MarkedLastPermutes(es, t);
      MarksAtEndPermutes(es);
      MarkedLastMarks(w, acts, es, t);
      MarksAtEndMarksNobody(w, acts, es);
    }
  }

  /** Within an epoch, all orders of the same votes and receipts agree on the urgent
      target exactly if at most one member not yet queued for removal has an accepted
      below-threshold vote, and no other accepted vote removes that member. */
  lemma UrgencyIsOrderFreeIff(w: World, m: Member, s: RoundState, es: seq<Event>, universe: set<Candidate>)
    requires MemberOk(w, m, s, universe) && FitsRound(w, s.mls.group, universe) && QuietEvents(w, s, es, universe)
    ensures OrderFree(ApprovedActions(w, s.queues.approved), es)
            <==> forall other :: multiset(other) == multiset(es)
                   ==> RunRound(w, m, s, other).queues.urgent == RunRound(w, m, s, es).queues.urgent
  {
    hide MemberOk, FitsRound, QuietEvents, RunBoth, LastMark, FreshMarks, ApprovedActions;
    var acts := ApprovedActions(w, s.queues.approved);
    if OrderFree(acts, es) {
      forall other | multiset(other) == multiset(es)
        ensures RunRound(w, m, s, other).queues.urgent == RunRound(w, m, s, es).queues.urgent
      {
        SameMarks(acts, es, other);
        OrderFreeMark(w, acts, es);
        OrderFreeMark(w, acts, other);
        UrgentOf(w, m, s, es, es, universe);
        UrgentOf(w, m, s, es, other, universe);
      }
    } else {
      var a, b := TwoOrders(w, acts, es);
      UrgentOf(w, m, s, es, a, universe);
      UrgentOf(w, m, s, es, b, universe);
      StartIsNotFresh(w, m, s, es, universe);
      assert RunRound(w, m, s, a).queues.urgent != RunRound(w, m, s, b).queues.urgent;
    }
  }

  lemma UrgentOf(w: World, m: Member, s: RoundState, es: seq<Event>, other: seq<Event>, universe: set<Candidate>)
    requires MemberOk(w, m, s, universe) && FitsRound(w, s.mls.group, universe) && QuietEvents(w, s, es, universe)
    requires multiset(other) == multiset(es)
    ensures RunRound(w, m, s, other).queues.urgent
         == match LastMark(w, ApprovedActions(w, s.queues.approved), other) case Some(t) => Some(t) case None => s.queues.urgent
  {
    hide MemberOk, FitsRound, QuietEvents, RunBoth, LastMark, ApprovedActions;
    QuietPermutes(w, s, es, other, universe);
    QuietRun(w, m, s, other, universe);
    RunUrgent(w, m, s, other, universe);
  }

  lemma SameMarks(acts: set<Action>, es: seq<Event>, other: seq<Event>)
    requires multiset(es) == multiset(other) && OrderFree(acts, es)
    ensures FreshMarks(acts, es) == FreshMarks(acts, other) && OrderFree(acts, other)
  {
    hide MarkOf, Bans;
    assert forall e :: e in es <==> e in multiset(es);
    assert forall e :: e in other <==> e in multiset(other);
  }

  /** Whoever is urgent at the start has its removal queued. */
  lemma StartIsNotFresh(w: World, m: Member, s: RoundState, es: seq<Event>, universe: set<Candidate>)
    requires MemberOk(w, m, s, universe)
    ensures s.queues.urgent.Some? ==> s.queues.urgent.value !in FreshMarks(ApprovedActions(w, s.queues.approved), es)
  {
    MemberIsClean(w, m, s, universe);
    ApprovedActionsHas(w, s.queues);
  }

  /** A mark outlives the commit it was meant for: after the same commit the member that
      holds it keeps its queue, the one that does not drains it. Their counts agree from
      then on exactly if the queue held nothing but removals that are done. */
  lemma UrgencySplitsQueues(w: World, q: Queues, t: Id, d: Delta, hash: Bytes, epoch: nat)
    requires Hygienic(w, q) && q.urgent.None?
    ensures var plain := FinalizeBatch(q.(delta := Some(d)), hash, epoch).0;
            var marked := FinalizeBatch(q.(delta := Some(d), urgent := Some(t)), hash, epoch).0;
            var done := SeatIds(d.removed) + {t};
            && plain.approved == []
            && marked.approved == Keep(Survives(done), q.approved)
            && plain.urgent.None? && marked.urgent.None?
            && (MlsCount(marked.approved) == MlsCount(plain.approved)
                <==> forall a :: a in q.approved ==> a.request.RemoveMember? && a.request.target in done)
  {
    var gone := SeatIds(d.removed);
    var kept := Keep(Survives(gone + {t}), q.approved);
    KeepKeep(Survives({t}), Survives(gone), Survives(gone + {t}), q.approved);
    forall a ensures a in kept <==> a in q.approved && Survives(gone + {t})(a) { KeepMembers(Survives(gone + {t}), q.approved, a); }
    MlsCountAll(kept);
    HasFirst(kept);
  }
}
