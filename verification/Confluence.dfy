/** One epoch at one member: votes resolve, candidates arrive, our own is minted, in
    any order. What the member ends up with depends on what happened, not on when. */
module Confluence {
  import opened ByteStrings
  import opened Sorting
  import opened Protocol
  import opened MlsGroup
  import opened StewardLists
  import opened CommitBuffer
  import opened Queues
  import opened Consensus
  import opened CommitApply
  import opened CandidateIntake
  import opened Outcomes
  import opened Agreement

  // ── What a member knows ──

  function Live(q: Queues, epoch: nat): (r: set<Candidate>) { Messages(q.round.For(epoch)) }

  function Stashed(q: Queues, epoch: nat): (r: set<Candidate>) { set c | c in q.EarlyFor(epoch) }

  function Known(q: Queues, epoch: nat): (r: set<Candidate>) { Live(q, epoch) + Stashed(q, epoch) }

  /** Equal hash implies equal candidate. */
  ghost predicate CollisionFree(w: World, universe: set<Candidate>) {
    forall x, y :: x in universe && y in universe && w.commitHash(x.commit) == w.commitHash(y.commit) ==> x == y
  }

  /** The candidates of an epoch, few enough for the per-member cap. */
  ghost predicate FitsRound(w: World, g: Group, universe: set<Candidate>) {
    CollisionFree(w, universe) && |universe| <= |Members(g.seats)|
  }

  /** What holds all through an epoch: known candidates wait in the buffer once
      anything is approved, and in the stash until then. */
  ghost predicate InRound(w: World, g: Group, q: Queues, universe: set<Candidate>) {
    && Hygienic(w, q)
    && CommitRound(0, q.round.For(g.epoch)).Valid(w)
    && Distinct(q.EarlyFor(g.epoch))
    && Known(q, g.epoch) <= universe
    && (forall c :: c in Known(q, g.epoch) ==> Admissible(w, q.committed, c))
    && (q.approved == [] ==> q.round.For(g.epoch) == [])
    && (q.approved != [] ==> q.EarlyFor(g.epoch) == [])
    && (forall e :: e in q.early ==> e.epoch <= g.epoch)
  }

  // ── Receiving one candidate ──

  lemma CandidatesFacts(kept: seq<Early>, e: Early, commit: Bytes)
    ensures Candidates(kept + [e]) == Candidates(kept) + [e.candidate]
    ensures (exists x | x in kept :: x.candidate.commit == commit) <==> (exists c | c in Candidates(kept) :: c.commit == commit)
  {
    var cs := Candidates(kept);
    assert forall i :: 0 <= i < |kept| ==> cs[i] == kept[i].candidate && kept[i] in kept && cs[i] in cs;
  }

  lemma StashEffect(q: Queues, epoch: nat, msg: Candidate, cap: nat)
    ensures q.Stash(epoch, msg, cap).EarlyFor(epoch)
         == if (exists c | c in q.EarlyFor(epoch) :: c.commit == msg.commit) || |q.EarlyFor(epoch)| >= cap then q.EarlyFor(epoch)
            else q.EarlyFor(epoch) + [msg]
  {
    hide Candidates;
    var kept := Keep(OfEpoch(epoch), q.early);
    forall e | e in kept ensures OfEpoch(epoch)(e) { KeepMembers(OfEpoch(epoch), q.early, e); }
    KeepAll(OfEpoch(epoch), kept);
    KeepAll(OfEpoch(epoch), kept + [Early(epoch, msg)]);
    CandidatesFacts(kept, Early(epoch, msg), msg.commit);
    CandidatesLength(kept);
  }

  lemma CandidatesLength(kept: seq<Early>)
    ensures |Candidates(kept)| == |kept|
  {}

  /** Distinct elements of a set that misses one of its members are fewer than the set. */
  lemma FewerThan<T>(s: seq<T>, universe: set<T>, missing: T)
    requires Distinct(s) && missing in universe && missing !in s && forall x :: x in s ==> x in universe
    ensures |s| < |universe|
  {
    DistinctCardinality(s);
    SubsetCardinality(ToSet(s), universe - {missing});
  }

  lemma BufferedFewer(w: World, candidates: seq<Buffered>, universe: set<Candidate>, missing: Candidate)
    requires CommitRound(0, candidates).Valid(w) && Messages(candidates) <= universe
    requires missing in universe && missing !in Messages(candidates)
    ensures |candidates| < |universe|
  {
    var msgs := MapSeq((c: Buffered) => c.msg, candidates);
    forall i, j | 0 <= i < j < |msgs| ensures msgs[i] != msgs[j] {
      assert candidates[i].hash != candidates[j].hash && candidates[i] in candidates && candidates[j] in candidates;
    }
    forall x | x in msgs ensures x in Messages(candidates) {
      var i :| 0 <= i < |msgs| && msgs[i] == x;
      assert candidates[i] in candidates;
    }
    FewerThan(msgs, universe, missing);
  }

  /** Adding a candidate of the universe to the current round's buffer: it is there
      afterwards, whether or not it was before. */
  lemma AddEffect(w: World, r: CommitRound, msg: Candidate, isLocal: bool, epoch: nat, cap: nat,
        universe: set<Candidate>)
    requires CommitRound(0, r.For(epoch)).Valid(w) && Messages(r.For(epoch)) <= universe && msg in universe
    requires CollisionFree(w, universe) && |universe| <= cap
    ensures var r' := r.Add(w, msg, isLocal, epoch, cap);
            && r'.epoch == epoch && r'.For(epoch) == r'.candidates
            && CommitRound(0, r'.For(epoch)).Valid(w)
            && Messages(r'.For(epoch)) == Messages(r.For(epoch)) + {msg}
            && (forall c :: c in r'.For(epoch) ==> c in r.For(epoch) || c == Buffered(msg, w.commitHash(msg.commit), isLocal))
  {
    var base := CommitRound(0, r.For(epoch));
    assert r.At(epoch).candidates == base.candidates;
    AddKeepsHashesDistinct(w, base, msg, isLocal, 0, cap);
    if r.At(epoch).HasHash(w.commitHash(msg.commit)) {
      var c :| c in base.candidates && c.hash == w.commitHash(msg.commit);
      assert c.msg in Messages(base.candidates);
      assert c.msg == msg;
    } else {
      assert msg !in Messages(base.candidates);
      BufferedFewer(w, base.candidates, universe, msg);
      var grown := base.candidates + [Buffered(msg, w.commitHash(msg.commit), isLocal)];
      MessagesGrow(base.candidates, Buffered(msg, w.commitHash(msg.commit), isLocal));
      assert base.Add(w, msg, isLocal, 0, cap).candidates == grown;
    }
  }

  lemma MessagesGrow(candidates: seq<Buffered>, c: Buffered)
    ensures Messages(candidates + [c]) == Messages(candidates) + {c.msg}
  {
    assert c in candidates + [c];
    assert forall x :: x in candidates ==> x in candidates + [c];
  }

  lemma StashIsCurrent(q: Queues, epoch: nat, msg: Candidate, cap: nat)
    ensures forall e :: e in q.Stash(epoch, msg, cap).early ==> e.epoch == epoch
  {
    forall e | e in Keep(OfEpoch(epoch), q.early) ensures e.epoch == epoch { KeepMembers(OfEpoch(epoch), q.early, e); }
  }

  lemma StashKnows(w: World, q: Queues, epoch: nat, msg: Candidate, cap: nat, universe: set<Candidate>)
    requires Distinct(q.EarlyFor(epoch)) && Stashed(q, epoch) <= universe && msg in universe
    requires CollisionFree(w, universe) && |universe| <= cap
    ensures var q' := q.Stash(epoch, msg, cap);
            Distinct(q'.EarlyFor(epoch)) && Stashed(q', epoch) == Stashed(q, epoch) + {msg}
  {
    hide Candidates;
    StashEffect(q, epoch, msg, cap);
    var early := q.EarlyFor(epoch);
    if exists c | c in early :: c.commit == msg.commit {
      var c :| c in early && c.commit == msg.commit;
      assert c in Stashed(q, epoch) && c == msg;
    } else {
      assert forall x :: x in early ==> x in Stashed(q, epoch);
      FewerThan(early, universe, msg);
      assert forall x :: x in early + [msg] <==> x in early || x == msg;
    }
  }

  lemma ReceiveStashes(w: World, g: Group, q: Queues, msg: Candidate, universe: set<Candidate>)
    requires InRound(w, g, q, universe) && FitsRound(w, g, universe) && msg in universe
    requires q.approved == [] && Admissible(w, q.committed, msg)
    ensures var q' := q.Stash(g.epoch, msg, |Members(g.seats)|);
            InRound(w, g, q', universe) && Known(q', g.epoch) == Known(q, g.epoch) + {msg}
  {
    hide Hygienic, Admissible;
    var cap := |Members(g.seats)|;
    StashKnows(w, q, g.epoch, msg, cap, universe);
    StashIsCurrent(q, g.epoch, msg, cap);
    HygieneReads(w, q, q.Stash(g.epoch, msg, cap));
  }

  lemma BufferEffect(w: World, g: Group, q: Queues, msg: Candidate, isLocal: bool, universe: set<Candidate>)
    requires InRound(w, g, q, universe) && FitsRound(w, g, universe) && msg in universe
    requires q.approved != [] && Admissible(w, q.committed, msg)
    ensures var q' := q.(round := q.round.Add(w, msg, isLocal, g.epoch, |Members(g.seats)|));
            && InRound(w, g, q', universe) && Known(q', g.epoch) == Known(q, g.epoch) + {msg}
            && (forall c :: c in q'.round.For(g.epoch) ==> c in q.round.For(g.epoch) || c == Buffered(msg, w.commitHash(msg.commit), isLocal))
  {
    hide Hygienic, Admissible;
    var q' := q.(round := q.round.Add(w, msg, isLocal, g.epoch, |Members(g.seats)|));
    assert Stashed(q, g.epoch) == {};
    AddEffect(w, q.round, msg, isLocal, g.epoch, |Members(g.seats)|, universe);
    HygieneReads(w, q, q');
    assert q'.EarlyFor(g.epoch) == [];
  }

  /** Receiving a candidate of the universe adds it to what is known if it is
      admissible, and changes nothing otherwise. */
  lemma ReceiveEffect(w: World, g: Group, q: Queues, msg: Candidate, universe: set<Candidate>)
    requires InRound(w, g, q, universe) && FitsRound(w, g, universe) && msg in universe
    ensures var q' := Receive(w, g, q, msg).0;
            && InRound(w, g, q', universe)
            && Known(q', g.epoch) == Known(q, g.epoch) + (if Admissible(w, q.committed, msg) then {msg} else {})
            && (forall c :: c in q'.round.For(g.epoch) && c.isLocal ==> c in q.round.For(g.epoch))
  {
    hide InRound, FitsRound, Known;
    if Admissible(w, q.committed, msg) {
      if q.approved == [] {
        ReceiveStashes(w, g, q, msg, universe);
      } else {
        BufferEffect(w, g, q, msg, false, universe);
      }
    }
  }

  lemma {:induction false} ReceiveAllEffect(w: World, g: Group, q: Queues, msgs: seq<Candidate>,
        universe: set<Candidate>)
    requires InRound(w, g, q, universe) && FitsRound(w, g, universe)
    requires forall c :: c in msgs ==> c in universe && Admissible(w, q.committed, c)
    ensures var q' := ReceiveAll(w, g, q, msgs);
            && InRound(w, g, q', universe)
            && Known(q', g.epoch) == Known(q, g.epoch) + (set c | c in msgs)
            && (forall c :: c in q'.round.For(g.epoch) && c.isLocal ==> c in q.round.For(g.epoch))
  {
    hide InRound, FitsRound, Known, Receive, Admissible;
    if msgs != [] {
      var rest, last := msgs[..|msgs| - 1], msgs[|msgs| - 1];
      assert msgs == rest + [last];
      ReceiveAllEffect(w, g, q, rest, universe);
      ReceiveAllTouches(w, g, q, rest);
      ReceiveEffect(w, g, ReceiveAll(w, g, q, rest), last, universe);
    }
  }

  /** Replay loses nothing and invents nothing. */
  lemma ReplayEffect(w: World, g: Group, q: Queues, universe: set<Candidate>)
    requires Hygienic(w, q) && FitsRound(w, g, universe)
    requires CommitRound(0, q.round.For(g.epoch)).Valid(w)
    requires Known(q, g.epoch) <= universe && forall c :: c in Known(q, g.epoch) ==> Admissible(w, q.committed, c)
    requires q.approved == [] ==> q.round.For(g.epoch) == []
    ensures var q' := Replay(w, g, q);
            && InRound(w, g, q', universe)
            && Known(q', g.epoch) == Known(q, g.epoch)
            && (forall c :: c in q'.round.For(g.epoch) && c.isLocal ==> c in q.round.For(g.epoch))
  {
    hide FitsRound, Hygienic, ReceiveAll, Admissible;
    var taken := q.(early := []);
    HygieneReads(w, q, taken);
    assert taken.EarlyFor(g.epoch) == [];
    ReceiveAllEffect(w, g, taken, q.EarlyFor(g.epoch), universe);
  }

  /** A vote moves what is known from the stash to the buffer at most. */
  lemma DecideEffect(w: World, g: Group, q: Queues, id: nat, approved: bool, request: Request, universe: set<Candidate>)
    requires InRound(w, g, q, universe) && FitsRound(w, g, universe)
    requires FreshId(q, id) && !q.resolved.Has(id) && WellFormed(w, request)
    ensures var q' := OnOutcome(w, g, q, id, approved, request).0;
            && InRound(w, g, q', universe)
            && Known(q', g.epoch) == Known(q, g.epoch)
            && ApprovedActions(w, q.approved) <= ApprovedActions(w, q'.approved)
            && (forall c :: c in q'.round.For(g.epoch) && c.isLocal ==> c in q.round.For(g.epoch))
  {
    hide Hygienic, ApplyConsensus, Replay, Admissible, Gain, Entry, FitsRound, WellFormed, ApprovedActions;
    OutcomeEffect(w, g, q, id, approved, request);
    var marked := q.(resolved := q.resolved.Insert(id));
    HygieneReads(w, q, marked);
    OutcomeKeepsHygiene(w, marked, id, approved, request);
    ReplayEffect(w, g, ApplyConsensus(w, marked, id, approved, request).0, universe);
  }

  // ── Minting ──

  lemma MintedIsAdmissible(w: World, g: Group, q: Queues, self: Id, inputs: seq<CommitInput>, minted: Mint)
    requires Minted(w, g, self, inputs, minted.art, minted.actions) && inputs != []
    requires !q.committed.Has(w.commitHash(minted.art.commit))
    ensures Admissible(w, q.committed, CandidateOf(self, minted.art))
  {
    assert self in SeatIds(g.seats);
  }

  // ── Events ──

  datatype Event =
    | Decide(id: nat, approved: bool, request: Request)
    | Arrive(msg: Candidate)
    | MintOwn(minted: Option<Mint>)
    | ListVote(id: nat, accepted: bool, election: Election)
    | Silent

  /** Who is running, and the stewards it goes by. */
  datatype Member = Member(self: Id, kMax: nat, stewards: Stewards)

  function StepRound(w: World, m: Member, s: RoundState, e: Event): (r: RoundState) {
    match e
    case Decide(id, approved, request) => s.(queues := OnOutcome(w, s.mls.group, s.queues, id, approved, request).0)
    case Arrive(msg) => s.(queues := Receive(w, s.mls.group, s.queues, msg).0)
    case MintOwn(minted) => BuildLocal(w, false, m.kMax, s, m.stewards, m.self, minted).0
    case ListVote(id, accepted, election) =>
      s.(queues := OnOutcome(w, s.mls.group, s.queues, id, accepted, StewardElection(election)).0)
    case Silent => s
  }

  /** Elections and silent reelection windows move the steward list, nothing else does. */
  function StepMember(w: World, m: Member, s: RoundState, e: Event): (r: Member) {
    match e
    case ListVote(id, accepted, election) =>
      if s.queues.resolved.Has(id) then m
      else m.(stewards := Elect(w, s.queues.joinEpoch, s.mls.group, m.stewards, accepted, election))
    case Silent => m.(stewards := Bumped(m.stewards))
    case _ => m
  }

  function RunBoth(w: World, m: Member, s: RoundState, es: seq<Event>): (r: (Member, RoundState)) {
    if es == [] then (m, s)
    else
      var (m', s') := RunBoth(w, m, s, es[..|es| - 1]);
      (StepMember(w, m', s', es[|es| - 1]), StepRound(w, m', s', es[|es| - 1]))
  }

  function RunRound(w: World, m: Member, s: RoundState, es: seq<Event>): (r: RoundState) { RunBoth(w, m, s, es).1 }

  function MemberAfter(w: World, m: Member, s: RoundState, es: seq<Event>): (r: Member) { RunBoth(w, m, s, es).0 }

  /** The environment's side of an event: votes are well-formed and resolve once,
      candidates belong to the round's universe, the library keeps its promise and
      mints commits nobody has merged before. */
  ghost predicate EventOk(w: World, m: Member, s: RoundState, e: Event, universe: set<Candidate>) {
    match e
    case Decide(id, approved, request) => FreshId(s.queues, id) && !s.queues.resolved.Has(id) && WellFormed(w, request)
    case Arrive(msg) => msg in universe
    case ListVote(id, _, _) => FreshId(s.queues, id) && !s.queues.resolved.Has(id)
    case Silent => true
    case MintOwn(minted) =>
      var inputs := MintInputs(w, false, m.kMax, s.mls.group, s.queues, m.stewards, m.self);
      inputs.Ok? && inputs.value != [] ==>
        && MintPromise(w, s.mls, m.self, inputs.value, minted)
        && (minted.Some? ==> CandidateOf(m.self, minted.value.art) in universe && !s.queues.committed.Has(w.commitHash(minted.value.art.commit)))
  }

  ghost predicate RunOk(w: World, m: Member, s: RoundState, es: seq<Event>, universe: set<Candidate>) {
    es != [] ==>
      && RunOk(w, m, s, es[..|es| - 1], universe)
      && EventOk(w, MemberAfter(w, m, s, es[..|es| - 1]), RunRound(w, m, s, es[..|es| - 1]), es[|es| - 1], universe)
  }

  /** What the event approves... */
  function Gained(w: World, e: Event): (r: set<Action>) {
    match e case Decide(_, approved, request) => Gain(w, approved, request) case _ => {}
  }

  /** ...and what it makes known. */
  function Heard(w: World, m: Member, s: RoundState, e: Event): (r: set<Candidate>) {
    match e
    case Arrive(msg) => if Admissible(w, s.queues.committed, msg) then {msg} else {}
    case MintOwn(minted) =>
      (match BuildLocal(w, false, m.kMax, s, m.stewards, m.self, minted).1
       case Ok(Some(msg)) => {msg}
       case _ => {})
    case _ => {}
  }

  function GainedIn(w: World, es: seq<Event>): (r: set<Action>) {
    if es == [] then {} else GainedIn(w, es[..|es| - 1]) + Gained(w, es[|es| - 1])
  }

  function HeardIn(w: World, m: Member, s: RoundState, es: seq<Event>): (r: set<Candidate>) {
    if es == [] then {}
    else HeardIn(w, m, s, es[..|es| - 1])
         + Heard(w, MemberAfter(w, m, s, es[..|es| - 1]), RunRound(w, m, s, es[..|es| - 1]), es[|es| - 1])
  }

  // ── What every event keeps ──

  ghost predicate MemberOk(w: World, m: Member, s: RoundState, universe: set<Candidate>) {
    && InRound(w, s.mls.group, s.queues, universe)
    && LocalOk(w, s, m.self)
    && s.mls.staged.None?
  }

  /** Nothing local appears and nothing approved goes away, so what is ours stays ours. */
  lemma LocalOkCarries(w: World, m: Member, s: RoundState, q': Queues)
    requires LocalOk(w, s, m.self)
    requires ApprovedActions(w, s.queues.approved) <= ApprovedActions(w, q'.approved)
    requires forall c :: c in q'.round.For(s.mls.group.epoch) && c.isLocal ==> c in s.queues.round.For(s.mls.group.epoch)
    ensures LocalOk(w, s.(queues := q'), m.self)
  {
    hide Stage, ApprovedActions;
    forall c | c in q'.round.For(s.mls.group.epoch) && c.isLocal ensures IsOwn(w, s.(queues := q'), m.self, c) {
      assert IsOwn(w, s, m.self, c);
    }
  }

  lemma MintEffect(w: World, m: Member, s: RoundState, minted: Option<Mint>, universe: set<Candidate>)
    requires MemberOk(w, m, s, universe) && FitsRound(w, s.mls.group, universe)
    requires EventOk(w, m, s, MintOwn(minted), universe)
    ensures var s' := StepRound(w, m, s, MintOwn(minted));
            && MemberOk(w, m, s', universe)
            && s' == RoundState(s.mls.(own := s'.mls.own), s.queues.(round := s'.queues.round))
            && Known(s'.queues, s.mls.group.epoch) == Known(s.queues, s.mls.group.epoch) + Heard(w, m, s, MintOwn(minted))
  {
    hide InRound, FitsRound, Known, Admissible, Minted, SelectInputs, LocalOk;
    var s' := StepRound(w, m, s, MintOwn(minted));
    MintKeepsLocalOk(w, false, m.kMax, s, m.stewards, m.self, minted);
    if s' != s {
      var msg := CandidateOf(m.self, minted.value.art);
      var inputs := MintInputs(w, false, m.kMax, s.mls.group, s.queues, m.stewards, m.self).value;
      MintedIsAdmissible(w, s.mls.group, s.queues, m.self, inputs, minted.value);
      BufferEffect(w, s.mls.group, s.queues, msg, true, universe);
    }
  }

  /** One event: the invariant holds on, the group stays put, and the member knows and
      has approved exactly what the event adds. */
  lemma StepEffect(w: World, m: Member, s: RoundState, e: Event, universe: set<Candidate>)
    requires MemberOk(w, m, s, universe) && FitsRound(w, s.mls.group, universe) && EventOk(w, m, s, e, universe)
    ensures var s' := StepRound(w, m, s, e);
            && MemberOk(w, m, s', universe)
            && s'.mls.group == s.mls.group
            && s'.queues.committed == s.queues.committed && s'.queues.joinEpoch == s.queues.joinEpoch
            && Known(s'.queues, s.mls.group.epoch) == Known(s.queues, s.mls.group.epoch) + Heard(w, m, s, e)
            && ApprovedActions(w, s'.queues.approved) == ApprovedActions(w, s.queues.approved) + Gained(w, e)
  {
    hide InRound, LocalOk, FitsRound, Known, ApprovedActions, Admissible, OnOutcome, BuildLocal, Gain;
    var g, q := s.mls.group, s.queues;
    match e
    case Decide(id, approved, request) =>
      InRoundIsClean(w, g, q, universe);
      OutcomeEffect(w, g, q, id, approved, request);
      DecideEffect(w, g, q, id, approved, request, universe);
      LocalOkCarries(w, m, s, OnOutcome(w, g, q, id, approved, request).0);
    case Arrive(msg) =>
      ReceiveEffect(w, g, q, msg, universe);
      ReceiveAllTouches(w, g, q, [msg]);
      ReceiveTouches(w, g, q, msg);
      LocalOkCarries(w, m, s, Receive(w, g, q, msg).0);
    case MintOwn(minted) =>
      MintEffect(w, m, s, minted, universe);
    case ListVote(id, accepted, election) =>
      InRoundIsClean(w, g, q, universe);
      ListVoteEffect(w, g, q, id, accepted, election, universe);
      LocalOkCarries(w, m, s, OnOutcome(w, g, q, id, accepted, StewardElection(election)).0);
    case Silent =>
  }

  /** A vote on a list approves no change and makes nothing known. */
  lemma ListVoteEffect(w: World, g: Group, q: Queues, id: nat, accepted: bool, election: Election,
        universe: set<Candidate>)
    requires InRound(w, g, q, universe) && FitsRound(w, g, universe)
    requires FreshId(q, id) && !q.resolved.Has(id)
    ensures var q' := OnOutcome(w, g, q, id, accepted, StewardElection(election)).0;
            && InRound(w, g, q', universe)
            && Known(q', g.epoch) == Known(q, g.epoch)
            && ApprovedActions(w, q'.approved) == ApprovedActions(w, q.approved)
            && q'.approved == q.approved && q'.resolved == q.resolved.Insert(id)
            && q'.committed == q.committed && q'.joinEpoch == q.joinEpoch
            && (forall c :: c in q'.round.For(g.epoch) && c.isLocal ==> c in q.round.For(g.epoch))
  {
    hide InRound, FitsRound, Known, OnOutcome, ApprovedActions;
    InRoundIsClean(w, g, q, universe);
    OutcomeEffect(w, g, q, id, accepted, StewardElection(election));
    DecideEffect(w, g, q, id, accepted, StewardElection(election), universe);
    assert Entry(w, q, id, accepted, StewardElection(election)) == [];
    assert q.approved + [] == q.approved;
  }

  lemma InRoundIsClean(w: World, g: Group, q: Queues, universe: set<Candidate>)
    requires InRound(w, g, q, universe)
    ensures Hygienic(w, q)
  {}

  lemma ReceiveTouches(w: World, g: Group, q: Queues, msg: Candidate)
    ensures var q' := Receive(w, g, q, msg).0; q' == q.(round := q'.round, early := q'.early)
  {}

  lemma MemberOkReadsSelf(w: World, m: Member, m': Member, s: RoundState, universe: set<Candidate>)
    requires MemberOk(w, m, s, universe) && m'.self == m.self
    ensures MemberOk(w, m', s, universe)
  {}

  /** A whole epoch: what is approved and what is known grow by what the events bring. */
  lemma {:induction false} RunEffect(w: World, m: Member, s: RoundState, es: seq<Event>, universe: set<Candidate>)
    requires MemberOk(w, m, s, universe) && FitsRound(w, s.mls.group, universe) && RunOk(w, m, s, es, universe)
    ensures var s' := RunRound(w, m, s, es);
            && MemberAfter(w, m, s, es).self == m.self && MemberAfter(w, m, s, es).kMax == m.kMax
            && MemberOk(w, m, s', universe)
            && s'.mls.group == s.mls.group
            && s'.queues.committed == s.queues.committed && s'.queues.joinEpoch == s.queues.joinEpoch
            && Known(s'.queues, s.mls.group.epoch) == Known(s.queues, s.mls.group.epoch) + HeardIn(w, m, s, es)
            && ApprovedActions(w, s'.queues.approved) == ApprovedActions(w, s.queues.approved) + GainedIn(w, es)
  {
    hide MemberOk, FitsRound, EventOk, Known, ApprovedActions, Heard, Gained, StepRound, Elect;
    if es != [] {
      var rest := es[..|es| - 1];
      var m', s' := MemberAfter(w, m, s, rest), RunRound(w, m, s, rest);
      RunEffect(w, m, s, rest, universe);
      MemberOkReadsSelf(w, m, m', s', universe);
      StepEffect(w, m', s', es[|es| - 1], universe);
      MemberOkReadsSelf(w, m', m, RunRound(w, m, s, es), universe);
    }
  }

  // ── Order does not matter ──

  lemma {:induction false} GainedInHas(w: World, es: seq<Event>, a: Action)
    ensures a in GainedIn(w, es) <==> exists e :: e in es && a in Gained(w, e)
  {
    hide Gained;
    if es != [] {
      var rest, last := es[..|es| - 1], es[|es| - 1];
      assert es == rest + [last];
      GainedInHas(w, rest, a);
    }
  }

  lemma {:induction false} HeardInHas(w: World, m: Member, s: RoundState, es: seq<Event>,
        universe: set<Candidate>, c: Candidate)
    requires MemberOk(w, m, s, universe) && FitsRound(w, s.mls.group, universe) && RunOk(w, m, s, es, universe)
    requires forall e :: e in es ==> !e.MintOwn?
    ensures c in HeardIn(w, m, s, es) <==> Arrive(c) in es && Admissible(w, s.queues.committed, c)
  {
    hide MemberOk, FitsRound, EventOk, Admissible, StepRound, Heard;
    if es != [] {
      var rest, last := es[..|es| - 1], es[|es| - 1];
      assert es == rest + [last];
      HeardInHas(w, m, s, rest, universe, c);
      RunEffect(w, m, s, rest, universe);
      HeardHas(w, MemberAfter(w, m, s, rest), RunRound(w, m, s, rest), last, c);
    }
  }

  lemma HeardHas(w: World, m: Member, s: RoundState, e: Event, c: Candidate)
    requires !e.MintOwn?
    ensures c in Heard(w, m, s, e) <==> e == Arrive(c) && Admissible(w, s.queues.committed, c)
  {}

  /** Ids of the votes that resolve, in order. */
  function Votes(es: seq<Event>): (ids: seq<nat>) {
    if es == [] then []
    else Votes(es[..|es| - 1]) + match es[|es| - 1]
                                case Decide(id, _, _) => [id]
                                case ListVote(id, _, _) => [id]
                                case _ => []
  }

  /** Votes are well-formed, resolve once each, and are new here; candidates belong to
      the universe; we mint nothing. */
  ghost predicate QuietEvents(w: World, s: RoundState, es: seq<Event>, universe: set<Candidate>) {
    && Distinct(Votes(es))
    && (forall id :: id in Votes(es) ==> FreshId(s.queues, id) && !s.queues.resolved.Has(id))
    && (forall e :: e in es ==> !e.MintOwn? && (e.Arrive? ==> e.msg in universe) && (e.Decide? ==> WellFormed(w, e.request)))
  }

  lemma OneMoreVote(es: seq<Event>, e: Event)
    ensures Votes(es + [e]) == Votes(es) + match e case Decide(id, _, _) => [id] case ListVote(id, _, _) => [id] case _ => []
    ensures Distinct(Votes(es + [e])) ==> Distinct(Votes(es))
    ensures Distinct(Votes(es + [e])) && (e.Decide? || e.ListVote?) ==> e.id !in Votes(es)
  {
    assert (es + [e])[..|es|] == es;
    var before, after := Votes(es), Votes(es + [e]);
    assert forall i :: 0 <= i < |before| ==> before[i] == after[i];
    if Distinct(after) && (e.Decide? || e.ListVote?) {
      assert after[|before|] == e.id;
      assert forall i :: 0 <= i < |before| ==> before[i] == after[i] != after[|before|];
    }
  }

  lemma QuietPrefix(w: World, s: RoundState, es: seq<Event>, e: Event, universe: set<Candidate>)
    requires QuietEvents(w, s, es + [e], universe)
    ensures QuietEvents(w, s, es, universe)
    ensures e.Decide? || e.ListVote? ==> e.id !in Votes(es) && FreshId(s.queues, e.id) && !s.queues.resolved.Has(e.id)
    ensures !e.MintOwn? && (e.Arrive? ==> e.msg in universe) && (e.Decide? ==> WellFormed(w, e.request))
  {
    hide WellFormed, FreshId;
    OneMoreVote(es, e);
    assert e in es + [e] && forall x :: x in es ==> x in es + [e];
    assert forall id :: id in Votes(es) ==> id in Votes(es + [e]);
    if e.Decide? || e.ListVote? { assert e.id in Votes(es + [e]); }
  }

  lemma {:induction false} QuietRun(w: World, m: Member, s: RoundState, es: seq<Event>, universe: set<Candidate>)
    requires MemberOk(w, m, s, universe) && FitsRound(w, s.mls.group, universe) && QuietEvents(w, s, es, universe)
    ensures RunOk(w, m, s, es, universe)
    ensures var q' := RunRound(w, m, s, es).queues;
            && (forall a :: a in q'.approved ==> a in s.queues.approved || a.proposalId in Votes(es))
            && (forall id :: id in q'.resolved.items ==> id in s.queues.resolved.items || id in Votes(es))
  {
    hide MemberOk, FitsRound, WellFormed, OnOutcome, Votes, Admissible, Receive, Elect, QuietEvents;
    if es != [] {
      var rest, last := es[..|es| - 1], es[|es| - 1];
      assert es == rest + [last];
      QuietPrefix(w, s, rest, last, universe);
      OneMoreVote(rest, last);
      QuietRun(w, m, s, rest, universe);
      RunEffect(w, m, s, rest, universe);
      var mid := RunRound(w, m, s, rest);
      match last
      case Decide(_, _, _) => DecideAddsId(w, m, mid, last, universe);
      case ListVote(_, _, _) => ListVoteAddsId(w, m, mid, last, universe);
      case Arrive(msg) => ReceiveTouches(w, mid.mls.group, mid.queues, msg);
      case Silent =>
    }
  }

  lemma ListVoteAddsId(w: World, m: Member, s: RoundState, e: Event, universe: set<Candidate>)
    requires MemberOk(w, m, s, universe) && e.ListVote? && EventOk(w, m, s, e, universe)
    ensures var q' := StepRound(w, m, s, e).queues;
            && q'.approved == s.queues.approved
            && (forall id :: id in q'.resolved.items ==> id in s.queues.resolved.items || id == e.id)
  {
    hide OnOutcome, Hygienic;
    MemberIsClean(w, m, s, universe);
    OutcomeEffect(w, s.mls.group, s.queues, e.id, e.accepted, StewardElection(e.election));
    assert s.queues.approved + [] == s.queues.approved;
  }

  lemma DecideAddsId(w: World, m: Member, s: RoundState, e: Event, universe: set<Candidate>)
    requires MemberOk(w, m, s, universe) && e.Decide? && EventOk(w, m, s, e, universe)
    ensures var q' := StepRound(w, m, s, e).queues;
            && (forall a :: a in q'.approved ==> a in s.queues.approved || a.proposalId == e.id)
            && (forall id :: id in q'.resolved.items ==> id in s.queues.resolved.items || id == e.id)
  {
    hide OnOutcome, Hygienic, Gain;
    MemberIsClean(w, m, s, universe);
    OutcomeEffect(w, s.mls.group, s.queues, e.id, e.approved, e.request);
  }

  lemma MemberIsClean(w: World, m: Member, s: RoundState, universe: set<Candidate>)
    requires MemberOk(w, m, s, universe)
    ensures Hygienic(w, s.queues)
  {}

  /** The buffer and the stash are functions of what is known and what is approved. */
  lemma KnownSplits(w: World, g: Group, q: Queues, universe: set<Candidate>)
    requires InRound(w, g, q, universe)
    ensures ApprovedActions(w, q.approved) == {} ==> Live(q, g.epoch) == {} && Stashed(q, g.epoch) == Known(q, g.epoch)
    ensures ApprovedActions(w, q.approved) != {} ==> Live(q, g.epoch) == Known(q, g.epoch) && Stashed(q, g.epoch) == {}
  {
    hide Admissible;
    if q.approved != [] {
      assert q.approved[0] in q.approved;
      assert ActionOf(w, q.approved[0].request).value in ApprovedActions(w, q.approved);
    }
  }

  function IsVote(): Event -> bool { (e: Event) => e.Decide? || e.ListVote? }

  function VoteId(): Event -> nat {
    (e: Event) => match e case Decide(id, _, _) => id case ListVote(id, _, _) => id case _ => 0
  }

  lemma {:induction false} VotesAreKept(es: seq<Event>)
    ensures Votes(es) == MapSeq(VoteId(), Keep(IsVote(), es))
  {
    if es != [] {
      var rest, last := es[..|es| - 1], es[|es| - 1];
      assert es == rest + [last];
      VotesAreKept(rest);
      KeepConcat(IsVote(), rest, [last]);
      KeepOne(IsVote(), last);
    }
  }

  /** Votes under distinct ids stay that way in any order. */
  lemma VotesPermute(es: seq<Event>, other: seq<Event>)
    requires multiset(es) == multiset(other) && Distinct(Votes(es))
    ensures Distinct(Votes(other)) && forall id :: id in Votes(other) ==> id in Votes(es)
  {
    hide IsVote, VoteId, Votes;
    var kept, keptOther := Keep(IsVote(), es), Keep(IsVote(), other);
    VotesAreKept(es);
    VotesAreKept(other);
    DistinctImage(VoteId(), kept);
    KeptPermutes(IsVote(), es, other);
    DistinctImage(VoteId(), keptOther);
    MapSeqSubset(VoteId(), keptOther, kept);
  }

  lemma QuietPermutes(w: World, s: RoundState, es: seq<Event>, other: seq<Event>, universe: set<Candidate>)
    requires QuietEvents(w, s, es, universe) && multiset(es) == multiset(other)
    ensures QuietEvents(w, s, other, universe)
  {
    VotesPermute(es, other);
    forall e | e in other ensures e in es { assert e in multiset(other) && e in multiset(es); }
  }

  /** Any two interleavings of the same votes and the same candidate receipts within an
      epoch end with the same changes approved, the same candidates buffered and the
      same candidates stashed. */
  lemma ArrivalOrderConfluence(w: World, m: Member, s: RoundState, es: seq<Event>, other: seq<Event>,
        universe: set<Candidate>)
    requires MemberOk(w, m, s, universe) && FitsRound(w, s.mls.group, universe)
    requires multiset(es) == multiset(other)
    requires QuietEvents(w, s, es, universe)
    ensures var a, b, epoch := RunRound(w, m, s, es).queues, RunRound(w, m, s, other).queues, s.mls.group.epoch;
            && ApprovedActions(w, a.approved) == ApprovedActions(w, b.approved)
            && Live(a, epoch) == Live(b, epoch)
            && Stashed(a, epoch) == Stashed(b, epoch)
  {
    hide FitsRound, QuietEvents, Gained, Admissible, ApprovedActions, Live, Stashed, Known, InRound;
    QuietPermutes(w, s, es, other, universe);
    QuietRun(w, m, s, es, universe);
    QuietRun(w, m, s, other, universe);
    RunEffect(w, m, s, es, universe);
    RunEffect(w, m, s, other, universe);
    assert forall e :: e in es <==> e in multiset(es);
    assert forall e :: e in other <==> e in multiset(other);
    forall a ensures a in GainedIn(w, es) <==> a in GainedIn(w, other) {
      GainedInHas(w, es, a);
      GainedInHas(w, other, a);
    }
    forall c ensures c in HeardIn(w, m, s, es) <==> c in HeardIn(w, m, s, other) {
      NoMints(w, s, es, universe);
      NoMints(w, s, other, universe);
      HeardInHas(w, m, s, es, universe, c);
      HeardInHas(w, m, s, other, universe, c);
    }
    assert GainedIn(w, es) == GainedIn(w, other);
    assert HeardIn(w, m, s, es) == HeardIn(w, m, s, other);
    KnownSplits(w, s.mls.group, RunRound(w, m, s, es).queues, universe);
    KnownSplits(w, s.mls.group, RunRound(w, m, s, other).queues, universe);
  }

  lemma NoMints(w: World, s: RoundState, es: seq<Event>, universe: set<Candidate>)
    requires QuietEvents(w, s, es, universe)
    ensures forall e :: e in es ==> !e.MintOwn?
  {}
}
