/** Peer scores: batches of saturating deltas with net reporting, and the sparse
    snapshot a joiner rebuilds the table from. */
module PeerScoring {
  import opened ByteStrings
  import opened Sorting
  import opened Protocol

  type Scores = map<Id, int>

  datatype ScoreChange = ScoreChange(member: Id, previous: int, score: int)

  /** A member touched by the batch in progress: its score before, and so far. */
  datatype Touch = Touch(member: Id, previous: int, score: int)

  const DEFAULT_PEER_SCORE: int := 100

  /** What is demanded of the scores a member starts from. */
  predicate ScoresValid(default: int, threshold: int) { default > 0 && default > threshold }

  function DefaultDelta(event: ScoreEvent): (d: int) {
    match event
    case BrokenCommit => -50
    case BrokenMlsProposal => -30
    case CensorshipInactivity => -40
    case EmergencyYesCreator => 20
    case EmergencyNoCreator => -50
    case SuccessfulCommit => 10
    case HonestCommitAttempt => 5
    case MisbehavingCommit => -10
  }

  function Delta(overrides: map<ScoreEvent, int>, event: ScoreEvent): (d: int) {
    if event in overrides then overrides[event] else DefaultDelta(event)
  }

  /** Signed 64-bit saturation. */
  function Saturate(x: int): (r: int) {
    if x < -0x8000_0000_0000_0000 then -0x8000_0000_0000_0000
    else if x > 0x7fff_ffff_ffff_ffff then 0x7fff_ffff_ffff_ffff
    else x
  }

  // ── One op at a time ──

  function ApplyOp(scores: Scores, overrides: map<ScoreEvent, int>, op: ScoreOp): (r: Scores) {
    if op.member in scores then scores[op.member := Saturate(scores[op.member] + Delta(overrides, op.event))] else scores
  }

  function FoldOps(scores: Scores, overrides: map<ScoreEvent, int>, ops: seq<ScoreOp>): (r: Scores)
    ensures r.Keys == scores.Keys
  {
    if ops == [] then scores else ApplyOp(FoldOps(scores, overrides, ops[..|ops| - 1]), overrides, ops[|ops| - 1])
  }

  /** `score` moved by `weight`, or by what the integrator set for the event, and kept
      within 64 bits. */
  ghost predicate MovedBy(overrides: map<ScoreEvent, int>, event: ScoreEvent, weight: int, score: int, score': int) {
    var moved := score + if event in overrides then overrides[event] else weight;
    && (score' == moved || (score' == 0x7fff_ffff_ffff_ffff < moved) || (moved < score' == -0x8000_0000_0000_0000))
    && -0x8000_0000_0000_0000 <= score' <= 0x7fff_ffff_ffff_ffff
  }

  /** What each event is worth to the member it names; nobody else's score moves, and
      nobody is tracked who was not. */
  lemma EventWeights(scores: Scores, overrides: map<ScoreEvent, int>, op: ScoreOp)
    ensures var after := ApplyOp(scores, overrides, op);
            && after.Keys == scores.Keys
            && (forall m :: m in scores && m != op.member ==> after[m] == scores[m])
            && (op.member in scores ==>
                  && (op.event == SuccessfulCommit ==> MovedBy(overrides, op.event, 10, scores[op.member], after[op.member]))
                  && (op.event == HonestCommitAttempt ==> MovedBy(overrides, op.event, 5, scores[op.member], after[op.member]))
                  && (op.event == EmergencyYesCreator ==> MovedBy(overrides, op.event, 20, scores[op.member], after[op.member]))
                  && (op.event == EmergencyNoCreator ==> MovedBy(overrides, op.event, -50, scores[op.member], after[op.member]))
                  && (op.event == BrokenCommit ==> MovedBy(overrides, op.event, -50, scores[op.member], after[op.member]))
                  && (op.event == BrokenMlsProposal ==> MovedBy(overrides, op.event, -30, scores[op.member], after[op.member]))
                  && (op.event == CensorshipInactivity ==> MovedBy(overrides, op.event, -40, scores[op.member], after[op.member]))
                  && (op.event == MisbehavingCommit ==> MovedBy(overrides, op.event, -10, scores[op.member], after[op.member])))
  {}

  predicate InRange(scores: Scores) {
    forall m | m in scores :: -0x8000_0000_0000_0000 <= scores[m] <= 0x7fff_ffff_ffff_ffff
  }

  /** Scores stay within 64 bits through every batch. */
  lemma {:induction false} BatchesStayInRange(scores: Scores, overrides: map<ScoreEvent, int>, ops: seq<ScoreOp>)
    requires InRange(scores)
    ensures InRange(FoldOps(scores, overrides, ops))
  {
    if ops != [] {
      BatchesStayInRange(scores, overrides, ops[..|ops| - 1]);
    }
  }

  /** Tracked members a batch mentions, in order of first mention. */
  function Mentioned(scores: Scores, ops: seq<ScoreOp>): (r: seq<Id>)
    ensures forall m :: m in r ==> m in scores
  {
    if ops == [] then []
    else
      var earlier, m := Mentioned(scores, ops[..|ops| - 1]), ops[|ops| - 1].member;
      if m in scores && m !in earlier then earlier + [m] else earlier
  }

  /** The members of `ids` whose score differs between two tables. */
  function Changes(before: Scores, after: Scores, ids: seq<Id>): (r: seq<ScoreChange>)
    requires forall m :: m in ids ==> m in before && m in after
  {
    if ids == [] then []
    else
      assert ids[0] in ids;
      (if before[ids[0]] != after[ids[0]] then [ScoreChange(ids[0], before[ids[0]], after[ids[0]])] else [])
      + Changes(before, after, ids[1..])
  }

  lemma {:induction false} MentionedMeaning(scores: Scores, ops: seq<ScoreOp>)
    ensures Distinct(Mentioned(scores, ops))
    ensures forall m :: m in Mentioned(scores, ops) <==> m in scores && exists op :: op in ops && op.member == m
  {
    if ops != [] {
      var rest, last := ops[..|ops| - 1], ops[|ops| - 1];
      MentionedMeaning(scores, rest);
      assert ops == rest + [last];
    }
  }

  lemma {:induction false} UnmentionedUnchanged(scores: Scores, overrides: map<ScoreEvent, int>,
        ops: seq<ScoreOp>, m: Id)
    requires m in scores && forall op :: op in ops ==> op.member != m
    ensures FoldOps(scores, overrides, ops)[m] == scores[m]
  {
    if ops != [] {
      assert ops[|ops| - 1] in ops;
      UnmentionedUnchanged(scores, overrides, ops[..|ops| - 1], m);
    }
  }

  lemma {:induction false} ChangesMeaning(before: Scores, after: Scores, ids: seq<Id>)
    requires Distinct(ids) && forall m :: m in ids ==> m in before && m in after
    ensures forall c :: c in Changes(before, after, ids)
              <==> c.member in ids && c.previous == before[c.member] && c.score == after[c.member] && c.previous != c.score
    ensures forall i, j :: 0 <= i < j < |Changes(before, after, ids)|
              ==> Changes(before, after, ids)[i].member != Changes(before, after, ids)[j].member
  {
    if ids != [] {
      assert ids == [ids[0]] + ids[1..];
      assert ids[0] !in ids[1..];
      ChangesMeaning(before, after, ids[1..]);
      var rest := Changes(before, after, ids[1..]);
      assert forall i :: 0 <= i < |rest| ==> rest[i] in rest && rest[i].member in ids[1..];
    }
  }

  /** The report of a batch names exactly the tracked members whose score ended up
      different, each once, with the score before the batch and the score after. */
  lemma ReportIsNetChange(scores: Scores, overrides: map<ScoreEvent, int>, ops: seq<ScoreOp>)
    ensures var after := FoldOps(scores, overrides, ops);
            var report := Changes(scores, after, Mentioned(scores, ops));
            && (forall m :: m in scores && scores[m] != after[m] <==> exists c :: c in report && c.member == m)
            && (forall c :: c in report ==> c.previous == scores[c.member] && c.score == after[c.member])
            && (forall i, j :: 0 <= i < j < |report| ==> report[i].member != report[j].member)
  {
    var after, ids := FoldOps(scores, overrides, ops), Mentioned(scores, ops);
    MentionedMeaning(scores, ops);
    ChangesMeaning(scores, after, ids);
    forall m | m in scores && scores[m] != after[m] ensures exists c :: c in Changes(scores, after, ids) && c.member == m {
      if forall op :: op in ops ==> op.member != m {
        UnmentionedUnchanged(scores, overrides, ops, m);
      }
      assert m in ids;
      assert ScoreChange(m, scores[m], after[m]) in Changes(scores, after, ids);
    }
  }

  // ── The sparse snapshot ──

  /** `diverged` lists exactly the members away from the default, once each. */
  ghost predicate IsSnapshot(scores: Scores, default: int, diverged: seq<(Id, int)>) {
    && (forall i, j :: 0 <= i < j < |diverged| ==> diverged[i].0 != diverged[j].0)
    && (forall p :: p in diverged <==> p.0 in scores && scores[p.0] == p.1 && p.1 != default)
  }

  function AdoptDefault(scores: Scores, previous: int, default: int): (r: Scores) {
    map m | m in scores :: if scores[m] == previous then default else scores[m]
  }

  function Adopt(scores: Scores, diverged: seq<(Id, int)>): (r: Scores) {
    if diverged == [] then scores else Adopt(scores, diverged[..|diverged| - 1])[diverged[|diverged| - 1].0 := diverged[|diverged| - 1].1]
  }

  function AdoptChanges(scores: Scores, default: int, diverged: seq<(Id, int)>): (r: seq<ScoreChange>) {
    if diverged == [] then []
    else
      var rest, last := diverged[..|diverged| - 1], diverged[|diverged| - 1];
      var table := Adopt(scores, rest);
      var previous := if last.0 in table then table[last.0] else default;
      AdoptChanges(scores, default, rest) + if last.1 != previous then [ScoreChange(last.0, previous, last.1)] else []
  }

  lemma {:induction false} AdoptLookup(scores: Scores, diverged: seq<(Id, int)>, m: Id)
    requires forall i, j :: 0 <= i < j < |diverged| ==> diverged[i].0 != diverged[j].0
    ensures m in Adopt(scores, diverged) <==> m in scores || exists p :: p in diverged && p.0 == m
    ensures forall p :: p in diverged && p.0 == m ==> Adopt(scores, diverged)[m] == p.1
    ensures m in scores && (forall p :: p in diverged ==> p.0 != m) ==> Adopt(scores, diverged)[m] == scores[m]
  {
    if diverged != [] {
      var rest, last := diverged[..|diverged| - 1], diverged[|diverged| - 1];
      assert diverged == rest + [last];
      assert forall p :: p in rest ==> p.0 != last.0;
      AdoptLookup(scores, rest, m);
    }
  }

  lemma {:induction false} AdoptReportsEach(scores: Scores, default: int, diverged: seq<(Id, int)>)
    requires forall i, j :: 0 <= i < j < |diverged| ==> diverged[i].0 != diverged[j].0
    requires forall p :: p in diverged ==> p.0 in scores && scores[p.0] == default && p.1 != default
    ensures |AdoptChanges(scores, default, diverged)| == |diverged|
    ensures forall i :: 0 <= i < |diverged|
              ==> AdoptChanges(scores, default, diverged)[i] == ScoreChange(diverged[i].0, default, diverged[i].1)
  {
    if diverged != [] {
      var rest, last := diverged[..|diverged| - 1], diverged[|diverged| - 1];
      assert last in diverged && forall p :: p in rest ==> p in diverged;
      assert forall p :: p in rest ==> p.0 != last.0;
      AdoptReportsEach(scores, default, rest);
      AdoptLookup(scores, rest, last.0);
    }
  }

  /** A joiner tracking the same members, all at its own default, that adopts the
      sender's default and then the sender's snapshot ends up with the sender's
      table, and is told of exactly the members the sender listed. */
  lemma SnapshotRebuildsTable(sender: Scores, senderDefault: int, joiner: Scores, joinerDefault: int,
        diverged: seq<(Id, int)>)
    requires IsSnapshot(sender, senderDefault, diverged)
    requires joiner.Keys == sender.Keys && forall m :: m in joiner ==> joiner[m] == joinerDefault
    ensures var rebased := AdoptDefault(joiner, joinerDefault, senderDefault);
            && Adopt(rebased, diverged) == sender
            && |AdoptChanges(rebased, senderDefault, diverged)| == |diverged|
            && forall i :: 0 <= i < |diverged|
                 ==> AdoptChanges(rebased, senderDefault, diverged)[i] == ScoreChange(diverged[i].0, senderDefault, sender[diverged[i].0])
  {
    var rebased := AdoptDefault(joiner, joinerDefault, senderDefault);
    var rebuilt := Adopt(rebased, diverged);
    forall m
      ensures m in rebuilt <==> m in sender
      ensures m in sender ==> rebuilt[m] == sender[m]
    {
      AdoptLookup(rebased, diverged, m);
      if m in sender && sender[m] != senderDefault {
        assert (m, sender[m]) in diverged;
      }
    }
    assert rebuilt.Keys == sender.Keys;
    AdoptReportsEach(rebased, senderDefault, diverged);
    forall i | 0 <= i < |diverged| ensures diverged[i].1 == sender[diverged[i].0] { assert diverged[i] in diverged; }
  }

  // ── The service ──

  class PeerScoringService {
    var scores: Scores
    var defaultScore: int
    var threshold: int
    const overrides: map<ScoreEvent, int>

    constructor (overrides: map<ScoreEvent, int>, defaultScore: int, threshold: int)
      ensures scores == map[] && this.defaultScore == defaultScore
      ensures this.threshold == threshold && this.overrides == overrides
    {
      this.overrides := overrides;
      this.defaultScore, this.threshold := defaultScore, threshold;
      scores := map[];
    }

    method AddMember(m: Id)
      modifies this`scores
      ensures scores == old(scores)[m := defaultScore]
    {
      scores := scores[m := defaultScore];
    }

    method RemoveMember(m: Id)
      modifies this`scores
      ensures scores == old(scores) - {m}
    {
      scores := scores - {m};
    }

    /** Apply a batch, looking every member up once and reporting only where each
        one landed. */
    method ApplyOps(ops: seq<ScoreOp>) returns (changes: seq<ScoreChange>)
      modifies this`scores
      ensures scores == FoldOps(old(scores), overrides, ops)
      ensures changes == Changes(old(scores), scores, Mentioned(old(scores), ops))
    {
      var touched: seq<Touch> := [];
      ghost var before := scores;
      for i := 0 to |ops|
        invariant scores == FoldOps(before, overrides, ops[..i])
        invariant touched == Touches(before, scores, Mentioned(before, ops[..i]))
      {
        touched := ApplyNext(touched, ops[i], before, ops[..i]);
        assert ops[..i + 1] == ops[..i] + [ops[i]];
      }
      assert ops[..|ops|] == ops;
      changes := Moved(touched);
      MovedIsChanges(before, scores, Mentioned(before, ops));
    }

    /** One turn of the batch loop. */
    method ApplyNext(touched: seq<Touch>, op: ScoreOp, ghost before: Scores, ghost done: seq<ScoreOp>)
      returns (r: seq<Touch>)
      requires scores == FoldOps(before, overrides, done)
      requires touched == Touches(before, scores, Mentioned(before, done))
      modifies this`scores
      ensures scores == FoldOps(before, overrides, done + [op])
      ensures r == Touches(before, scores, Mentioned(before, done + [op]))
    {
      r := touched;
      var index := Position(touched, op.member);
      if index == |touched| {
        NotMentioned(before, scores, Mentioned(before, done), op.member);
        assert (done + [op])[..|done|] == done;
        if op.member !in scores {
          return;
        }
        OpOnNewcomer(before, overrides, done, op);
        r := touched + [Touch(op.member, scores[op.member], scores[op.member])];
      } else {
        OpOnMentioned(before, overrides, done, op, index);
      }
      var score := Saturate(r[index].score + Delta(overrides, op.event));
      r := r[index := r[index].(score := score)];
      scores := scores[op.member := score];
    }

    /** Members away from the default, in whatever order storage lists them. */
    method Snapshot() returns (diverged: seq<(Id, int)>)
      ensures IsSnapshot(scores, defaultScore, diverged)
    {
      diverged := [];
      var left := scores.Keys;
      while left != {}
        invariant left <= scores.Keys
        invariant IsSnapshot(scores - left, defaultScore, diverged)
        decreases left
      {
        var m :| m in left;
        assert (scores - (left - {m})).Keys == (scores - left).Keys + {m};
        assert forall p :: p in diverged ==> p.0 != m;
        if scores[m] != defaultScore {
          diverged := diverged + [(m, scores[m])];
        }
        left := left - {m};
      }
      assert scores - {} == scores;
    }

    /** Take scores over from a snapshot, tracking members not seen before. */
    method ApplySnapshot(diverged: seq<(Id, int)>) returns (changes: seq<ScoreChange>)
      modifies this`scores
      ensures scores == Adopt(old(scores), diverged)
      ensures changes == AdoptChanges(old(scores), defaultScore, diverged)
    {
      changes := [];
      for i := 0 to |diverged|
        invariant scores == Adopt(old(scores), diverged[..i])
        invariant changes == AdoptChanges(old(scores), defaultScore, diverged[..i])
      {
        assert diverged[..i + 1][..i] == diverged[..i];
        var (m, score) := diverged[i];
        var previous := if m in scores then scores[m] else defaultScore;
        scores := scores[m := score];
        if score != previous {
          changes := changes + [ScoreChange(m, previous, score)];
        }
      }
      assert diverged[..|diverged|] == diverged;
    }

    method SetThreshold(t: int)
      modifies this`threshold
      ensures threshold == t
    {
      threshold := t;
    }

    /** Move everyone still at the old default to the new one. */
    method SetDefaultScore(default: int)
      modifies this`scores, this`defaultScore
      ensures defaultScore == default
      ensures scores == AdoptDefault(old(scores), old(defaultScore), default)
    {
      var previous := defaultScore;
      defaultScore := default;
      if previous == default {
        return;
      }
      var left := scores.Keys;
      while left != {}
        invariant left <= scores.Keys == old(scores).Keys && defaultScore == default
        invariant forall m :: m in old(scores) ==>
                    scores[m] == if m in left then old(scores)[m] else AdoptDefault(old(scores), previous, default)[m]
        decreases left
      {
        var m :| m in left;
        if scores[m] == previous {
          scores := scores[m := default];
        }
        left := left - {m};
      }
    }
  }

  /** First index holding `m`, or the length. */
  method Position(touched: seq<Touch>, m: Id) returns (index: nat)
    ensures index <= |touched|
    ensures index < |touched| ==> touched[index].member == m
    ensures forall k :: 0 <= k < index ==> touched[k].member != m
  {
    index := 0;
    while index < |touched| && touched[index].member != m
      invariant index <= |touched|
      invariant forall k :: 0 <= k < index ==> touched[k].member != m
    {
      index := index + 1;
    }
  }

  function Moved(touched: seq<Touch>): (r: seq<ScoreChange>) {
    if touched == [] then []
    else (if touched[0].previous != touched[0].score then [ScoreChange(touched[0].member, touched[0].previous, touched[0].score)] else [])
         + Moved(touched[1..])
  }

  function Touches(before: Scores, now: Scores, ids: seq<Id>): (r: seq<Touch>)
    requires forall m :: m in ids ==> m in before && m in now
    ensures |r| == |ids| && forall k :: 0 <= k < |ids| ==> r[k] == Touch(ids[k], before[ids[k]], now[ids[k]])
  {
    if ids == [] then []
    else assert ids[0] in ids; [Touch(ids[0], before[ids[0]], now[ids[0]])] + Touches(before, now, ids[1..])
  }

  lemma NotMentioned(before: Scores, now: Scores, ids: seq<Id>, m: Id)
    requires forall x :: x in ids ==> x in before && x in now
    requires forall k :: 0 <= k < |ids| ==> Touches(before, now, ids)[k].member != m
    ensures m !in ids
  {
    forall k | 0 <= k < |ids| ensures ids[k] != m { assert Touches(before, now, ids)[k].member == ids[k]; }
  }

  lemma OneMoreOp(before: Scores, overrides: map<ScoreEvent, int>, done: seq<ScoreOp>, op: ScoreOp)
    ensures FoldOps(before, overrides, done + [op]) == ApplyOp(FoldOps(before, overrides, done), overrides, op)
    ensures Mentioned(before, done + [op])
         == if op.member in before && op.member !in Mentioned(before, done) then Mentioned(before, done) + [op.member] else Mentioned(before, done)
  {
    hide ApplyOp;
    assert (done + [op])[..|done|] == done;
  }

  /** An op on a member the batch has already touched updates that member's entry. */
  lemma OpOnMentioned(before: Scores, overrides: map<ScoreEvent, int>, done: seq<ScoreOp>, op: ScoreOp, index: nat)
    requires index < |Mentioned(before, done)| && Mentioned(before, done)[index] == op.member
    ensures var ids, now := Mentioned(before, done), FoldOps(before, overrides, done);
            var next := now[op.member := Saturate(now[op.member] + Delta(overrides, op.event))];
            && Mentioned(before, done + [op]) == ids
            && FoldOps(before, overrides, done + [op]) == next
            && Touches(before, next, ids) == Touches(before, now, ids)[index := Touch(op.member, before[op.member], next[op.member])]
  {
    hide Saturate, Delta, Touches, FoldOps, Mentioned;
    OneMoreOp(before, overrides, done, op);
    MentionedMeaning(before, done);
    var ids, now := Mentioned(before, done), FoldOps(before, overrides, done);
    TouchUpdate(before, now, ids, index, Saturate(now[op.member] + Delta(overrides, op.event)));
  }

  lemma TouchesNewcomer(before: Scores, now: Scores, ids: seq<Id>, m: Id, score: int)
    requires m in before && m in now && m !in ids && forall x :: x in ids ==> x in before && x in now
    ensures Touches(before, now[m := score], ids + [m]) == Touches(before, now, ids) + [Touch(m, before[m], score)]
  {
    TouchesAppend(before, now[m := score], ids, m);
    TouchesSame(before, now, now[m := score], ids);
  }

  /** An op on a tracked member not touched so far adds an entry for it. */
  lemma OpOnNewcomer(before: Scores, overrides: map<ScoreEvent, int>, done: seq<ScoreOp>, op: ScoreOp)
    requires op.member in before && op.member !in Mentioned(before, done)
    ensures var ids, now := Mentioned(before, done), FoldOps(before, overrides, done);
            var next := now[op.member := Saturate(now[op.member] + Delta(overrides, op.event))];
            && now[op.member] == before[op.member]
            && Mentioned(before, done + [op]) == ids + [op.member]
            && FoldOps(before, overrides, done + [op]) == next
            && Touches(before, next, ids + [op.member]) == Touches(before, now, ids) + [Touch(op.member, before[op.member], next[op.member])]
  {
    hide Saturate, Delta, Touches, FoldOps, Mentioned;
    OneMoreOp(before, overrides, done, op);
    MentionedMeaning(before, done);
    UnmentionedUnchanged(before, overrides, done, op.member);
    var ids, now := Mentioned(before, done), FoldOps(before, overrides, done);
    TouchesNewcomer(before, now, ids, op.member, Saturate(now[op.member] + Delta(overrides, op.event)));
  }

  lemma TouchesSame(before: Scores, now: Scores, next: Scores, ids: seq<Id>)
    requires forall x :: x in ids ==> x in before && x in now && x in next && now[x] == next[x]
    ensures Touches(before, now, ids) == Touches(before, next, ids)
  {
    forall k | 0 <= k < |ids| ensures Touches(before, now, ids)[k] == Touches(before, next, ids)[k] { assert ids[k] in ids; }
  }

  lemma {:induction false} TouchesAppend(before: Scores, now: Scores, ids: seq<Id>, m: Id)
    requires m in before && m in now && forall x :: x in ids ==> x in before && x in now
    ensures Touches(before, now, ids + [m]) == Touches(before, now, ids) + [Touch(m, before[m], now[m])]
  {}

  lemma TouchUpdate(before: Scores, now: Scores, ids: seq<Id>, index: nat, score: int)
    requires Distinct(ids) && index < |ids| && forall m :: m in ids ==> m in before && m in now
    ensures Touches(before, now[ids[index] := score], ids)
         == Touches(before, now, ids)[index := Touches(before, now, ids)[index].(score := score)]
  {
    var l := Touches(before, now[ids[index] := score], ids);
    var r := Touches(before, now, ids)[index := Touches(before, now, ids)[index].(score := score)];
    forall k | 0 <= k < |ids| ensures l[k] == r[k] {
      assert k != index ==> ids[k] != ids[index];
    }
  }

  lemma {:induction false} MovedIsChanges(before: Scores, after: Scores, ids: seq<Id>)
    requires forall m :: m in ids ==> m in before && m in after
    ensures Moved(Touches(before, after, ids)) == Changes(before, after, ids)
  {
    if ids != [] {
      assert ids == [ids[0]] + ids[1..];
      MovedIsChanges(before, after, ids[1..]);
      assert Touches(before, after, ids)[1..] == Touches(before, after, ids[1..]);
    }
  }
}
