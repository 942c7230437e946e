/** The deterministic steward list: who serves, in what order, which of them is on
    duty in an epoch, and who may propose an election. Eligibility predicates are
    sets of member ids. */
module StewardLists {
  import opened ByteStrings
  import opened Sorting
  import opened Protocol
  import opened Modular

  datatype StewardError = EmptyMembersList | InvalidConfigSize

  /** Group-wide bounds on the list size. */
  datatype Config = Config(snMin: nat, snMax: nat, allowSubset: bool) {
    predicate Valid() { 1 <= snMin <= snMax }

    function Low(total: nat): nat { if total < snMin then total else snMin }

    function High(total: nat): nat { if total < snMin || total < snMax then total else snMax }

    /** The largest legal size. */
    function ListSize(total: nat): (size: nat) { High(total) }

    predicate ValidSize(size: nat, total: nat) { Low(total) <= size <= High(total) }

    /** A list over this many members has to be voted on. */
    predicate ElectionRequired(total: nat) { total > snMax }
  }

  function NewConfig(snMin: nat, snMax: nat): (r: Result<Config, StewardError>) {
    if snMin < 1 || snMin > snMax then Err(InvalidConfigSize) else Ok(Config(snMin, snMax, false))
  }

  /** One elected list, serving the epochs `[electionEpoch, electionEpoch + |members|)`. */
  datatype StewardList = StewardList(members: seq<Id>, config: Config, electionEpoch: nat, retryRound: nat) {
    predicate Exhausted(epoch: nat) { epoch < electionEpoch || epoch - electionEpoch >= |members| }
  }

  // ── Generation and validation ──

  /** Ascending steward hash, ties broken on the member id. */
  function Before(w: World, epoch: nat, round: nat): (Id, Id) -> bool {
    (a: Id, b: Id) =>
      var ha, hb := w.stewardHash(epoch, round, a, w.conversationId), w.stewardHash(epoch, round, b, w.conversationId);
      Less(ha, hb) || (ha == hb && (a == b || Less(a, b)))
  }

  lemma BeforeIsTotalOrder(w: World, epoch: nat, round: nat, pool: seq<Id>)
    ensures TotalPreorder(Before(w, epoch, round))
    ensures AntisymmetricOn(Before(w, epoch, round), pool)
  {
    var leq := Before(w, epoch, round);
    forall a, b ensures leq(a, b) || leq(b, a) ensures leq(a, b) && leq(b, a) ==> a == b {
      LessTrichotomy(w.stewardHash(epoch, round, a, w.conversationId), w.stewardHash(epoch, round, b, w.conversationId));
      LessTrichotomy(a, b);
    }
    forall a, b, c | leq(a, b) && leq(b, c) ensures leq(a, c) {
      BeforeTransitive(w, epoch, round, a, b, c);
    }
  }

  lemma BeforeTransitive(w: World, epoch: nat, round: nat, a: Id, b: Id, c: Id)
    requires Before(w, epoch, round)(a, b) && Before(w, epoch, round)(b, c)
    ensures Before(w, epoch, round)(a, c)
  {
    var ha := w.stewardHash(epoch, round, a, w.conversationId);
    var hb := w.stewardHash(epoch, round, b, w.conversationId);
    var hc := w.stewardHash(epoch, round, c, w.conversationId);
    if Less(ha, hb) && Less(hb, hc) { LessTransitive(ha, hb, hc); }
    if Less(a, b) && Less(b, c) { LessTransitive(a, b, c); }
  }

  function Ordered(w: World, epoch: nat, round: nat, pool: seq<Id>): (r: seq<Id>) {
    SortBy(Before(w, epoch, round), pool)
  }

  function Generate(w: World, epoch: nat, pool: seq<Id>, sn: nat, config: Config, round: nat)
    : (r: Result<StewardList, StewardError>)
  {
    if pool == [] then Err(EmptyMembersList)
    else if !config.ValidSize(sn, |pool|) then Err(InvalidConfigSize)
    else
      SortByMultiset(Before(w, epoch, round), pool);
      Ok(StewardList(Ordered(w, epoch, round, pool)[..sn], config, epoch, round))
  }

  function Validate(w: World, proposed: seq<Id>, epoch: nat, pool: seq<Id>, config: Config, round: nat)
    : (r: Result<bool, StewardError>)
  {
    if pool == [] then Err(EmptyMembersList)
    else if |proposed| != config.ListSize(|pool|) then Ok(false)
    else
      var ordered := Ordered(w, epoch, round, pool);
      Ok(forall i | 0 <= i < |proposed| && i < |ordered| :: ordered[i] == proposed[i])
  }

  /** The list everyone computes for a pool. */
  function Canonical(w: World, epoch: nat, pool: seq<Id>, config: Config, round: nat): (r: seq<Id>) {
    SortByMultiset(Before(w, epoch, round), pool);
    Ordered(w, epoch, round, pool)[..config.ListSize(|pool|)]
  }

  /** The order in which a node enumerates the pool does not matter: not to the
      list, not to the check, not to the errors. */
  lemma PoolOrderIrrelevant(w: World, proposed: seq<Id>, epoch: nat, pool: seq<Id>, other: seq<Id>, sn: nat,
        config: Config, round: nat)
    requires multiset(pool) == multiset(other)
    ensures Generate(w, epoch, pool, sn, config, round) == Generate(w, epoch, other, sn, config, round)
    ensures Validate(w, proposed, epoch, pool, config, round) == Validate(w, proposed, epoch, other, config, round)
  {
    assert |pool| == |multiset(pool)| == |multiset(other)| == |other|;
    BeforeIsTotalOrder(w, epoch, round, pool);
    SortByPermutation(Before(w, epoch, round), pool, other);
  }

  /** Validation accepts exactly the list generation produces. */
  lemma ValidateAcceptsExactlyCanonical(w: World, proposed: seq<Id>, epoch: nat, pool: seq<Id>, config: Config,
        round: nat)
    requires config.Valid() && pool != []
    ensures var generated := Generate(w, epoch, pool, config.ListSize(|pool|), config, round);
            && generated.Ok?
            && generated.value.members == Canonical(w, epoch, pool, config, round)
            && (Validate(w, proposed, epoch, pool, config, round) == Ok(true) <==> proposed == generated.value.members)
  {
    SortByMultiset(Before(w, epoch, round), pool);
    var canonical := Canonical(w, epoch, pool, config, round);
    if Validate(w, proposed, epoch, pool, config, round) == Ok(true) {
      forall i | 0 <= i < |proposed| ensures proposed[i] == canonical[i] {
        assert Ordered(w, epoch, round, pool)[i] == proposed[i];
      }
    }
  }

  /** Installing a generated list from nothing but its own members never errors and
      gives it back member for member. */
  lemma ReinstallReproduces(w: World, epoch: nat, pool: seq<Id>, sn: nat, config: Config, round: nat)
    requires config.Valid() && pool != [] && config.ValidSize(sn, |pool|)
    ensures var list := Generate(w, epoch, pool, sn, config, round);
            list.Ok? && Generate(w, epoch, list.value.members, |list.value.members|, config, round) == list
  {
    hide Before;
    var leq := Before(w, epoch, round);
    SortByMultiset(leq, pool);
    BeforeIsTotalOrder(w, epoch, round, pool);
    SortBySorted(leq, pool);
    var members := Ordered(w, epoch, round, pool)[..sn];
    SortByFixpoint(leq, members);
    assert members[..|members|] == members;
  }

  /** One list, four ways to it: the proposer generates it, a voter checks it, the
      installer and a joiner rebuild it from the accepted members alone. Whatever
      list passes the check is the one all four end up with. */
  lemma FourPathsOneList(w: World, proposed: seq<Id>, epoch: nat, proposerPool: seq<Id>, voterPool: seq<Id>,
        config: Config, round: nat)
    requires config.Valid() && proposerPool != [] && multiset(proposerPool) == multiset(voterPool)
    ensures var generated := Generate(w, epoch, proposerPool, config.ListSize(|proposerPool|), config, round);
            && generated.Ok?
            && Validate(w, generated.value.members, epoch, voterPool, config, round) == Ok(true)
            && (Validate(w, proposed, epoch, voterPool, config, round) == Ok(true)
                ==> Generate(w, epoch, proposed, |proposed|, config, round) == generated)
  {
    PoolOrderIrrelevant(w, proposed, epoch, proposerPool, voterPool, config.ListSize(|proposerPool|), config, round);
    assert |proposerPool| == |multiset(proposerPool)| == |multiset(voterPool)| == |voterPool|;
    ReinstallReproduces(w, epoch, proposerPool, config.ListSize(|proposerPool|), config, round);
    var generated := Generate(w, epoch, proposerPool, config.ListSize(|proposerPool|), config, round);
    ValidateAcceptsExactlyCanonical(w, proposed, epoch, voterPool, config, round);
    ValidateAcceptsExactlyCanonical(w, generated.value.members, epoch, voterPool, config, round);
  }

  function InSeq(s: seq<Id>): Id -> bool { (m: Id) => m in s }

  lemma OrderedRemaining(w: World, epoch: nat, round: nat, pool: seq<Id>, remaining: seq<Id>)
    requires Distinct(pool) && Distinct(remaining) && forall m :: m in remaining ==> m in pool
    ensures Ordered(w, epoch, round, remaining) == Keep(InSeq(remaining), Ordered(w, epoch, round, pool))
  {
    var p := InSeq(remaining);
    forall m ensures multiset(remaining)[m] == multiset(Keep(p, pool))[m] {
      DistinctCount(remaining, m);
      DistinctCount(pool, m);
      KeepCount(p, pool, m);
    }
    assert multiset(remaining) == multiset(Keep(p, pool));
    BeforeIsTotalOrder(w, epoch, round, pool);
    SortByKeep(Before(w, epoch, round), p, pool, remaining);
  }

  /** Dropping members that are not on the list leaves the list alone. */
  lemma ListKeptByRemaining(w: World, epoch: nat, round: nat, pool: seq<Id>, remaining: seq<Id>, n: nat)
    requires Distinct(pool) && Distinct(remaining) && forall m :: m in remaining ==> m in pool
    requires n <= |Ordered(w, epoch, round, pool)|
    requires forall m :: m in Ordered(w, epoch, round, pool)[..n] ==> m in remaining
    ensures n <= |Ordered(w, epoch, round, remaining)|
    ensures Ordered(w, epoch, round, remaining)[..n] == Ordered(w, epoch, round, pool)[..n]
  {
    var sorted, p := Ordered(w, epoch, round, pool), InSeq(remaining);
    OrderedRemaining(w, epoch, round, pool, remaining);
    assert sorted == sorted[..n] + sorted[n..];
    KeepConcat(p, sorted[..n], sorted[n..]);
    KeepAll(p, sorted[..n]);
  }

  /** A list drawn from what remains has the length the remaining pool calls for. */
  lemma ListLengthStays(config: Config, list: seq<Id>, pool: seq<Id>, remaining: seq<Id>)
    requires config.Valid() && Distinct(list) && Distinct(pool) && Distinct(remaining)
    requires |list| == config.ListSize(|pool|)
    requires (forall m :: m in list ==> m in remaining) && forall m :: m in remaining ==> m in pool
    ensures config.ListSize(|remaining|) == config.ListSize(|pool|)
  {
    DistinctCardinality(list);
    DistinctCardinality(pool);
    DistinctCardinality(remaining);
    SubsetCardinality(ToSet(list), ToSet(remaining));
    SubsetCardinality(ToSet(remaining), ToSet(pool));
  }

  /** When part of the pool has gone, the old list still passes the check exactly if
      every one of its stewards is still there. */
  lemma CanonicalSurvivesDepartures(w: World, epoch: nat, pool: seq<Id>, remaining: seq<Id>, config: Config, round: nat)
    requires config.Valid() && remaining != [] && Distinct(pool) && Distinct(remaining)
    requires forall m :: m in remaining ==> m in pool
    ensures var list := Canonical(w, epoch, pool, config, round);
            Validate(w, list, epoch, remaining, config, round) == Ok(true) <==> forall m :: m in list ==> m in remaining
  {
    var list := Canonical(w, epoch, pool, config, round);
    SortByMultiset(Before(w, epoch, round), pool);
    SortByMultiset(Before(w, epoch, round), remaining);
    ValidateAcceptsExactlyCanonical(w, list, epoch, remaining, config, round);
    if list == Canonical(w, epoch, remaining, config, round) {
      CanonicalMembers(w, epoch, remaining, config, round);
    }
    if forall m :: m in list ==> m in remaining {
      CanonicalDistinct(w, epoch, pool, config, round);
      ListLengthStays(config, list, pool, remaining);
      ListKeptByRemaining(w, epoch, round, pool, remaining, |list|);
    }
  }

  /** `a`'s hash in this election falls below `b`'s, or they are equal and its id does. */
  ghost predicate HashesBelow(w: World, epoch: nat, round: nat, a: Id, b: Id) {
    var ha, hb := w.stewardHash(epoch, round, a, w.conversationId), w.stewardHash(epoch, round, b, w.conversationId);
    if ha == hb then exists k: nat :: FallsBelowAt(a, b, k) else exists k: nat :: FallsBelowAt(ha, hb, k)
  }

  lemma BeforeMeaning(w: World, epoch: nat, round: nat, a: Id, b: Id)
    ensures Before(w, epoch, round)(a, b) <==> a == b || HashesBelow(w, epoch, round, a, b)
  {
    var ha, hb := w.stewardHash(epoch, round, a, w.conversationId), w.stewardHash(epoch, round, b, w.conversationId);
    LessTrichotomy(ha, hb);
    LessMeaning(ha, hb);
    LessMeaning(a, b);
  }

  /** The list of a pool of distinct members: as many as fit, the lowest hashes first,
      and nobody left out hashes below anybody listed. */
  lemma ListTakesLowestHashes(w: World, epoch: nat, pool: seq<Id>, config: Config, round: nat)
    requires config.Valid() && Distinct(pool)
    ensures var list := Canonical(w, epoch, pool, config, round);
            && |list| == (if |pool| <= config.snMax then |pool| else config.snMax)
            && (forall m :: m in list ==> m in pool)
            && (forall i, j :: 0 <= i < j < |list| ==> HashesBelow(w, epoch, round, list[i], list[j]))
            && (forall m, x :: m in list && x in pool && x !in list ==> HashesBelow(w, epoch, round, m, x))
  {
    hide Before, HashesBelow;
    var leq := Before(w, epoch, round);
    var ordered := Ordered(w, epoch, round, pool);
    var list := Canonical(w, epoch, pool, config, round);
    BeforeIsTotalOrder(w, epoch, round, pool);
    SortByMultiset(leq, pool);
    SortBySorted(leq, pool);
    DistinctSorted(leq, pool);
    CanonicalMembers(w, epoch, pool, config, round);
    forall i, j | 0 <= i < j < |ordered| ensures HashesBelow(w, epoch, round, ordered[i], ordered[j]) {
      BeforeMeaning(w, epoch, round, ordered[i], ordered[j]);
    }
    forall m, x | m in list && x in pool && x !in list ensures HashesBelow(w, epoch, round, m, x) {
      assert x in multiset(pool) && x in multiset(ordered);
      var i :| 0 <= i < |list| && list[i] == m;
      var j :| 0 <= j < |ordered| && ordered[j] == x;
      assert j >= |list|;
    }
  }

  /** A size is accepted exactly if it lies between the bounds, or is the whole of a pool
      that is smaller than them. */
  lemma GenerateAcceptsSizes(w: World, epoch: nat, pool: seq<Id>, sn: nat, config: Config, round: nat)
    requires config.Valid()
    ensures Generate(w, epoch, pool, sn, config, round).Ok?
            <==> pool != [] && sn <= |pool| && sn <= config.snMax && (sn >= config.snMin || sn == |pool|)
  {}

  lemma CanonicalMembers(w: World, epoch: nat, pool: seq<Id>, config: Config, round: nat)
    ensures forall m :: m in Canonical(w, epoch, pool, config, round) ==> m in pool
  {
    SortByMultiset(Before(w, epoch, round), pool);
    forall m | m in Canonical(w, epoch, pool, config, round) ensures m in pool {
      assert m in Ordered(w, epoch, round, pool);
      SortByMembers(Before(w, epoch, round), pool, m);
    }
  }

  /** A pool within the upper bound is listed whole. */
  lemma CanonicalIsWholePool(w: World, epoch: nat, pool: seq<Id>, config: Config, round: nat)
    requires config.Valid() && |pool| <= config.snMax
    ensures multiset(Canonical(w, epoch, pool, config, round)) == multiset(pool)
    ensures |Canonical(w, epoch, pool, config, round)| == |pool|
  {
    SortByMultiset(Before(w, epoch, round), pool);
    var ordered := Ordered(w, epoch, round, pool);
    assert ordered[..|ordered|] == ordered;
  }

  lemma CanonicalDistinct(w: World, epoch: nat, pool: seq<Id>, config: Config, round: nat)
    requires Distinct(pool)
    ensures Distinct(Canonical(w, epoch, pool, config, round))
  {
    SortByMultiset(Before(w, epoch, round), pool);
    DistinctSorted(Before(w, epoch, round), pool);
  }

  // ── Rotation ──

  /** First eligible member at or after slot `start + step`, going round once. */
  function Walk(members: seq<Id>, start: nat, step: nat, eligible: set<Id>): (r: Option<Id>)
    requires start < |members| && step <= |members|
    decreases |members| - step
  {
    if step == |members| then None
    else
      var candidate := members[Slot(start, step, |members|)];
      if candidate in eligible then Some(candidate) else Walk(members, start, step + 1, eligible)
  }

  function StewardAt(list: StewardList, epoch: nat, offset: nat, eligible: set<Id>): (r: Option<Id>) {
    if list.Exhausted(epoch) then None
    else Walk(list.members, (epoch - list.electionEpoch + offset) % |list.members|, 0, eligible)
  }

  /** The walk as the list runs it. */
  method StewardFrom(list: StewardList, epoch: nat, offset: nat, eligible: set<Id>) returns (r: Option<Id>)
    ensures r == StewardAt(list, epoch, offset, eligible)
  {
    if list.Exhausted(epoch) {
      return None;
    }
    var len := |list.members|;
    var start := (epoch - list.electionEpoch + offset) % len;
    var step := 0;
    while step < len
      invariant 0 <= step <= len
      invariant StewardAt(list, epoch, offset, eligible) == Walk(list.members, start, step, eligible)
    {
      var candidate := list.members[Slot(start, step, len)];
      if candidate in eligible {
        return Some(candidate);
      }
      step := step + 1;
    }
    return None;
  }

  function EpochSteward(list: StewardList, epoch: nat, eligible: set<Id>): (r: Option<Id>) {
    StewardAt(list, epoch, 0, eligible)
  }

  function EpochAndBackup(list: StewardList, epoch: nat, eligible: set<Id>): (r: (Option<Id>, Option<Id>)) {
    var steward := EpochSteward(list, epoch, eligible);
    (steward, match steward case Some(es) => StewardAt(list, epoch, 1, eligible - {es}) case None => None)
  }

  lemma SlotsCover(members: seq<Id>, start: nat, m: Id) returns (step: nat)
    requires start < |members| && m in members
    ensures step < |members| && members[Slot(start, step, |members|)] == m
  {
    var i :| 0 <= i < |members| && members[i] == m;
    step := if start <= i then i - start else i + |members| - start;
  }

  lemma {:induction false} WalkMeaning(members: seq<Id>, start: nat, step: nat, eligible: set<Id>)
    requires start < |members| && step <= |members|
    ensures match Walk(members, start, step, eligible)
            case Some(m) => m in members && m in eligible
            case None => forall k :: step <= k < |members| ==> members[Slot(start, k, |members|)] !in eligible
    decreases |members| - step
  {
    if step < |members| && members[Slot(start, step, |members|)] !in eligible {
      WalkMeaning(members, start, step + 1, eligible);
    }
  }

  /** A steward is found exactly when the list covers the epoch and names somebody
      eligible; the one found is listed and eligible. */
  lemma StewardFoundIff(list: StewardList, epoch: nat, offset: nat, eligible: set<Id>)
    ensures StewardAt(list, epoch, offset, eligible).Some?
            <==> !list.Exhausted(epoch) && exists m :: m in list.members && m in eligible
    ensures var r := StewardAt(list, epoch, offset, eligible);
            r.Some? ==> r.value in list.members && r.value in eligible
  {
    if !list.Exhausted(epoch) {
      var start := (epoch - list.electionEpoch + offset) % |list.members|;
      WalkMeaning(list.members, start, 0, eligible);
      if exists m :: m in list.members && m in eligible {
        var m :| m in list.members && m in eligible;
        var step := SlotsCover(list.members, start, m);
      }
    }
  }

  /** A backup exists exactly when two different listed members are eligible, and it
      is never the epoch steward. */
  lemma BackupFoundIff(list: StewardList, epoch: nat, eligible: set<Id>)
    requires !list.Exhausted(epoch)
    ensures var (steward, backup) := EpochAndBackup(list, epoch, eligible);
            && (backup.Some? <==> exists a, b :: a in list.members && b in list.members && a in eligible && b in eligible && a != b)
            && (backup.Some? ==> backup != steward && backup.value in list.members && backup.value in eligible)
  {
    StewardFoundIff(list, epoch, 0, eligible);
    var steward := EpochSteward(list, epoch, eligible);
    if steward.Some? {
      StewardFoundIff(list, epoch, 1, eligible - {steward.value});
      forall a, b | a in list.members && b in list.members && a in eligible && b in eligible && a != b
        ensures exists m :: m in list.members && m in eligible - {steward.value}
      {
        var m := if a == steward.value then b else a;
        assert m in list.members && m in eligible - {steward.value};
      }
    }
  }

  lemma {:induction false} WalkShift(members: seq<Id>, start: nat, step: nat, eligible: set<Id>)
    requires start < |members| && step < |members|
    requires members[start] !in eligible
    ensures Walk(members, Slot(start, 1, |members|), step, eligible) == Walk(members, start, step + 1, eligible)
    decreases |members| - step
  {
    if step + 1 < |members| {
      WalkShift(members, start, step + 1, eligible);
    }
  }

  /** Dropping the epoch steward promotes the backup. */
  lemma BackupTakesOver(list: StewardList, epoch: nat, eligible: set<Id>)
    requires EpochSteward(list, epoch, eligible).Some?
    ensures var (steward, backup) := EpochAndBackup(list, epoch, eligible);
            EpochSteward(list, epoch, eligible - {steward.value}) == backup
  {
    var steward := EpochSteward(list, epoch, eligible).value;
    var len := |list.members|;
    var slot := epoch - list.electionEpoch;
    ModIs(slot, 0, len, slot);
    if slot + 1 < len { ModIs(slot + 1, 0, len, slot + 1); } else { ModIs(slot + 1, 1, len, 0); }
    WalkShift(list.members, slot, 0, eligible - {steward});
  }

  /** With everybody eligible, the member at position `k` serves epoch
      `electionEpoch + k` and no other epoch of the span. */
  lemma EachServesOneEpoch(list: StewardList, epoch: nat, eligible: set<Id>)
    requires forall m :: m in list.members ==> m in eligible
    requires Distinct(list.members)
    ensures list.Exhausted(epoch) ==> EpochSteward(list, epoch, eligible).None?
    ensures !list.Exhausted(epoch) ==>
              && EpochSteward(list, epoch, eligible) == Some(list.members[epoch - list.electionEpoch])
              && forall other: nat :: !list.Exhausted(other) && other != epoch
                   ==> EpochSteward(list, other, eligible) != EpochSteward(list, epoch, eligible)
  {
    forall e: nat | !list.Exhausted(e)
      ensures EpochSteward(list, e, eligible) == Some(list.members[e - list.electionEpoch])
    {
      var slot := e - list.electionEpoch;
      ModIs(slot, 0, |list.members|, slot);
      assert list.members[slot] in list.members;
    }
  }

  // ── Election authority ──

  function Only(eligible: set<Id>, except: seq<Id>): Id -> bool { (c: Id) => c in eligible && c !in except }

  function IdOrder(): (Id, Id) -> bool { (a: Id, b: Id) => a == b || Less(a, b) }

  lemma IdOrderIsTotal(s: seq<Id>)
    ensures TotalPreorder(IdOrder()) && AntisymmetricOn(IdOrder(), s)
  {
    var leq := IdOrder();
    forall a, b ensures leq(a, b) || leq(b, a) ensures leq(a, b) && leq(b, a) ==> a == b { LessTrichotomy(a, b); }
    forall a, b, c | leq(a, b) && leq(b, c) ensures leq(a, c) {
      if Less(a, b) && Less(b, c) { LessTransitive(a, b, c); }
    }
  }

  function ListMembers(list: Option<StewardList>): (r: seq<Id>) {
    match list case Some(l) => l.members case None => []
  }

  /** Who may propose, in order: eligible list members in rotation order, then the
      other eligible candidates by ascending id. */
  function Authority(list: Option<StewardList>, pool: seq<Id>, eligible: set<Id>): (r: seq<Id>) {
    var listed := Keep(Only(eligible, []), ListMembers(list));
    listed + SortBy(IdOrder(), Keep(Only(eligible, listed), pool))
  }

  function ResponsibleProposer(list: Option<StewardList>, round: nat, pool: seq<Id>,
        eligible: set<Id>): (r: Option<Id>) {
    var sequence := Authority(list, pool, eligible);
    if sequence == [] then None else Some(sequence[round % |sequence|])
  }

  /** Every node with the same list, pool and eligibility names the same proposer in
      every round, however it enumerates the pool. */
  lemma SameProposerEverywhere(list: Option<StewardList>, round: nat, pool: seq<Id>, other: seq<Id>, eligible: set<Id>)
    requires multiset(pool) == multiset(other)
    ensures ResponsibleProposer(list, round, pool, eligible) == ResponsibleProposer(list, round, other, eligible)
  {
    var listed := Keep(Only(eligible, []), ListMembers(list));
    var p := Only(eligible, listed);
    forall m ensures multiset(Keep(p, pool))[m] == multiset(Keep(p, other))[m] {
      KeepCount(p, pool, m);
      KeepCount(p, other, m);
    }
    assert multiset(Keep(p, pool)) == multiset(Keep(p, other));
    IdOrderIsTotal(Keep(p, pool));
    SortByPermutation(IdOrder(), Keep(p, pool), Keep(p, other));
  }

  /** The authority sequence holds every eligible member of the list or the pool,
      once, and nobody else. */
  lemma AuthorityMeaning(list: Option<StewardList>, pool: seq<Id>, eligible: set<Id>)
    requires Distinct(ListMembers(list)) && Distinct(pool)
    ensures Distinct(Authority(list, pool, eligible))
    ensures forall c :: c in Authority(list, pool, eligible) <==> c in eligible && (c in ListMembers(list) || c in pool)
  {
    var listed := Keep(Only(eligible, []), ListMembers(list));
    var kept := Keep(Only(eligible, listed), pool);
    var rest := SortBy(IdOrder(), kept);
    KeepDistinct(Only(eligible, []), ListMembers(list));
    KeepDistinct(Only(eligible, listed), pool);
    DistinctSorted(IdOrder(), kept);
    forall c
      ensures c in listed <==> c in eligible && c in ListMembers(list)
      ensures c in rest <==> c in eligible && c in pool && c !in listed
    {
      KeepMembers(Only(eligible, []), ListMembers(list), c);
      KeepMembers(Only(eligible, listed), pool, c);
      SortByMembers(IdOrder(), kept, c);
    }
    var all := listed + rest;
    forall i, j | 0 <= i < j < |all| ensures all[i] != all[j] {
      if i < |listed| <= j {
        assert all[i] in listed && all[j] in rest;
      }
    }
  }

  /** Listed candidates go first, in the order of the list; the others follow by ascending
      id, read from the left. */
  lemma AuthorityOrder(list: Option<StewardList>, pool: seq<Id>, eligible: set<Id>, i: nat, j: nat)
    requires Distinct(ListMembers(list)) && Distinct(pool) && i < j < |Authority(list, pool, eligible)|
    ensures var a, b, listed := Authority(list, pool, eligible)[i], Authority(list, pool, eligible)[j], ListMembers(list);
            && (b in listed ==> a in listed)
            && (b in listed ==> exists k, l :: 0 <= k < l < |listed| && listed[k] == a && listed[l] == b)
            && (a !in listed ==> exists k: nat :: FallsBelowAt(a, b, k))
  {
    var first := Keep(Only(eligible, []), ListMembers(list));
    var kept := Keep(Only(eligible, first), pool);
    var rest := SortBy(IdOrder(), kept);
    var a, b := Authority(list, pool, eligible)[i], Authority(list, pool, eligible)[j];
    forall c ensures c in first <==> c in eligible && c in ListMembers(list) { KeepMembers(Only(eligible, []), ListMembers(list), c); }
    forall c ensures c in rest ==> c in eligible && c !in first {
      KeepMembers(Only(eligible, first), pool, c);
      SortByMembers(IdOrder(), kept, c);
    }
    if j < |first| {
      assert a in first && b in first;
      var k, l := KeepOrder(Only(eligible, []), ListMembers(list), i, j);
    } else {
      assert b == rest[j - |first|] && b in rest;
      if i < |first| {
        assert a in first;
      } else {
        assert a == rest[i - |first|] && a in rest;
        IdOrderIsTotal(kept);
        SortBySorted(IdOrder(), kept);
        KeepDistinct(Only(eligible, first), pool);
        DistinctSorted(IdOrder(), kept);
        LessMeaning(a, b);
      }
    }
  }

  lemma KeepDistinct<T>(p: T -> bool, s: seq<T>)
    requires Distinct(s)
    ensures Distinct(Keep(p, s))
  {
    forall x ensures multiset(Keep(p, s))[x] <= 1 {
      KeepCount(p, s, x);
      DistinctCount(s, x);
    }
    CountedOnce(Keep(p, s));
  }

  /** Any stretch of as many rounds as there are candidates hands authority to each
      eligible candidate exactly once. */
  lemma AuthorityVisitsEachOnce(list: Option<StewardList>, pool: seq<Id>, eligible: set<Id>, first: nat, c: Id)
    requires Distinct(ListMembers(list)) && Distinct(pool)
    requires c in eligible && (c in ListMembers(list) || c in pool)
    ensures var len := |Authority(list, pool, eligible)|;
            && (exists round: nat :: first <= round < first + len && ResponsibleProposer(list, round, pool, eligible) == Some(c))
            && (forall a: nat, b: nat :: first <= a < first + len && first <= b < first + len
                  && ResponsibleProposer(list, a, pool, eligible) == Some(c) == ResponsibleProposer(list, b, pool, eligible)
                  ==> a == b)
  {
    var sequence := Authority(list, pool, eligible);
    var len := |sequence|;
    AuthorityMeaning(list, pool, eligible);
    var j :| 0 <= j < len && sequence[j] == c;
    var round := WindowCovers(len, first, j);
    assert ResponsibleProposer(list, round, pool, eligible) == Some(c);
    forall a: nat, b: nat | first <= a < first + len && first <= b < first + len
        && ResponsibleProposer(list, a, pool, eligible) == Some(c) == ResponsibleProposer(list, b, pool, eligible)
      ensures a == b
    {
      assert sequence[a % len] == sequence[b % len];
      WindowHitsOnce(len, first, a, b);
    }
  }

  function ElectionProposer(list: Option<StewardList>, eligible: set<Id>): (r: Option<Id>) {
    match list case Some(l) => EpochSteward(l, l.electionEpoch, eligible) case None => None
  }

  /** Round zero is the classic election proposer exactly when the list still names
      somebody eligible, or nobody at all is. Otherwise authority has moved on to
      the pool while the classic proposer is nobody. */
  lemma RoundZeroIsElectionProposerIff(list: Option<StewardList>, pool: seq<Id>, eligible: set<Id>)
    ensures ResponsibleProposer(list, 0, pool, eligible) == ElectionProposer(list, eligible)
            <==> (exists m :: m in ListMembers(list) && m in eligible) || !(exists c :: c in pool && c in eligible)
  {
    var members := ListMembers(list);
    var listed := Keep(Only(eligible, []), members);
    var kept := Keep(Only(eligible, listed), pool);
    forall m ensures m in listed <==> m in members && m in eligible { KeepMembers(Only(eligible, []), members, m); }
    forall c ensures c in SortBy(IdOrder(), kept) <==> c in pool && c in eligible && c !in listed {
      KeepMembers(Only(eligible, listed), pool, c);
      SortByMembers(IdOrder(), kept, c);
    }
    if exists m :: m in members && m in eligible {
      var m :| m in members && m in eligible;
      assert m in listed;
      FirstKeptIsWalk(members, 0, eligible);
      assert Authority(list, pool, eligible)[0] == listed[0];
      ModIs(0, 0, |members|, 0);
    } else {
      HasFirst(listed);
      if list.Some? && list.value.members != [] {
        StewardFoundIff(list.value, list.value.electionEpoch, 0, eligible);
      }
      if exists c :: c in pool && c in eligible {
        var c :| c in pool && c in eligible;
        assert c in SortBy(IdOrder(), kept);
      } else {
        HasFirst(SortBy(IdOrder(), kept));
      }
    }
  }

  /** Such a list and pool exist: a list whose only steward has become ineligible, and
      a candidate beside it. */
  lemma RoundZeroCanDiffer() returns (list: Option<StewardList>, pool: seq<Id>, eligible: set<Id>)
    ensures Distinct(ListMembers(list)) && Distinct(pool) && |pool| == 2 && eligible == {pool[1]}
    ensures ElectionProposer(list, eligible).None?
    ensures ResponsibleProposer(list, 0, pool, eligible) == Some(pool[1])
  {
    var gone, left: Leaf := 0, 1;
    var a, b := MemberIdOf(gone), MemberIdOf(left);
    MemberIdInjective(gone, left);
    list := Some(StewardList([a], Config(1, 1, false), 0, 0));
    pool, eligible := [a, b], {b};
    assert b in pool;
    assert !exists m :: m in ListMembers(list) && m in eligible;
    assert exists c :: c in pool && c in eligible;
    RoundZeroIsElectionProposerIff(list, pool, eligible);
    StewardFoundIff(list.value, 0, 0, eligible);
    AuthorityMeaning(list, pool, eligible);
    var sequence := Authority(list, pool, eligible);
    assert b in sequence && forall c :: c in sequence ==> c == b;
    HasFirst(sequence);
    ModIs(0, 0, |sequence|, 0);
  }

  lemma {:induction false} FirstKeptIsWalk(members: seq<Id>, step: nat, eligible: set<Id>)
    requires members != [] && step <= |members|
    ensures var kept := Keep(Only(eligible, []), members[step..]);
            Walk(members, 0, step, eligible) == if kept == [] then None else Some(kept[0])
    decreases |members| - step
  {
    if step < |members| {
      assert members[step..][1..] == members[step + 1..];
      FirstKeptIsWalk(members, step + 1, eligible);
    }
  }

  // ── The service ──

  datatype ElectionDecision =
    | NotExhausted
    | NoEligibleCandidates
    | NotResponsibleProposer
    | Proposed(election: Election)

  /** The service's state: the installed list, the bounds, and the retry ladder. */
  datatype Stewards = Stewards(list: Option<StewardList>, config: Config, nextRound: nat, maxRetries: nat) {
    predicate IsSteward(id: Id) { list.Some? && id in list.value.members }

    predicate Exhausted(epoch: nat) { list.Some? && list.value.Exhausted(epoch) }

    function DutySteward(epoch: nat, eligible: set<Id>): (r: Option<Id>) {
      match list case Some(l) => EpochSteward(l, epoch, eligible) case None => None
    }

    function Install(w: World, epoch: nat, pool: seq<Id>, sn: nat, round: nat): (r: Result<Stewards, StewardError>) {
      match Generate(w, epoch, pool, sn, config, round)
      case Ok(l) => Ok(this.(list := Some(l)))
      case Err(e) => Err(e)
    }

    function Propose(w: World, epoch: nat, pool: seq<Id>, self: Id, eligible: set<Id>, recovery: bool)
      : (r: Result<ElectionDecision, StewardError>)
    {
      if !recovery && !Exhausted(epoch) then Ok(NotExhausted)
      else if pool == [] then Ok(NoEligibleCandidates)
      else if ResponsibleProposer(list, nextRound, pool, eligible) != Some(self) then Ok(NotResponsibleProposer)
      else match Generate(w, epoch, pool, config.ListSize(|pool|), config, nextRound)
        case Ok(l) => Ok(Proposed(Election(l.members, epoch, nextRound)))
        case Err(e) => Err(e)
    }
  }

  const U32_MAX: nat := 0xffff_ffff

  /** At most one node proposes in a round, proposing never errors, and what it
      proposes passes every voter's check and installs as is. */
  lemma ProposalPassesEveryVoter(w: World, proposer: Stewards, voter: Stewards, epoch: nat, pool: seq<Id>,
        voterPool: seq<Id>, self: Id, other: Id, eligible: set<Id>, recovery: bool)
    requires proposer.config.Valid() && voter.config == proposer.config
    requires multiset(pool) == multiset(voterPool)
    ensures var decision := proposer.Propose(w, epoch, pool, self, eligible, recovery);
            && decision.Ok?
            && (decision.value.Proposed? ==>
                  var e := decision.value.election;
                  && Validate(w, e.stewards, e.epoch, voterPool, voter.config, e.retryRound) == Ok(true)
                  && voter.Install(w, e.epoch, e.stewards, |e.stewards|, e.retryRound).Ok?
                  && voter.Install(w, e.epoch, e.stewards, |e.stewards|, e.retryRound).value.list.value.members == e.stewards
                  && (voter.list == proposer.list && voter.nextRound == proposer.nextRound && other != self
                      ==> !voter.Propose(w, epoch, voterPool, other, eligible, recovery).value.Proposed?))
  {
    if pool != [] {
      var generated := Generate(w, epoch, pool, proposer.config.ListSize(|pool|), proposer.config, proposer.nextRound);
      FourPathsOneList(w, [], epoch, pool, voterPool, proposer.config, proposer.nextRound);
      ReinstallReproduces(w, epoch, pool, proposer.config.ListSize(|pool|), proposer.config, proposer.nextRound);
      SameProposerEverywhere(proposer.list, proposer.nextRound, pool, voterPool, eligible);
    }
  }

  /** A node proposes exactly if its list does not cover the epoch, or it is in recovery,
      and it is the one to propose in this round; it proposes the list everybody computes,
      for this epoch and round. */
  lemma ProposesIff(w: World, s: Stewards, epoch: nat, pool: seq<Id>, self: Id, eligible: set<Id>, recovery: bool)
    requires s.config.Valid()
    ensures var decision := s.Propose(w, epoch, pool, self, eligible, recovery);
            && decision.Ok?
            && (decision.value.Proposed? <==>
                  && (recovery || (s.list.Some? && !(s.list.value.electionEpoch <= epoch < s.list.value.electionEpoch + |s.list.value.members|)))
                  && pool != [] && ResponsibleProposer(s.list, s.nextRound, pool, eligible) == Some(self))
            && (decision.value.Proposed? ==> decision.value.election == Election(Canonical(w, epoch, pool, s.config, s.nextRound), epoch, s.nextRound))
  {
    hide ResponsibleProposer;
    if pool != [] {
      ValidateAcceptsExactlyCanonical(w, [], epoch, pool, s.config, s.nextRound);
    }
  }

  class StewardListService {
    var list: Option<StewardList>
    var config: Config
    var nextElectionRound: nat
    var maxRetries: nat

    function State(): (s: Stewards) reads this { Stewards(list, config, nextElectionRound, maxRetries) }

    constructor (s: Stewards)
      ensures State() == s
    {
      list, config, nextElectionRound, maxRetries := s.list, s.config, s.nextRound, s.maxRetries;
    }

    /** Build and install a list; on an error the old one stays. */
    method InstallList(w: World, epoch: nat, pool: seq<Id>, sn: nat, round: nat) returns (ok: bool)
      modifies this`list
      ensures var r := old(State()).Install(w, epoch, pool, sn, round);
              ok == r.Ok? && State() == if r.Ok? then r.value else old(State())
    {
      match Generate(w, epoch, pool, sn, config, round) {
        case Ok(l) => list := Some(l); ok := true;
        case Err(_) => ok := false;
      }
    }

    method SetConfig(c: Config)
      modifies this`config
      ensures State() == old(State()).(config := c)
    {
      config := c;
    }

    method SetMaxRetries(n: nat)
      modifies this`maxRetries
      ensures State() == old(State()).(maxRetries := n)
    {
      maxRetries := n;
    }

    method BumpRetry()
      modifies this`nextElectionRound
      ensures State() == old(State()).(nextRound := if old(nextElectionRound) < U32_MAX then old(nextElectionRound) + 1 else old(nextElectionRound))
    {
      if nextElectionRound < U32_MAX {
        nextElectionRound := nextElectionRound + 1;
      }
    }

    method ResetRetry()
      modifies this`nextElectionRound
      ensures State() == old(State()).(nextRound := 0)
    {
      nextElectionRound := 0;
    }
  }
}
