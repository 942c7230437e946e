/** The sync a joiner bootstraps from: what a member puts into it, when it is taken, and
    what whoever takes it then holds. */
module SyncMessages {
  import opened ByteStrings
  import opened Sorting
  import opened Protocol
  import opened MlsGroup
  import opened StewardLists
  import opened Queues
  import opened Nodes
  import PeerScoring

  datatype Sync = Sync(
    stewards: seq<Id>,
    electionEpoch: nat,
    retryRound: nat,
    snMin: nat,
    snMax: nat,
    allowSubset: bool,
    maxRetries: nat,
    unsettled: seq<Id>,
    defaultScore: int,
    threshold: int,
    scores: seq<(Id, int)>)
  {
    /** A zero on the wire is an unset field. */
    function SyncedDefault(): (d: int) { if defaultScore == 0 then PeerScoring.DEFAULT_PEER_SCORE else defaultScore }
  }

  function Unsettled(joinEpoch: map<Id, nat>, epoch: nat): Id -> bool { (m: Id) => !SettledIn(joinEpoch, epoch)(m) }

  /** The list in force, who was not settled when it was elected, and the scores away
      from the default. Nothing to send without a list. */
  function BuildSync(n: Node, diverged: seq<(Id, int)>): (r: Option<Sync>) {
    match n.stewards.list
    case None => None
    case Some(list) =>
      Some(Sync(list.members, list.electionEpoch, list.retryRound, list.config.snMin, list.config.snMax,
                n.stewards.config.allowSubset, n.stewards.maxRetries,
                Keep(Unsettled(n.s.queues.joinEpoch, list.electionEpoch), Members(n.s.mls.group.seats)),
                n.scoring.default, n.scoring.threshold, diverged))
  }

  function Without(unsettled: seq<Id>): Id -> bool { (m: Id) => m !in unsettled }

  /** The joiner's check: no election from the future, no unsettled strangers, a steward
      still present, and the list it would have computed itself. */
  function ValidateSync(w: World, sync: Sync, currentEpoch: nat, members: seq<Id>): (r: Result<bool, StewardError>) {
    if sync.electionEpoch > currentEpoch then Ok(false)
    else if exists u | u in sync.unsettled :: u !in members then Ok(false)
    else match NewConfig(sync.snMin, sync.snMax)
      case Err(e) => Err(e)
      case Ok(config) =>
        match Validate(w, sync.stewards, sync.electionEpoch, Keep(Without(sync.unsettled), members), config, sync.retryRound)
        case Err(e) => Err(e)
        case Ok(ordered) =>
          Ok(ordered && (exists s | s in sync.stewards :: s in members) && PeerScoring.ScoresValid(sync.SyncedDefault(), sync.threshold))
  }

  /** A first list is taken; a spent one gives way to a newer election only. */
  predicate Wanted(stewards: Stewards, sync: Sync, currentEpoch: nat) {
    stewards.list.None? || (stewards.Exhausted(currentEpoch) && sync.electionEpoch > stewards.list.value.electionEpoch)
  }

  function AdoptSync(w: World, stewards: Stewards, sync: Sync): (r: Result<Stewards, StewardError>) {
    match NewConfig(sync.snMin, sync.snMax)
    case Err(e) => Err(e)
    case Ok(config) =>
      var mine := stewards.(config := config.(allowSubset := sync.allowSubset));
      match mine.Install(w, sync.electionEpoch, sync.stewards, |sync.stewards|, sync.retryRound)
      case Err(e) => Err(e)
      case Ok(installed) => Ok(installed.(maxRetries := sync.maxRetries))
  }

  /** The sync is wanted and passes the check. */
  predicate Adopts(w: World, n: Node, sync: Sync) {
    && Wanted(n.stewards, sync, n.s.mls.group.epoch)
    && ValidateSync(w, sync, n.s.mls.group.epoch, Members(n.s.mls.group.seats)) == Ok(true)
  }

  /** The group's default and threshold first, then the scores away from it. Members not
      tracked so far are tracked from now on. */
  function AdoptScores(scoring: Scoring, sync: Sync): (r: Scoring) {
    scoring.(default := sync.SyncedDefault(), threshold := sync.threshold,
             scores := PeerScoring.Adopt(PeerScoring.AdoptDefault(scoring.scores, scoring.default, sync.SyncedDefault()), sync.scores))
  }

  /** What a sync from the wire does to a member. */
  function OnSync(w: World, n: Node, sync: Sync): (r: Node) {
    if !Adopts(w, n, sync) then n
    else match AdoptSync(w, n.stewards, sync)
      case Err(_) => n
      case Ok(stewards) => n.(stewards := stewards, scoring := AdoptScores(n.scoring, sync))
  }

  method OnConversationSync(w: World, stewardList: StewardListService, scoring: PeerScoring.PeerScoringService,
        sync: Sync, currentEpoch: nat, members: seq<Id>)
    returns (r: Result<bool, StewardError>)
    modifies stewardList, scoring
    ensures var before, scores := old(stewardList.State()), old(ScoringOf(scoring));
            var check := ValidateSync(w, sync, currentEpoch, members);
            if !Wanted(before, sync, currentEpoch) || check != Ok(true) then
              stewardList.State() == before && ScoringOf(scoring) == scores && r != Ok(true)
            else
              r == Ok(true) && AdoptSync(w, before, sync) == Ok(stewardList.State()) && ScoringOf(scoring) == AdoptScores(scores, sync)
  {
    if !Wanted(stewardList.State(), sync, currentEpoch) {
      return Ok(false);
    }
    r := ValidateSync(w, sync, currentEpoch, members);
    if r != Ok(true) {
      return;
    }
    AcceptedSyncInstalls(w, stewardList.State(), sync, currentEpoch, members);
    var config := NewConfig(sync.snMin, sync.snMax).value;
    stewardList.SetConfig(config.(allowSubset := sync.allowSubset));
    var ok := stewardList.InstallList(w, sync.electionEpoch, sync.stewards, |sync.stewards|, sync.retryRound);
    stewardList.SetMaxRetries(sync.maxRetries);
    scoring.SetThreshold(sync.threshold);
    scoring.SetDefaultScore(sync.SyncedDefault());
    var _ := scoring.ApplySnapshot(sync.scores);
  }

  /** A sync that passes the check never fails to install, and what is installed is the
      list that was sent. */
  lemma AcceptedSyncInstalls(w: World, stewards: Stewards, sync: Sync, currentEpoch: nat, members: seq<Id>)
    requires ValidateSync(w, sync, currentEpoch, members) == Ok(true)
    ensures var adopted := AdoptSync(w, stewards, sync);
            && adopted.Ok? && adopted.value.list.Some?
            && adopted.value.list.value.members == sync.stewards
            && adopted.value.list.value.electionEpoch == sync.electionEpoch && adopted.value.list.value.retryRound == sync.retryRound
  {
    var config := NewConfig(sync.snMin, sync.snMax).value;
    var pool := Keep(Without(sync.unsettled), members);
    ValidateAcceptsExactlyCanonical(w, sync.stewards, sync.electionEpoch, pool, config, sync.retryRound);
    var sn := config.ListSize(|pool|);
    ReinstallReproduces(w, sync.electionEpoch, pool, sn, config, sync.retryRound);
    GenerateIgnoresSubsetFlag(w, sync.electionEpoch, sync.stewards, |sync.stewards|, config, sync.allowSubset, sync.retryRound);
  }

  lemma GenerateIgnoresSubsetFlag(w: World, epoch: nat, pool: seq<Id>, sn: nat, config: Config, allowSubset: bool,
        round: nat)
    ensures var a, b := Generate(w, epoch, pool, sn, config, round), Generate(w, epoch, pool, sn, config.(allowSubset := allowSubset), round);
            a.Ok? ==> b == Ok(a.value.(config := config.(allowSubset := allowSubset)))
  {}

  /** The pool the joiner reconstructs is the sender's settled set of the election epoch. */
  lemma JoinerRebuildsPool(joinEpoch: map<Id, nat>, epoch: nat, members: seq<Id>)
    ensures Keep(Without(Keep(Unsettled(joinEpoch, epoch), members)), members) == Keep(SettledIn(joinEpoch, epoch), members)
    ensures forall u :: u in Keep(Unsettled(joinEpoch, epoch), members) ==> u in members
  {
    var unsettled := Keep(Unsettled(joinEpoch, epoch), members);
    forall m | m in members ensures Without(unsettled)(m) == SettledIn(joinEpoch, epoch)(m) {
      KeepMembers(Unsettled(joinEpoch, epoch), members, m);
    }
    KeepSame(Without(unsettled), SettledIn(joinEpoch, epoch), members);
    forall u | u in unsettled ensures u in members { KeepMembers(Unsettled(joinEpoch, epoch), members, u); }
  }

  lemma {:induction false} KeepSame<T>(p: T -> bool, q: T -> bool, s: seq<T>)
    requires forall x :: x in s ==> p(x) == q(x)
    ensures Keep(p, s) == Keep(q, s)
  {
    if s != [] {
      assert s[0] in s && forall x :: x in s[1..] ==> x in s;
      KeepSame(p, q, s[1..]);
    }
  }
}
