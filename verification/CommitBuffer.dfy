/** The per-epoch buffer of commit candidates a round collects before selection. */
module CommitBuffer {
  import opened ByteStrings
  import opened Protocol

  /** A candidate waiting for selection, with its commit hash and whether we minted it. */
  datatype Buffered = Buffered(msg: Candidate, hash: Bytes, isLocal: bool)

  datatype BufferOutcome = Added | DuplicateHash | CapReached

  datatype CommitRound = CommitRound(epoch: nat, candidates: seq<Buffered>) {
    /** The round for `epoch`: a fresh one if another epoch's is still held. */
    function At(epoch: nat): (r: CommitRound) { if this.epoch == epoch then this else CommitRound(epoch, []) }

    predicate HasHash(hash: Bytes) { exists c | c in candidates :: c.hash == hash }

    predicate HasLocal() { exists c | c in candidates :: c.isLocal }

    function Admit(w: World, msg: Candidate, epoch: nat, cap: nat): (r: BufferOutcome) {
      if At(epoch).HasHash(w.commitHash(msg.commit)) then DuplicateHash
      else if |At(epoch).candidates| >= cap then CapReached
      else Added
    }

    function Add(w: World, msg: Candidate, isLocal: bool, epoch: nat, cap: nat): (r: CommitRound) {
      if Admit(w, msg, epoch, cap) != Added then At(epoch)
      else At(epoch).(candidates := At(epoch).candidates + [Buffered(msg, w.commitHash(msg.commit), isLocal)])
    }

    /** The candidates a round for `epoch` would rank. */
    function For(epoch: nat): (r: seq<Buffered>) { if this.epoch == epoch then candidates else [] }

    function Take(epoch: nat): (r: CommitRound) { if this.epoch == epoch then this.(candidates := []) else this }

    /** What `Add` keeps: every stored hash is its candidate's, and no two are equal. */
    ghost predicate Valid(w: World) {
      && (forall c :: c in candidates ==> c.hash == w.commitHash(c.msg.commit))
      && (forall i, j :: 0 <= i < j < |candidates| ==> candidates[i].hash != candidates[j].hash)
    }
  }

  /** Any history of additions keeps the stored hashes pairwise distinct. */
  lemma AddKeepsHashesDistinct(w: World, r: CommitRound, msg: Candidate, isLocal: bool, epoch: nat, cap: nat)
    requires r.Valid(w)
    ensures r.Add(w, msg, isLocal, epoch, cap).Valid(w)
    ensures |r.At(epoch).candidates| <= cap ==> |r.Add(w, msg, isLocal, epoch, cap).candidates| <= cap
    ensures r.At(epoch).candidates <= r.Add(w, msg, isLocal, epoch, cap).candidates
  {
    var base, grown := r.At(epoch), r.Add(w, msg, isLocal, epoch, cap);
    if r.Admit(w, msg, epoch, cap) == Added {
      forall c | c in grown.candidates ensures c.hash == w.commitHash(c.msg.commit) {
        assert c in base.candidates || c == Buffered(msg, w.commitHash(msg.commit), isLocal);
      }
      forall i, j | 0 <= i < j < |grown.candidates| ensures grown.candidates[i].hash != grown.candidates[j].hash {
        assert grown.candidates[i] in base.candidates;
      }
    }
  }

  /** Two buffered candidates with the same hash are the same entry. */
  lemma SameHashSameEntry(w: World, r: CommitRound, a: Buffered, b: Buffered)
    requires r.Valid(w) && a in r.candidates && b in r.candidates && a.hash == b.hash
    ensures a == b
  {
    var i :| 0 <= i < |r.candidates| && r.candidates[i] == a;
    var j :| 0 <= j < |r.candidates| && r.candidates[j] == b;
    assert !(i < j) && !(j < i);
  }

  class CommitRoundBuffer {
    var epoch: nat
    var candidates: seq<Buffered>

    function Value(): (r: CommitRound) reads this { CommitRound(epoch, candidates) }

    constructor ()
      ensures Value() == CommitRound(0, [])
    {
      epoch, candidates := 0, [];
    }

    /** Buffer a candidate; one for another epoch than the one held starts afresh. */
    method Add(w: World, msg: Candidate, isLocal: bool, epoch: nat, cap: nat) returns (r: BufferOutcome)
      modifies this
      ensures Value() == old(Value()).Add(w, msg, isLocal, epoch, cap)
      ensures r == old(Value()).Admit(w, msg, epoch, cap)
    {
      if this.epoch != epoch {
        this.epoch := epoch;
        candidates := [];
      }
      var hash := w.commitHash(msg.commit);
      if exists c | c in candidates :: c.hash == hash {
        return DuplicateHash;
      }
      if |candidates| >= cap {
        return CapReached;
      }
      candidates := candidates + [Buffered(msg, hash, isLocal)];
      return Added;
    }

    method Clear()
      modifies this`candidates
      ensures Value() == old(Value()).(candidates := [])
    {
      candidates := [];
    }

    /** Hand over the candidates of `epoch`; a stale round is left where it is. */
    method Take(epoch: nat) returns (taken: seq<Buffered>)
      modifies this`candidates
      ensures taken == old(Value()).For(epoch) && Value() == old(Value()).Take(epoch)
    {
      if this.epoch != epoch {
        return [];
      }
      taken := candidates;
      candidates := [];
    }
  }
}
