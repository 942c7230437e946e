/** The four-state machine of a conversation, its phase timer, and the recovery round
    counter. */
module Lifecycle {
  import opened ByteStrings

  datatype Phase = Working | Freezing | Selection | Reelection

  datatype Mode = Normal | Recovery

  /** Durations and stop-lines, in the clock's unit. A zero `recoveryMaxRounds` retries
      forever. */
  datatype Policy = Policy(freezeDuration: nat, retryWindow: nat, commitBatchWindow: nat, autoCommitDelay: Option<nat>, recoveryMaxRounds: nat)

  function Elapsed(anchor: Option<nat>, now: nat, duration: nat): (r: bool) {
    match anchor case Some(t) => now >= t + duration case None => false
  }

  /** Where a conversation stands. `exhausted` counts the give-up announcements since
      recovery was last entered. */
  datatype Life = Life(
    phase: Phase,
    anchor: Option<nat>,
    mode: Mode,
    rounds: nat,
    recovered: bool,
    silence: Option<nat>,
    exhausted: nat)
  {
    predicate CanFreeze() { phase.Working? || phase.Reelection? }

    function StartWorking(): (r: Life) { this.(phase := Working, anchor := None) }

    function StartFreezing(now: nat): (r: Life) { if CanFreeze() then this.(phase := Freezing,
          anchor := Some(now)) else this }

    function StartReelection(): (r: Life) { this.(phase := Reelection, anchor := None) }

    function Reopen(now: nat): (r: Life) { if phase.Selection? then this.(phase := Freezing,
          anchor := Some(now)) else this }

    function EnterRecovery(): (r: Life) { this.(mode := Recovery, rounds := 0, exhausted := 0) }

    function ExitRecovery(): (r: Life) { this.(mode := Normal) }

    /** A recovery round without a commit: count it, then give up or try again. */
    function RetryOrExhaust(p: Policy, now: nat): (r: Life) {
      var counted := this.(rounds := rounds + 1);
      if p.recoveryMaxRounds != 0 && counted.rounds >= p.recoveryMaxRounds then
        counted.ExitRecovery().StartWorking().(exhausted := exhausted + 1)
      else counted.Reopen(now)
    }
  }

  /** A member starts out working. */
  function NewLife(): (r: Life) { Life(Working, None, Normal, 0, false, None, 0) }

  /** What holds whenever no step is under way; `left` is what the last round said. */
  predicate LifeOk(p: Policy, l: Life, idle: bool, left: bool) {
    && (l.mode.Recovery? ==> l.phase.Freezing?)
    && (l.phase.Freezing? ==> l.anchor.Some?)
    && (l.phase.Reelection? ==> l.anchor.None?)
    && (l.phase.Working? && l.anchor.Some? ==> !idle)
    && (l.phase.Selection? ==> left)
    && (p.recoveryMaxRounds > 0 ==> l.rounds <= p.recoveryMaxRounds)
    && (p.recoveryMaxRounds > 0 && l.mode.Recovery? ==> l.rounds < p.recoveryMaxRounds)
    && l.exhausted == if p.recoveryMaxRounds > 0 && l.rounds == p.recoveryMaxRounds then 1 else 0
  }

  class ConversationStateMachine {
    var state: Phase

    constructor ()
      ensures state == Working
    {
      state := Working;
    }

    method StartWorking()
      modifies this
      ensures state == Working
    {
      state := Working;
    }

    /** Allowed from `Working` and `Reelection` only. */
    method StartFreezing() returns (moved: bool)
      modifies this
      ensures moved == (old(state) == Working || old(state) == Reelection)
      ensures state == if moved then Freezing else old(state)
    {
      match state
      case Working => state := Freezing; moved := true;
      case Reelection => state := Freezing; moved := true;
      case _ => moved := false;
    }

    method StartSelection()
      modifies this
      ensures state == Selection
    {
      state := Selection;
    }

    method StartReelection()
      modifies this
      ensures state == Reelection
    {
      state := Reelection;
    }

    /** Back to `Freezing`, from `Selection` only. */
    method ReopenFreezing() returns (moved: bool)
      modifies this
      ensures moved == (old(state) == Selection)
      ensures state == if moved then Freezing else old(state)
    {
      moved := state == Selection;
      if moved {
        state := Freezing;
      }
    }
  }

  class PhaseTimer {
    var startedAt: Option<nat>

    constructor ()
      ensures startedAt.None?
    {
      startedAt := None;
    }

    method Start(now: nat)
      modifies this
      ensures startedAt == Some(now)
    {
      startedAt := Some(now);
    }

    method Clear()
      modifies this
      ensures startedAt.None?
    {
      startedAt := None;
    }
  }
}
