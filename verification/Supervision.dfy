/** The admission host's loop over one owned process tree. The owner and the clock may answer anything. */
module Supervision {
  import opened Common

  const DEADLINE_SECONDS := 60.0
  const CLEANUP_SECONDS := 10.0
  const RETAIN_BYTES := 1024
  const CHUNK_BYTES := 4096
  const MAX_TURNS := 1200
  const CLEANUP_TURNS := 200

  datatype Reason = CALLER_CLOCK | DEADLINE | OUTPUT_OVERFLOW | TREE_UNPROVEN | LAUNCH_FAILED

  datatype Hold = TERMINATE | CLEANUP | READ | WAIT | ACCOUNTING | MEMBERS | EXIT | LAUNCH | CLOSE

  /** A call into the owner: an answer, an unproven tree, or any other failure. */
  datatype Called<+T> = Gave(value: T) | Tree | Failed

  // ---------------------------------------------------------------- the clock

  class Clock {
    var last: Option<real>
    var broken: bool

    constructor ()
      ensures last.None? && !broken
    {
      last, broken := None, false;
    }

    /** Gives the time only while every reading so far was a number no smaller than the one before it. */
    method Now() returns (now: Option<real>)
      modifies this
      ensures now.Some? ==> last == now && !broken && !old(broken) && (old(last).Some? ==> old(last).value <= now.value)
      ensures now.None? ==> broken && last == old(last)
      ensures old(broken) ==> now.None?
    {
      if broken {
        return None;
      }
      var reading: Reading := Answer();
      if !reading.At? || (last.Some? && reading.time < last.value) {
        broken := true;
        return None;
      }
      last := Some(reading.time);
      return last;
    }
  }

  // ---------------------------------------------------------------- the facts a supervision leaves

  class Facts {
    var reason: Option<Reason>
    var held: Option<Hold>
    var terminated: bool
    var overflow: bool
    var signaled: bool
    var eof: bool
    var exitCode: Option<int>
    var totalProcesses: Option<int>
    var turns: nat
    var retained: string
    ghost var output: string
    ghost var terminations: nat
    ghost var active: Option<int>
    ghost var members: Option<seq<int>>

    constructor ()
      ensures reason.None? && held.None? && !terminated && !overflow && !signaled && !eof && turns == 0
      ensures exitCode.None? && retained == "" && output == "" && terminations == 0 && active.None? && members.None?
    {
      reason, held, terminated, overflow, signaled, eof := None, None, false, false, false, false;
      exitCode, totalProcesses, turns, retained := None, None, 0, "";
      output, terminations, active, members := "", 0, None, None;
    }

    /** Exactly the first bytes of the output are kept, and dropping any is noticed. */
    ghost predicate Keeps()
      reads this
    {
      && retained == output[..Min(RETAIN_BYTES, |output|)]
      && (overflow <==> |output| > RETAIN_BYTES)
      && (overflow ==> reason.Some?)
    }

    /** Nothing of the tree is left: the launcher has ended, its pipe is at the end, the job is empty. */
    ghost predicate Gone()
      reads this
    {
      signaled && eof && active == Some(0) && members == Some([]) && exitCode.Some? && totalProcesses.Some?
    }

    /** A drained chunk. */
    method Retain(chunk: string)
      requires Keeps() && |chunk| <= CHUNK_BYTES
      modifies this`retained, this`overflow, this`reason, this`output
      ensures Keeps() && output == old(output) + chunk
      ensures reason == if old(reason).None? && overflow && !old(overflow) then Some(OUTPUT_OVERFLOW) else old(reason)
      ensures old(overflow) ==> overflow
    {
      ghost var before := output;
      output := output + chunk;
      if chunk != "" {
        var room := RETAIN_BYTES - |retained|;
        if |chunk| > room {
          retained := retained + chunk[..room];
          overflow := true;
          if reason.None? {
            reason := Some(OUTPUT_OVERFLOW);
          }
        } else {
          retained := retained + chunk;
        }
      }
    }
  }

  /** How one turn ended. */
  datatype Turn = Again | Returned

  /** The budget of turns left before the loop must have returned. */
  ghost predicate Budget(facts: Facts, cleanupTurns: int)
    reads facts
  {
    && facts.terminations == (if facts.terminated then 1 else 0)
    && (!facts.terminated ==> facts.turns <= MAX_TURNS)
    && (facts.terminated ==> facts.reason.Some? && 0 <= cleanupTurns <= CLEANUP_TURNS && facts.turns <= MAX_TURNS + cleanupTurns)
  }

  /** The top of a turn: time, the one termination and the bound on cleaning up. */
  method Begin(facts: Facts, clock: Clock, start: real, since: Option<real>, cleaned: int)
    returns (cleanupSince: Option<real>, cleanupTurns: int, turn: Turn)
    requires facts.held.None? && Budget(facts, cleaned) && facts.Keeps()
    modifies facts, clock
    ensures facts.turns == old(facts.turns) + 1 <= MAX_TURNS + CLEANUP_TURNS + 1
    ensures facts.Keeps() && facts.output == old(facts.output) && facts.signaled == old(facts.signaled)
    ensures facts.terminations <= 1 && (old(facts.reason).Some? ==> facts.reason == old(facts.reason))
    ensures turn.Again? ==> facts.held.None? && Budget(facts, cleanupTurns) && (facts.reason.Some? <==> facts.terminated)
    ensures turn.Returned? ==> facts.held == Some(TERMINATE) || facts.held == Some(CLEANUP)
    ensures facts.exitCode == old(facts.exitCode)
  {
    cleanupSince, cleanupTurns := since, cleaned;
    facts.turns := facts.turns + 1;
    var now := clock.Now();
    if facts.reason.None? {
      if now.None? {
        facts.reason := Some(CALLER_CLOCK);
      } else if now.value - start >= DEADLINE_SECONDS || facts.turns > MAX_TURNS {
        facts.reason := Some(DEADLINE);
      }
    }
    if facts.reason.Some? && !facts.terminated {
      facts.terminations := facts.terminations + 1;
      var status: Called<()> := Answer();
      if !status.Gave? {
        facts.held := Some(TERMINATE);
        return cleanupSince, cleanupTurns, Returned;
      }
      facts.terminated := true;
      cleanupSince, cleanupTurns := now, 0;
    }
    if facts.terminated {
      cleanupTurns := cleanupTurns + 1;
      if cleanupTurns > CLEANUP_TURNS
         || (now.Some? && cleanupSince.Some? && now.value - cleanupSince.value >= CLEANUP_SECONDS) {
        facts.held := Some(CLEANUP);
        return cleanupSince, cleanupTurns, Returned;
      }
    }
    return cleanupSince, cleanupTurns, Again;
  }

  /** Drain some output, then wait for the launcher or pause. */
  method Drain(facts: Facts) returns (turn: Turn)
    requires facts.held.None? && facts.Keeps()
    modifies facts`held, facts`retained, facts`overflow, facts`reason, facts`output, facts`signaled, facts`eof
    ensures facts.Keeps() && old(facts.output) <= facts.output
    ensures turn.Again? <==> facts.held.None?
    ensures old(facts.reason).Some? ==> facts.reason == old(facts.reason)
  {
    var chunk: Called<string> := Answer();
    if !chunk.Gave? || |chunk.value| > CHUNK_BYTES {
      facts.held := Some(READ);
      return Returned;
    }
    facts.Retain(chunk.value);
    if !facts.signaled {
      var ended: Called<bool> := Answer();
      if !ended.Gave? {
        facts.held := Some(WAIT);
        return Returned;
      }
      facts.signaled := ended.value;
    }
    facts.eof := Answer();
    return Again;
  }

  /** Is the whole tree gone? Its accounting, its members, its exit code, and the time it took. */
  method Check(facts: Facts, clock: Clock, start: real) returns (turn: Turn)
    requires facts.held.None? && facts.signaled && facts.eof
    modifies facts`reason, facts`held, facts`exitCode, facts`totalProcesses, facts`active, facts`members, clock
    ensures old(facts.reason).Some? ==> facts.reason == old(facts.reason)
    ensures turn.Again? ==> facts.held.None? && (facts.reason == old(facts.reason) || facts.reason == Some(TREE_UNPROVEN))
    ensures turn.Returned? && facts.held.None? ==> facts.Gone()
    ensures turn.Returned? && facts.held.None? && facts.reason.None? ==>
      && facts.totalProcesses.value in {1, 2}
      && clock.last.Some? && !clock.broken && clock.last.value - start < DEADLINE_SECONDS
  {
    var counts: Called<(int, int)> := Answer();
    if !counts.Gave? {
      if counts.Tree? {
        facts.reason := if facts.reason.Some? then facts.reason else Some(TREE_UNPROVEN);
        return Again;
      }
      facts.held := Some(ACCOUNTING);
      return Returned;
    }
    facts.active := Some(counts.value.1);
    if counts.value.1 != 0 {
      return Again;
    }
    var pids: Called<seq<int>> := Answer();
    if !pids.Gave? {
      if pids.Tree? {
        facts.reason := if facts.reason.Some? then facts.reason else Some(TREE_UNPROVEN);
        return Again;
      }
      facts.held := Some(MEMBERS);
      return Returned;
    }
    facts.members := Some(pids.value);
    if pids.value != [] {
      return Again;
    }
    var code: Called<int> := Answer();
    if !code.Gave? {
      facts.held := Some(EXIT);
      return Returned;
    }
    facts.exitCode, facts.totalProcesses := Some(code.value), Some(counts.value.0);
    if counts.value.0 != 1 && counts.value.0 != 2 && facts.reason.None? {
      facts.reason := Some(TREE_UNPROVEN);
    }
    var later := clock.Now();
    if facts.reason.None? {
      if later.None? {
        facts.reason := Some(CALLER_CLOCK);
      } else if later.value - start >= DEADLINE_SECONDS {
        facts.reason := Some(DEADLINE);
      }
    }
    return Returned;
  }

  /**
    Whatever the owner and the clock do, the loop ends within the turns of work and cleaning,
    terminates at most once and keeps the start of the output. Without a hold nothing of the
    tree is left; without a reason either, the run was whole, undisturbed and in time.
  */
  method Supervise(facts: Facts, clock: Clock, start: real)
    requires facts.reason.None? && facts.held.None? && !facts.terminated && !facts.overflow && !facts.signaled && !facts.eof
    requires facts.turns == 0 && facts.retained == "" && facts.output == "" && facts.terminations == 0
    modifies facts, clock
    ensures facts.turns <= MAX_TURNS + CLEANUP_TURNS + 1
    ensures facts.terminations <= 1
    ensures facts.retained == facts.output[..Min(RETAIN_BYTES, |facts.output|)]
    ensures facts.held.None? ==> facts.Gone() && facts.terminations == (if facts.terminated then 1 else 0)
    ensures facts.held.None? && facts.reason.None? ==>
      && !facts.terminated && !facts.overflow && facts.retained == facts.output
      && facts.totalProcesses.value in {1, 2}
      && clock.last.Some? && !clock.broken && clock.last.value - start < DEADLINE_SECONDS
  {
    var cleanupSince, cleanupTurns := None, 0;
    while true
      invariant facts.held.None? && Budget(facts, cleanupTurns) && facts.Keeps()
      decreases MAX_TURNS + CLEANUP_TURNS + 1 - facts.turns
    {
      var turn;
      cleanupSince, cleanupTurns, turn := Begin(facts, clock, start, cleanupSince, cleanupTurns);
      if turn.Returned? {
        return;
      }
      turn := Drain(facts);
      if turn.Returned? {
        return;
      }
      if facts.signaled && facts.eof {
        turn := Check(facts, clock, start);
        if turn.Returned? {
          return;
        }
      }
    }
  }

  // ---------------------------------------------------------------- the owner's life

  datatype OwnerState = NEW | READY | RUNNING | SETUP_FAILED | STATE_LAUNCH_FAILED | CLOSED | UNKNOWN

  /** The owner as its caller sees it: each call may fail and leave any state. */
  class Owner {
    var state: OwnerState
    ghost var starts: nat
    ghost var closes: nat

    constructor ()
      ensures starts == 0 && closes == 0
    {
      state, starts, closes := NEW, 0, 0;
    }

    method Setup() returns (ok: bool)
      modifies this`state
    {
      state := Answer();
      ok := Answer();
    }

    method Start() returns (ok: bool)
      modifies this`state, this`starts
      ensures starts == old(starts) + 1
    {
      starts := starts + 1;
      state := Answer();
      ok := Answer();
    }

    method Close()
      modifies this`state, this`closes
      ensures closes == old(closes) + 1
    {
      closes := closes + 1;
      state := Answer();
    }
  }

  datatype Lived = Done | Retained(hold: Hold)

  /**
    Setup, start, supervise, close. An owner is asked to close once, and only when nothing of its
    tree is unproven; it leaves the registry exactly when that ends in CLOSED. No child is started
    once the time for deciding is over.
  */
  method Lifecycle(owner: Owner, clock: Clock, start: real, facts: Facts, registry: set<Owner>)
    returns (live: set<Owner>, end: Lived, ghost startedAt: Option<real>)
    requires owner in registry && owner.starts == 0 && owner.closes == 0
    requires facts.reason.None? && facts.held.None? && !facts.terminated && !facts.overflow && !facts.signaled && !facts.eof
    requires facts.turns == 0 && facts.retained == "" && facts.output == "" && facts.terminations == 0
    modifies owner, clock, facts
    ensures live == if end.Done? then registry - {owner} else registry
    ensures end.Done? <==> owner.closes == 1 && owner.state.CLOSED?
    ensures owner.closes <= 1 && (facts.held.Some? ==> owner.closes == 0 && end == Retained(facts.held.value))
    ensures end.Done? && facts.reason.None? ==> facts.Gone() && owner.starts == 1
    ensures owner.starts <= 1 && (owner.starts == 1 <==> startedAt.Some?)
    ensures startedAt.Some? ==> startedAt.value - start < DEADLINE_SECONDS
    ensures owner.starts == 0 ==> facts.turns == 0 && facts.retained == ""
  {
    startedAt := None;
    var ready := owner.Setup();
    if !ready {
      if owner.state.SETUP_FAILED? {
        live, end := CloseUnstarted(owner, facts, LAUNCH_FAILED, registry);
        return;
      }
      return registry, Retained(LAUNCH), startedAt;
    }
    var now := clock.Now();
    if now.None? || now.value - start >= DEADLINE_SECONDS {
      if !owner.state.READY? {
        return registry, Retained(LAUNCH), startedAt;
      }
      live, end := CloseUnstarted(owner, facts, if now.None? then CALLER_CLOCK else DEADLINE, registry);
      return;
    }
    startedAt := now;
    var launched := owner.Start();
    if !launched {
      if owner.state.STATE_LAUNCH_FAILED? {
        live, end := CloseUnstarted(owner, facts, LAUNCH_FAILED, registry);
        return;
      }
      return registry, Retained(LAUNCH), startedAt;
    }
    Supervise(facts, clock, start);
    if facts.held.Some? {
      return registry, Retained(facts.held.value), startedAt;
    }
    owner.Close();
    if !owner.state.CLOSED? {
      return registry, Retained(CLOSE), startedAt;
    }
    return registry - {owner}, Done, startedAt;
  }

  /** No child exists: close and leave, or stay registered. */
  method CloseUnstarted(owner: Owner, facts: Facts, reason: Reason, registry: set<Owner>) returns (live: set<Owner>, end: Lived)
    modifies owner`state, owner`closes, facts`reason
    ensures owner.closes == old(owner.closes) + 1
    ensures end.Done? <==> owner.state.CLOSED?
    ensures end.Done? ==> facts.reason == Some(reason) && live == registry - {owner}
    ensures !end.Done? ==> end == Retained(LAUNCH) && live == registry
  {
    owner.Close();
    if !owner.state.CLOSED? {
      return registry, Retained(LAUNCH);
    }
    facts.reason := Some(reason);
    return registry - {owner}, Done;
  }
}
