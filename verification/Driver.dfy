/**
  The driver of the 25 laboratory cases. Every port (link, clock, ids, ledger, session factory,
  threads, endpoint pairs) is a method whose result is arbitrary, so each statement about a run
  holds whatever the ports do.
*/
module Driver {
  import opened Common
  import C = Control
  import I = Interleaving
  import S = Sink
  import W = Watcher

  const JOBS := 19
  const T1 := 20
  const T3 := 22
  const TRUNCATED_JOB := 9
  const IDLE_S := 30.0
  const IDLE_MARGIN_S := 2.0

  datatype Verdict = NotRun | Pass | Fail

  /** Where a run stops early; `retain` keeps every reference reachable. */
  datatype Abort = Abort(kase: int, phase: Stage, reason: Why, retain: bool)

  datatype Stage = LOADING | INITIAL | CAPTURING | IN_LEDGER | IN_CASE | IN_CLEANUP

  datatype Why =
    | LOAD | INIT | CAPTURE | LEDGER | OUTPUT | SESSION | WATCHER | SINK | JOIN | EXPECTATION
    | EOF | TIMEOUT | IDLE_WINDOW | CONTROL | PHASE

  /** A slot whose creation failed half way: nobody knows what was allocated. */
  datatype Slot = PairSlot | SinkSlot | WatcherSlot

  datatype Outcome = ABORTED | RETAINED | UNKILLED | GUARD_FAILED

  datatype SessionState = NEW | HELD | CLOSED | OTHER

  datatype Reply = NoReply | ErrorReply(category: string, canContinue: bool) | OtherReply

  datatype QueryError = NoError | JobFailure | OtherError

  datatype Expected = ExpectError(reason: string) | ExpectResult(rows: int, bytes: int)

  /** What the run did, in order: calls on the control machine, numbers put on the wire, the applied stop request. */
  datatype Entry = Asked(call: C.Call, reply: C.Reply) | Wire(next: int) | StopRequested

  // ---------------------------------------------------------------- statements about a trace

  function Frames(trace: seq<Entry>): nat {
    if trace == [] then 0
    else
      var e := trace[|trace| - 1];
      Frames(trace[..|trace| - 1]) + (if e.Asked? && e.reply.Received? then 1 else 0)
  }

  /** Cases whose acknowledgement frame was accepted. */
  function AckedCases(trace: seq<Entry>): set<int> {
    if trace == [] then {}
    else
      var e := trace[|trace| - 1];
      AckedCases(trace[..|trace| - 1])
        + (if e.Asked? && e.reply.Received? && e.reply.control.kind == C.ACK then {e.reply.control.kase} else {})
  }

  function CallsOf(trace: seq<Entry>): seq<C.Call> {
    if trace == [] then []
    else
      var e := trace[|trace| - 1];
      CallsOf(trace[..|trace| - 1]) + (if e.Asked? then [e.call] else [])
  }

  /** The stop was requested while the query ran, and the machine took the STOP frame with its number. */
  predicate StopAccepted(trace: seq<Entry>) {
    StopRequested in trace &&
    exists e :: e in trace && e.Asked? && e.call.Join? && e.reply == C.Received(C.Control(C.STOP, C.T4_CASE, 46))
  }

  /**
    Every recorded reply is the machine's own, only host frames are ever refused, and every
    announced number is the next one the machine expects.
  */
  predicate Sound(trace: seq<Entry>) {
    trace == [] ||
    var e, before := trace[|trace| - 1], trace[..|trace| - 1];
    && Sound(before)
    && (e.Asked? ==> e.reply == C.Step(C.After(C.Init(), CallsOf(before)), e.call).1)
    && (e.Asked? && e.reply.Refusal? ==> e.call.Accept? || e.call.Join?)
    && (e.Wire? ==> e.next == Frames(before) + 1)
  }

  function WiresOf(trace: seq<Entry>): seq<int> {
    if trace == [] then []
    else
      var e := trace[|trace| - 1];
      WiresOf(trace[..|trace| - 1]) + (if e.Wire? then [e.next] else [])
  }

  function StopsOf(trace: seq<Entry>): nat {
    if trace == [] then 0 else StopsOf(trace[..|trace| - 1]) + if trace[|trace| - 1].StopRequested? then 1 else 0
  }

  /** A frame handed to the machine is one the link delivered. */
  predicate Heard(call: C.Call, delivered: set<seq<C.Byte>>) {
    && (call.Accept? ==> call.frame in delivered)
    && (call.Join? && call.watched.Some? ==> call.watched.value in delivered)
  }

  /** The trace against what passed through the ports: frames delivered, numbers announced, stops let through. */
  predicate Logged(trace: seq<Entry>, delivered: set<seq<C.Byte>>, announced: seq<int>, stops: nat) {
    && (forall i :: 0 <= i < |trace| && trace[i].Asked? ==> Heard(trace[i].call, delivered))
    && WiresOf(trace) == announced && StopsOf(trace) == stops
  }

  lemma LoggedMore(trace: seq<Entry>, e: Entry, delivered: set<seq<C.Byte>>, announced: seq<int>, stops: nat)
    requires Logged(trace, delivered, announced, stops) && (e.Asked? ==> Heard(e.call, delivered))
    ensures Logged(trace + [e], delivered, if e.Wire? then announced + [e.next] else announced, stops + if e.StopRequested? then 1 else 0)
  {
    hide Heard;
    assert (trace + [e])[..|trace|] == trace && WiresOf(trace) + [] == WiresOf(trace);
  }

  lemma LoggedLater(trace: seq<Entry>, delivered: set<seq<C.Byte>>, later: set<seq<C.Byte>>, announced: seq<int>, stops: nat)
    requires Logged(trace, delivered, announced, stops) && delivered <= later
    ensures Logged(trace, later, announced, stops)
  {
  }

  /** The frames of a sound trace are those its machine has accepted. */
  lemma {:induction false} SoundCounts(trace: seq<Entry>)
    requires Sound(trace)
    ensures C.After(C.Init(), CallsOf(trace)).accepted == Frames(trace)
    decreases |trace|
  {
    if trace != [] {
      var e, before := trace[|trace| - 1], trace[..|trace| - 1];
      SoundCounts(before);
      assert trace == before + [e];
      Appended(before, e);
      if e.Asked? {
        StepCounts(C.After(C.Init(), CallsOf(before)), e.call);
      }
    }
  }

  lemma StepCounts(m: C.Machine, call: C.Call)
    ensures C.Step(m, call).0.accepted == m.accepted + (if C.Step(m, call).1.Received? then 1 else 0)
  {
    hide C.DecodeFrame;
  }

  lemma Appended(trace: seq<Entry>, e: Entry)
    ensures Frames(trace + [e]) == Frames(trace) + (if e.Asked? && e.reply.Received? then 1 else 0)
    ensures AckedCases(trace + [e]) == AckedCases(trace)
      + (if e.Asked? && e.reply.Received? && e.reply.control.kind == C.ACK then {e.reply.control.kase} else {})
    ensures C.After(C.Init(), CallsOf(trace + [e]))
      == if e.Asked? then C.Step(C.After(C.Init(), CallsOf(trace)), e.call).0 else C.After(C.Init(), CallsOf(trace))
    ensures StopAccepted(trace) ==> StopAccepted(trace + [e])
    ensures StopRequested in trace && e.Asked? && e.call.Join? && e.reply == C.Received(C.Control(C.STOP, C.T4_CASE, 46))
      ==> StopAccepted(trace + [e])
    ensures Sound(trace + [e]) <==>
      && Sound(trace)
      && (e.Asked? ==> e.reply == C.Step(C.After(C.Init(), CallsOf(trace)), e.call).1)
      && (e.Asked? && e.reply.Refusal? ==> e.call.Accept? || e.call.Join?)
      && (e.Wire? ==> e.next == Frames(trace) + 1)
  {
    hide C.Step;
    assert (trace + [e])[..|trace|] == trace;
    if e.Asked? {
      assert (CallsOf(trace) + [e.call])[..|CallsOf(trace)|] == CallsOf(trace);
    } else {
      assert CallsOf(trace) + [] == CallsOf(trace);
    }
    if StopAccepted(trace) {
      var x :| x in trace && x.Asked? && x.call.Join? && x.reply == C.Received(C.Control(C.STOP, C.T4_CASE, 46));
      assert x in trace + [e];
    }
    assert e in trace + [e];
  }

  // ---------------------------------------------------------------- verdicts

  /** The cases that ran are the first `ran`. */
  predicate RanPrefix(verdicts: seq<Verdict>, ran: nat) {
    && |verdicts| == C.CASES && ran <= C.CASES
    && (forall i :: 0 <= i < ran ==> !verdicts[i].NotRun?)
    && (forall i :: ran <= i < C.CASES ==> verdicts[i].NotRun?)
  }

  /** Every PASS is acknowledged, except possibly that of the case now stopping. */
  predicate PassesAcked(verdicts: seq<Verdict>, trace: seq<Entry>, stopping: int) {
    && (forall i :: 0 <= i < |verdicts| && verdicts[i].Pass? && i + 1 != stopping ==> i + 1 in AckedCases(trace))
    && (|verdicts| == C.CASES && verdicts[C.T4_CASE - 1].Pass? ==> StopAccepted(trace))
  }

  function FailedCases(verdicts: seq<Verdict>, n: nat): seq<int>
    requires n <= |verdicts|
  {
    if n == 0 then []
    else FailedCases(verdicts, n - 1) + (if verdicts[n - 1].Fail? then [n] else [])
  }

  function Remove(items: seq<int>, x: int): seq<int> {
    if items == [] then []
    else if items[0] == x then items[1..]
    else [items[0]] + Remove(items[1..], x)
  }

  class Owner {
    var sessionToken: Option<int>
    var session: Option<int>
    var endpoints: seq<int>
    var handles: seq<int>
    var unknown: seq<Slot>

    constructor ()
      ensures Clean()
    {
      sessionToken, session, endpoints, handles, unknown := None, None, [], [], [];
    }

    predicate Uncertain()
      reads this
    {
      handles != [] || endpoints != [] || unknown != []
    }

    predicate Clean()
      reads this
    {
      sessionToken.None? && session.None? && !Uncertain()
    }
  }

  datatype DriverResult = DriverResult(outcome: Outcome, verdicts: seq<Verdict>, owner: Option<Owner>)

  /** The outside. The ghost fields count what really passed: nothing else in the driver writes them. */
  class Ports {
    ghost var delivered: set<seq<C.Byte>>
    ghost var announced: seq<int>
    ghost var stops: nat

    constructor () { }

    /** Counting starts with the run. */
    ghost method StartLogs()
      modifies this
      ensures delivered == {} && announced == [] && stops == 0
    {
      delivered, announced, stops := {}, [], 0;
    }

    method Clock() returns (t: real) { t := *; }
    method Write() returns (written: bool) { written := *; }
    method Succeeds() returns (ok: bool) { ok := *; }
    method SessionId() returns (id: Option<int>) { id := *; }
    method Allocate() returns (id: Option<int>) { id := *; }
    method State() returns (s: SessionState) { s := *; }
    method Query() returns (reply: Reply, error: QueryError) { reply := *; error := *; }
    method Summary() returns (rows: int, truncated: bool) { rows := *; truncated := *; }
    method Sink() returns (box: Option<S.SinkResult>) { box := *; }
    method ReadInit() returns (raw: bool) { raw := *; }

    /** An event with the number of the next host frame. */
    method Announce(next: int) returns (written: bool)
      modifies this`announced
      ensures announced == old(announced) + [next]
    {
      announced := announced + [next];
      written := Answer();
    }

    method ReadControl() returns (raw: Option<seq<C.Byte>>)
      modifies this`delivered
      ensures old(delivered) <= delivered && (raw.Some? ==> raw.value in delivered)
    {
      raw := Answer();
      if raw.Some? {
        delivered := delivered + {raw.value};
      }
    }

    /**
      The watcher beside the query, to the join, under some schedule of the two threads; what it
      left, if anything, and the state they ended in. `stops` counts what the call flag let through.
    */
    method Watched(next: int) returns (box: Option<W.Observation>, ghost end: I.State)
      modifies this`delivered, this`stops
      ensures exists actions :: I.Run(I.Init(next), actions) == Some(end)
      ensures end.main.Joined? && end.watch.Ended? && (box.Some? ==> box.value == end.watch.result)
      ensures stops == old(stops) + multiset(end.marks)[I.StopSent]
      ensures old(delivered) <= delivered
      ensures end.watch.result.raw.Some? ==> end.watch.result.raw.value in delivered
    {
      var frame := ReadControl();
      var s, actions, applied := I.Play(next, frame);
      end := s;
      stops := stops + applied;
      var left: bool := Answer();
      box := if left then Some(s.watch.result) else None;
    }
  }

  class Driver {
    const ports: Ports
    const owner: Owner
    const machine: C.ControlMachine
    const expected: seq<Expected>
    var verdicts: seq<Verdict>
    var current: int
    var ids: set<int>
    ghost var trace: seq<Entry>
    ghost var ran: nat

    constructor (ports: Ports, owner: Owner, expected: seq<Expected>)
      requires |expected| == JOBS && owner.Clean()
      modifies ports
      ensures this.owner == owner && this.ports == ports && fresh(machine) && this.expected == expected
      ensures Valid() && At(C.ReadyDue, 1) && Settled() && current == 0 && ran == 0 && trace == [] && machine.failed == []
    {
      this.ports, this.owner, this.expected := ports, owner, expected;
      machine := new C.ControlMachine();
      verdicts := seq(C.CASES, _ => NotRun);
      current, ids := 0, {};
      trace, ran := [], 0;
      new;
      ports.StartLogs();
    }

    /** The trace explains the machine, and verdicts form a prefix. */
    ghost predicate Valid()
      reads this, machine, ports
    {
      && |expected| == JOBS
      && Logged(trace, ports.delivered, ports.announced, ports.stops)
      && Sound(trace) && machine.accepted == Frames(trace)
      && machine.View() == C.After(C.Init(), CallsOf(trace))
      && RanPrefix(verdicts, ran)
      && (forall c :: c in machine.failed ==> c == C.T4_CASE)
    }

    ghost predicate At(phase: C.Phase, c: int)
      reads machine
    {
      !machine.aborted && machine.phase == phase && machine.current == c && machine.watcher == phase.Watch?
    }

    /** Between cases: every PASS so far is acknowledged and a NOSTOP has already failed case 23. */
    ghost predicate Settled()
      reads this, machine
    {
      && PassesAcked(verdicts, trace, 0) && |verdicts| == C.CASES
      && (C.T4_CASE in machine.failed ==> verdicts[C.T4_CASE - 1].Fail?)
    }

    /** What holds wherever a run stops early. */
    ghost predicate Stopped(a: Abort)
      reads this, owner, machine, ports
    {
      && Valid()
      && 0 <= a.kase <= C.CASES && (a.kase == ran || a.kase == ran + 1)
      && PassesAcked(verdicts, trace, a.kase)
      && (a.retain || (owner.session.Some? <==> owner.sessionToken.Some?))
    }

    // ------------------------------------------------------------ plumbing

    /** Writes one event; `next` is the sequence number it announces, if any. */
    method EmitEvent(next: Option<int>) returns (r: Result<(), Abort>)
      requires Valid() && (next.Some? ==> next.value == machine.accepted + 1)
      modifies this`trace, ports
      ensures Valid() && Frames(trace) == Frames(old(trace)) && AckedCases(trace) == AckedCases(old(trace))
      ensures StopAccepted(old(trace)) ==> StopAccepted(trace)
      ensures r.Err? ==> r.error == Abort(current, IN_CASE, OUTPUT, true)
    {
      hide C.Step, C.After, RanPrefix, Logged;
      var written;
      if next.Some? {
        Appended(trace, Wire(next.value));
        LoggedMore(trace, Wire(next.value), ports.delivered, ports.announced, ports.stops);
        written := ports.Announce(next.value);
        trace := trace + [Wire(next.value)];
      } else {
        written := ports.Write();
      }
      if !written {
        return Err(Abort(current, IN_CASE, OUTPUT, true));
      }
      return Ok(());
    }

    /** Notes a machine call that has just been made. */
    ghost method Record(call: C.Call, reply: C.Reply, before: C.Machine)
      requires reply.Refusal? ==> call.Accept? || call.Join?
      requires before == C.After(C.Init(), CallsOf(trace)) && Sound(trace)
      requires (machine.View(), reply) == C.Step(before, call)
      requires before.accepted == Frames(trace)
      requires Heard(call, ports.delivered) && Logged(trace, ports.delivered, ports.announced, ports.stops)
      modifies this`trace
      ensures Logged(trace, ports.delivered, ports.announced, ports.stops)
      ensures trace == old(trace) + [Asked(call, reply)]
      ensures Sound(trace) && Frames(trace) == machine.accepted
      ensures machine.View() == C.After(C.Init(), CallsOf(trace))
      ensures AckedCases(old(trace)) <= AckedCases(trace)
      ensures reply.Received? && reply.control.kind == C.ACK ==> reply.control.kase in AckedCases(trace)
      ensures StopAccepted(old(trace)) ==> StopAccepted(trace)
      ensures StopRequested in old(trace) && call.Join? && reply == C.Received(C.Control(C.STOP, C.T4_CASE, 46))
        ==> StopAccepted(trace)
    {
      StepCounts(before, call);
      hide C.Step, C.After, Logged;
      Appended(trace, Asked(call, reply));
      LoggedMore(trace, Asked(call, reply), ports.delivered, ports.announced, ports.stops);
      trace := trace + [Asked(call, reply)];
    }

    method LedgerCall(retain: bool) returns (r: Result<(), Abort>)
      ensures r.Err? ==> r.error.kase == current && (retain ==> r.error.retain)
    {
      var acquired := ports.Succeeds();
      if !acquired {
        return Err(Abort(current, IN_LEDGER, LEDGER, true));
      }
      var ok := ports.Succeeds();
      if !ok {
        return Err(Abort(current, IN_LEDGER, LEDGER, retain));
      }
      return Ok(());
    }

    method ReadFrame(cap: real, window: Option<real>) returns (r: Result<seq<C.Byte>, Abort>)
      modifies ports`delivered
      ensures old(ports.delivered) <= ports.delivered && (r.Ok? ==> r.value in ports.delivered)
      ensures r.Err? ==> r.error.kase == current && !r.error.retain
    {
      var now := ports.Clock();
      var latest := now + cap;
      var deadline := if window.Some? && window.value - 1.0 < latest then window.value - 1.0 else latest;
      if deadline <= now {
        return Err(Abort(current, IN_CASE, IDLE_WINDOW, false));
      }
      var raw := ports.ReadControl();
      var after := ports.Clock();
      var expired := after >= deadline;
      if raw.Some? && !expired {
        return Ok(raw.value);
      }
      var reason := if !expired then EOF else if window.Some? && deadline < latest then IDLE_WINDOW else TIMEOUT;
      return Err(Abort(current, IN_CASE, reason, false));
    }

    method Ready(c: int) returns (r: Result<(), Abort>)
      requires Valid() && At(C.ReadyDue, c) && Settled()
      modifies this`current, this`trace, machine, ports
      ensures Valid() && Settled() && current == c && machine.failed == old(machine.failed)
      ensures AckedCases(old(trace)) <= AckedCases(trace)
      ensures r.Ok? ==> At(C.GoDue, c)
      ensures r.Err? ==> r.error.kase == c && r.error.retain
    {
      hide C.After, RanPrefix, C.DecodeFrame, Sound, Frames, CallsOf, AckedCases, StopAccepted, Logged;
      current := c;
      ghost var before := machine.View();
      var reply := machine.Emit(C.READY, c);
      Record(C.Emit(C.READY, c), reply, before);
      var _ :- EmitEvent(Some(reply.next));
      return Ok(());
    }

    method Accept(cap: real, window: Option<real>) returns (r: Result<(), Abort>)
      requires Valid() && (At(C.GoDue, current) || At(C.AckDue, current))
      modifies this`trace, machine, ports
      ensures Valid() && AckedCases(old(trace)) <= AckedCases(trace)
      ensures StopAccepted(old(trace)) ==> StopAccepted(trace)
      ensures machine.failed == old(machine.failed)
      ensures r.Ok? && old(machine.phase).GoDue? ==> At(C.Running, current)
      ensures r.Ok? && old(machine.phase).AckDue? ==>
        current in AckedCases(trace) && if current == C.T5_CASE then At(C.SummaryDue, current) else At(C.ReadyDue, current + 1)
      ensures r.Err? ==> r.error.kase == current && !r.error.retain
    {
      hide C.After, RanPrefix, C.DecodeFrame, Sound, Frames, CallsOf, AckedCases, StopAccepted, Logged;
      ghost var heard := ports.delivered;
      var frame := ReadFrame(cap, window);
      LoggedLater(trace, heard, ports.delivered, ports.announced, ports.stops);
      var raw :- frame;
      ghost var before := machine.View();
      var reply := machine.Accept(raw);
      Record(C.Accept(raw), reply, before);
      if reply.Refusal? {
        return Err(Abort(current, IN_CASE, if reply.category.CONTROL? then CONTROL else PHASE, false));
      }
      return Ok(());
    }

    /** RESULT of the current case in the machine. */
    method EmitResult() returns (next: int)
      requires Valid() && 1 <= current <= C.T5_CASE && PassesAcked(verdicts, trace, 0)
      requires (At(C.Running, current) && !C.ArmedCase(current)) || (At(C.Joined, current) && current == C.T4_CASE)
      modifies this`trace, machine
      ensures Valid() && At(C.AckDue, current) && next == machine.accepted + 1 && machine.failed == old(machine.failed)
      ensures PassesAcked(verdicts, trace, 0) && (StopAccepted(old(trace)) ==> StopAccepted(trace))
    {
      hide C.After, C.DecodeFrame, Sound, Frames, CallsOf, AckedCases, StopAccepted, Logged, RanPrefix;
      ghost var before := machine.View();
      var reply := machine.Emit(C.RESULT, current);
      Record(C.Emit(C.RESULT, current), reply, before);
      next := reply.next;
    }

    /** RESULT of the current case, its verdict, then the host's acknowledgement. */
    method Report(verdict: Verdict, cap: real, window: Option<real>) returns (r: Result<(), Abort>)
      requires Valid() && !verdict.NotRun? && 1 <= current <= C.T5_CASE && ran == current - 1
      requires PassesAcked(verdicts, trace, 0)
      requires (At(C.Running, current) && !C.ArmedCase(current)) || (At(C.Joined, current) && current == C.T4_CASE)
      requires current == C.T4_CASE && verdict.Pass? ==> StopAccepted(trace)
      requires C.T4_CASE in machine.failed ==>
        if current == C.T4_CASE then verdict.Fail? else current > C.T4_CASE && verdicts[C.T4_CASE - 1].Fail?
      modifies this`trace, this`verdicts, this`ran, machine, ports
      ensures Valid() && current - 1 <= ran <= current && machine.failed == old(machine.failed)
      ensures r.Ok? ==> ran == current && Settled() && verdicts == old(verdicts)[current - 1 := verdict]
      ensures r.Ok? ==> if current == C.T5_CASE then At(C.SummaryDue, current) else At(C.ReadyDue, current + 1)
      ensures r.Err? ==> r.error.kase == current && PassesAcked(verdicts, trace, current)
    {
      hide C.After, C.Step, Sound, Frames, CallsOf, AckedCases, StopAccepted, Logged;
      var next := EmitResult();
      var _ :- EmitEvent(Some(next));
      verdicts := verdicts[current - 1 := verdict];
      ran := current;
      var _ :- Accept(cap, window);
      return Ok(());
    }

    // ------------------------------------------------------------ sessions

    ghost predicate Paired()
      reads owner
    {
      owner.session.Some? <==> owner.sessionToken.Some?
    }

    /** A live session and nothing else in flight. */
    ghost predicate Open()
      reads owner
    {
      owner.session.Some? && owner.sessionToken.Some? && !owner.Uncertain()
    }

    method OpenSession(c: int, idleSeconds: real) returns (r: Result<real, Abort>)
      requires owner.Clean()
      modifies this`current, this`ids, owner
      ensures current == c
      ensures r.Ok? ==> Open()
      ensures r.Err? ==> r.error.kase == c && (r.error.retain || Paired())
    {
      current := c;
      var id := ports.SessionId();
      if id.None? || id.value in ids {
        return Err(Abort(c, IN_CASE, SESSION, false));
      }
      ids := ids + {id.value};
      var _ :- LedgerCall(false);
      owner.sessionToken := Some(id.value);
      var session := ports.Allocate();
      if session.None? {
        var _ :- LedgerCall(true);
        return Err(Abort(c, IN_CASE, SESSION, true));
      }
      owner.session := session;
      var started := ports.Clock();
      var succeeded := ports.Succeeds();
      if !succeeded {
        var stop := OpenFailed(c);
        return Err(stop);
      }
      return Ok(started);
    }

    method OpenFailed(c: int) returns (a: Abort)
      requires current == c && Open()
      modifies owner
      ensures a.kase == c && (a.retain || Paired())
    {
      var state := ports.State();
      if state.NEW? {
        var kept := LedgerCall(true);
        if kept.Err? { return kept.error; }
        return Abort(c, IN_CASE, SESSION, true);
      }
      if state.HELD? {
        var closed := CloseSession(c, IN_CASE);
        if closed.Err? { return closed.error; }
      } else if !state.CLOSED? {
        return Abort(c, IN_CASE, SESSION, true);
      }
      owner.session := None;
      owner.sessionToken := None;
      return Abort(c, IN_CASE, SESSION, false);
    }

    method CloseSession(c: int, phase: Stage) returns (r: Result<(), Abort>)
      modifies owner`session, owner`sessionToken
      ensures r.Ok? ==> owner.session.None? && owner.sessionToken.None?
      ensures r.Err? ==> r.error.kase == c && r.error.retain
      ensures r.Err? ==> owner.session == old(owner.session) && owner.sessionToken == old(owner.sessionToken)
    {
      var settled := ports.Succeeds();
      if !settled {
        return Err(Abort(c, phase, SESSION, true));
      }
      owner.session := None;
      owner.sessionToken := None;
      return Ok(());
    }

    // ------------------------------------------------------------ owned threads and delivery

    method OwnedThread(name: Slot, reason: Why) returns (r: Result<int, Abort>)
      modifies owner`handles, owner`unknown
      ensures r.Ok? ==> owner.handles == old(owner.handles) + [r.value] && owner.unknown == old(owner.unknown)
      ensures r.Err? ==> r.error.kase == current && r.error.retain && owner.Uncertain()
    {
      var handle := ports.Allocate();
      if handle.None? {
        owner.unknown := owner.unknown + [name];
        return Err(Abort(current, IN_CASE, reason, true));
      }
      owner.handles := owner.handles + [handle.value];
      var started := ports.Succeeds();
      if !started {
        return Err(Abort(current, IN_CASE, reason, true));
      }
      return Ok(handle.value);
    }

    /** A join that is not positive keeps the handle; a positive one releases it and says whether it was in time. */
    method Joined(handle: int, deadline: real) returns (r: Result<bool, Abort>)
      modifies owner`handles
      ensures r.Ok? ==> owner.handles == Remove(old(owner.handles), handle)
      ensures r.Err? ==> r.error.kase == current && r.error.retain && owner.handles == old(owner.handles)
    {
      var ok := ports.Succeeds();
      if !ok {
        return Err(Abort(current, IN_CASE, JOIN, true));
      }
      var now := ports.Clock();
      owner.handles := Remove(owner.handles, handle);
      return Ok(now < deadline);
    }

    method CloseEndpoints(writer: int, reader: int) returns (r: Result<(), Abort>)
      requires owner.endpoints == [writer, reader]
      modifies owner`endpoints
      ensures r.Ok? ==> owner.endpoints == []
      ensures r.Err? ==> r.error.kase == current && r.error.retain
    {
      var closed := ports.Succeeds();
      if !closed { return Err(Abort(current, IN_CASE, SINK, true)); }
      owner.endpoints := Remove(owner.endpoints, writer);
      closed := ports.Succeeds();
      if !closed { return Err(Abort(current, IN_CASE, SINK, true)); }
      owner.endpoints := Remove(owner.endpoints, reader);
      return Ok(());
    }

    method Deliver(window: real) returns (r: Result<S.SinkResult, Abort>)
      requires Open()
      modifies owner`endpoints, owner`handles, owner`unknown
      ensures r.Ok? ==> Open()
      ensures r.Err? ==> r.error.kase == current
    {
      var writer := ports.Allocate();
      var reader := ports.Allocate();
      if writer.None? || reader.None? {
        owner.unknown := owner.unknown + [PairSlot];
        return Err(Abort(current, IN_CASE, SINK, true));
      }
      owner.endpoints := owner.endpoints + [writer.value, reader.value];
      var now := ports.Clock();
      var sinkEnd := if now + 33.0 < window - 1.0 then now + 33.0 else window - 1.0;
      var handle :- OwnedThread(SinkSlot, SINK);
      var sent := ports.Succeeds();
      var shut := ports.Succeeds();
      if !shut {
        return Err(Abort(current, IN_CASE, SINK, true));
      }
      var inBudget :- Joined(handle, sinkEnd);
      var _ :- CloseEndpoints(writer.value, reader.value);
      if !sent { return Err(Abort(current, IN_CASE, OUTPUT, false)); }
      if !inBudget { return Err(Abort(current, IN_CASE, JOIN, false)); }
      var box := ports.Sink();
      if box.None? { return Err(Abort(current, IN_CASE, SINK, false)); }
      return Ok(box.value);
    }

    // ------------------------------------------------------------ cases

    method Query(c: int) returns (reply: Reply, error: QueryError)
    {
      reply, error := ports.Query();
    }

    /** What one job may answer; anything else stops the run. */
    method ExpectJob(job: int, expected: Expected, reply: Reply, error: QueryError, window: real) returns (r: Result<(), Abort>)
      requires Open() && current == job
      modifies owner`endpoints, owner`handles, owner`unknown
      ensures r.Ok? ==> Open() && error.NoError?
      ensures r.Ok? && expected.ExpectError? ==> reply == ErrorReply(expected.reason, true)
      ensures r.Ok? && expected.ExpectResult? ==> reply.NoReply?
      ensures r.Err? ==> r.error.kase == job && (r.error.retain || owner.Uncertain() || Paired())
    {
      if !error.NoError? { return Err(Abort(job, IN_CASE, SESSION, false)); }
      if expected.ExpectError? {
        if reply != ErrorReply(expected.reason, true) { return Err(Abort(job, IN_CASE, EXPECTATION, false)); }
        return Ok(());
      }
      if !reply.NoReply? { return Err(Abort(job, IN_CASE, EXPECTATION, false)); }
      var sink :- Deliver(window);
      if sink.status.MISMATCH? { return Err(Abort(job, IN_CASE, EXPECTATION, false)); }
      if !sink.status.OK? || sink.count != expected.bytes { return Err(Abort(job, IN_CASE, SINK, false)); }
      var rows, truncated := ports.Summary();
      if !(0 <= rows <= 1000) || rows != expected.rows || truncated != (job == TRUNCATED_JOB) {
        return Err(Abort(job, IN_CASE, EXPECTATION, false));
      }
      return Ok(());
    }

    /** The first nineteen cases share one session. */
    method Persistent() returns (r: Result<(), Abort>)
      requires Valid() && Settled() && At(C.ReadyDue, 1) && ran == 0 && owner.Clean() && machine.failed == []
      modifies this, owner, machine, ports
      ensures r.Ok? ==> Valid() && Settled() && At(C.ReadyDue, JOBS + 1) && ran == JOBS && owner.Clean() && machine.failed == []
      ensures r.Err? ==> Stopped(r.error)
    {
      hide C.After, C.Step, Sound, Frames, CallsOf, AckedCases, StopAccepted, Logged;
      var started :- OpenSession(1, IDLE_S);
      var window := started + IDLE_S - IDLE_MARGIN_S;
      for job := 1 to JOBS + 1
        invariant Valid() && Settled() && At(C.ReadyDue, job) && ran == job - 1 && Open() && machine.failed == []
      {
        var _ :- Ready(job);
        var _ :- Accept(20.0, Some(window));
        started := ports.Clock();
        window := started + IDLE_S - IDLE_MARGIN_S;
        var reply, error := Query(job);
        var _ :- ExpectJob(job, expected[job - 1], reply, error, window);
        var _ :- Report(Pass, 20.0, Some(window));
      }
      var _ :- CloseSession(JOBS, IN_CLEANUP);
      return Ok(());
    }

    /** A case with a session of its own: open it, announce READY, take the GO. */
    method BeginCase(c: int, idle: real, windowed: bool) returns (r: Result<real, Abort>)
      requires Valid() && Settled() && At(C.ReadyDue, c) && ran == c - 1 && 1 <= c <= C.CASES && owner.Clean()
      modifies this`current, this`ids, this`trace, owner, machine, ports
      ensures r.Ok? ==> Valid() && Settled() && At(C.Running, c) && current == c && Open() && machine.failed == old(machine.failed)
      ensures r.Err? ==> Stopped(r.error)
    {
      hide C.After, C.Step, Sound, Frames, CallsOf, AckedCases, StopAccepted, RanPrefix, Logged;
      var started :- OpenSession(c, idle);
      var window := started + idle - IDLE_MARGIN_S;
      var _ :- Ready(c);
      var _ :- Accept(20.0, if windowed then Some(window) else None);
      return Ok(window);
    }

    method FatalReason(c: int, reply: Reply, error: QueryError) returns (r: Result<(), Abort>)
      ensures r.Ok? && c == T1 ==> error.NoError? && reply.ErrorReply? && !reply.canContinue
      ensures r.Ok? && c != T1 ==> reply.NoReply? && error.JobFailure?
      ensures r.Err? ==> r.error == Abort(c, IN_CASE, EXPECTATION, false)
    {
      var valid :=
        if c == T1 then
          error.NoError? && reply.ErrorReply? && !reply.canContinue && (reply.category == "CONNECTION" || reply.category == "INTERNAL")
        else
          reply.NoReply? && error.JobFailure?;
      if !valid { return Err(Abort(c, IN_CASE, EXPECTATION, false)); }
      return Ok(());
    }

    /** Cases 20 to 22: one session each, ending in a fatal reply. */
    method TerminalCase(c: int) returns (r: Result<(), Abort>)
      requires T1 <= c <= T3
      requires Valid() && Settled() && At(C.ReadyDue, c) && ran == c - 1 && owner.Clean() && machine.failed == []
      modifies this, owner, machine, ports
      ensures r.Ok? ==> Valid() && Settled() && At(C.ReadyDue, c + 1) && ran == c && owner.Clean() && machine.failed == []
      ensures r.Err? ==> Stopped(r.error)
    {
      hide C.After, C.Step, Sound, Frames, CallsOf, AckedCases, StopAccepted, Logged;
      var idle := if c == T3 then 1.0 else IDLE_S;
      var _ :- BeginCase(c, idle, c != T3);
      var reply, error := Query(c);
      var _ :- FatalReason(c, reply, error);
      var _ :- CloseSession(c, IN_CLEANUP);
      var _ :- Report(Pass, 90.0, None);
      return Ok(());
    }

    /** Publishing the second generation costs two ledger calls. */
    method Publish() returns (r: Result<(), Abort>)
      ensures r.Err? ==> r.error.kase == current
    {
      var _ :- LedgerCall(false);
      var _ :- LedgerCall(true);
      return Ok(());
    }

    /** ARMED, then the watcher is the only reader. */
    method ArmAndHandOff() returns (next: int)
      requires Valid() && At(C.Running, C.T4_CASE) && PassesAcked(verdicts, trace, 0)
      modifies this`trace, machine, ports
      ensures Valid() && At(C.Watch, C.T4_CASE) && PassesAcked(verdicts, trace, 0)
      ensures next == machine.accepted + 1 == 46 && machine.failed == old(machine.failed)
    {
      hide C.After, C.DecodeFrame, Sound, Frames, CallsOf, AckedCases, StopAccepted, RanPrefix, Logged;
      ghost var before := machine.View();
      var reply := machine.Emit(C.ARMED, C.T4_CASE);
      Record(C.Emit(C.ARMED, C.T4_CASE), reply, before);
      next := reply.next;
      ghost var armed := machine.View();
      var handed := machine.Handoff();
      Record(C.Handoff, handed, armed);
      C.AlwaysConsistent(CallsOf(trace));
    }

    /** Commits the watcher's frame; a NOSTOP marks the case failed in the machine. */
    method CommitWatch(o: Option<W.Observation>) returns (r: Result<(), Abort>)
      requires Valid() && At(C.Watch, C.T4_CASE) && PassesAcked(verdicts, trace, 0) && machine.accepted == 45
      requires machine.failed == [] && current == C.T4_CASE
      requires o.Some? && o.value.raw.Some? ==> o.value.raw.value in ports.delivered
      requires o.Some? && o.value.stopApplied ==>
        StopRequested in trace && o.value.raw.Some? && I.Matches(o.value.raw.value, 46)
      modifies this`trace, machine
      ensures Valid() && PassesAcked(verdicts, trace, 0)
      ensures r.Ok? ==> At(C.Joined, C.T4_CASE)
      ensures r.Ok? && o.Some? && o.value.stopApplied ==> StopAccepted(trace) && machine.failed == []
      ensures r.Err? ==> r.error.kase == C.T4_CASE && !r.error.retain
    {
      hide C.After, C.DecodeFrame, Sound, Frames, CallsOf, AckedCases, StopAccepted, RanPrefix, Logged;
      var raw := if o.Some? then o.value.raw else None;
      ghost var before := machine.View();
      var reply := machine.Join(raw);
      Record(C.Join(raw), reply, before);
      if reply.Refusal? {
        return Err(Abort(C.T4_CASE, IN_CASE, if reply.category.CONTROL? then CONTROL else PHASE, false));
      }
      return Ok(());
    }

    /** Joins the watcher: a stop is noted exactly when the call flag let a request through. */
    method JoinWatcher(next: int) returns (o: Option<W.Observation>)
      requires Valid() && PassesAcked(verdicts, trace, 0)
      modifies this`trace, ports
      ensures Valid() && PassesAcked(verdicts, trace, 0)
      ensures o.Some? && o.value.raw.Some? ==> o.value.raw.value in ports.delivered
      ensures o.Some? && o.value.stopApplied ==>
        StopRequested in trace && o.value.raw.Some? && I.Matches(o.value.raw.value, next)
    {
      hide C.After, C.Step, C.DecodeFrame, Sound, Frames, CallsOf, AckedCases, StopAccepted, RanPrefix, Logged, I.Run, I.Matches;
      ghost var heard := ports.delivered;
      ghost var end;
      o, end := ports.Watched(next);
      ghost var actions :| I.Run(I.Init(next), actions) == Some(end);
      I.JoinedObservation(next, actions);
      I.StopOnlyInWindow(next, actions);
      LoggedLater(trace, heard, ports.delivered, ports.announced, old(ports.stops));
      if I.StopSent in end.marks {
        Appended(trace, StopRequested);
        LoggedMore(trace, StopRequested, ports.delivered, ports.announced, old(ports.stops));
        trace := trace + [StopRequested];
      }
    }

    /** The armed window: hand over, run the heavy query, join the watcher and commit its frame. */
    method WatchWindow() returns (r: Result<(bool, Reply, QueryError), Abort>)
      requires Valid() && PassesAcked(verdicts, trace, 0) && At(C.Running, C.T4_CASE)
      requires current == C.T4_CASE && machine.failed == [] && Open()
      modifies this`trace, machine, owner`handles, owner`unknown, ports
      ensures Valid() && PassesAcked(verdicts, trace, 0)
      ensures r.Ok? ==> At(C.Joined, C.T4_CASE) && Open() && (r.value.0 ==> StopAccepted(trace) && machine.failed == [])
      ensures r.Err? ==> r.error.kase == C.T4_CASE
    {
      hide C.After, C.Step, C.DecodeFrame, Sound, Frames, CallsOf, AckedCases, StopAccepted, RanPrefix, Logged;
      var next := ArmAndHandOff();
      var now := ports.Clock();
      var deadline := now + 43.0;
      var handle :- OwnedThread(WatcherSlot, WATCHER);
      var _ :- EmitEvent(Some(next));
      var reply, error := Query(C.T4_CASE);
      var inBudget :- Joined(handle, deadline);
      if !inBudget { return Err(Abort(C.T4_CASE, IN_CASE, JOIN, false)); }
      var observation := JoinWatcher(next);
      var _ :- CommitWatch(observation);
      return Ok((observation.Some? && observation.value.stopApplied, reply, error));
    }

    /** Case 23: PASS only if the watcher really requested the stop and the machine accepted the STOP frame. */
    method T4() returns (r: Result<(), Abort>)
      requires Valid() && Settled() && At(C.ReadyDue, C.T4_CASE) && ran == T3 && owner.Clean() && machine.failed == []
      modifies this, owner, machine, ports
      ensures r.Ok? ==> Valid() && Settled() && At(C.ReadyDue, C.T5_CASE) && ran == C.T4_CASE && owner.Clean()
      ensures r.Err? ==> Stopped(r.error)
    {
      hide C.After, C.Step, C.DecodeFrame, Sound, Frames, CallsOf, AckedCases, StopAccepted, RanPrefix, Logged;
      current := C.T4_CASE;
      var _ :- Publish();
      var _ :- BeginCase(C.T4_CASE, IDLE_S, true);
      var watched :- WatchWindow();
      var _ :- FatalReason(C.T4_CASE, watched.1, watched.2);
      var _ :- CloseSession(C.T4_CASE, IN_CLEANUP);
      var _ :- Report(if watched.0 then Pass else Fail, 90.0, None);
      return Ok(());
    }

    /** Case 24 is pending by design and always fails. */
    method T5() returns (r: Result<(), Abort>)
      requires Valid() && Settled() && At(C.ReadyDue, C.T5_CASE) && ran == C.T4_CASE && owner.Clean()
      modifies this, machine, ports
      ensures r.Ok? ==> Valid() && Settled() && At(C.SummaryDue, C.T5_CASE) && ran == C.T5_CASE && current == C.T5_CASE
      ensures r.Ok? ==> verdicts[C.T5_CASE - 1].Fail?
      ensures r.Err? ==> Stopped(r.error)
    {
      hide C.After, C.Step, Sound, Frames, CallsOf, AckedCases, StopAccepted, Logged;
      var _ :- Ready(C.T5_CASE);
      var _ :- Accept(20.0, None);
      var _ :- Report(Fail, 20.0, None);
      return Ok(());
    }

    /** The machine's own failed set adds nothing to the FAIL verdicts that SUMMARY lists. */
    method Summarize() returns (r: Result<seq<int>, Abort>)
      requires Valid() && Settled() && At(C.SummaryDue, C.T5_CASE) && ran == C.T5_CASE && current == C.T5_CASE && owner.Clean()
      modifies this`trace, machine, ports
      ensures r.Ok? ==> Valid() && Settled() && At(C.ReadyDue, C.T6_CASE)
      ensures r.Ok? ==> r.value == FailedCases(verdicts, C.T5_CASE)
      ensures r.Err? ==> Stopped(r.error)
    {
      hide C.After, C.DecodeFrame, Sound, Frames, CallsOf, AckedCases, StopAccepted, Logged;
      ghost var before := machine.View();
      var reply := machine.Summary();
      Record(C.Summary, reply, before);
      var cases := [];
      for c := 1 to C.T5_CASE + 1
        invariant cases == FailedCases(verdicts, c - 1)
      {
        if verdicts[c - 1].Fail? || c in reply.failed {
          cases := cases + [c];
        }
      }
      var _ :- EmitEvent(None);
      return Ok(cases);
    }

    /** ARMED of the last case leaves the machine terminal. */
    method ArmLast() returns (next: int)
      requires Valid() && At(C.Running, C.T6_CASE) && PassesAcked(verdicts, trace, 0)
      modifies this`trace, machine, ports
      ensures Valid() && At(C.Terminal, C.T6_CASE) && PassesAcked(verdicts, trace, 0)
      ensures next == machine.accepted + 1
    {
      hide C.After, C.DecodeFrame, Sound, Frames, CallsOf, AckedCases, StopAccepted, RanPrefix, Logged;
      ghost var before := machine.View();
      var reply := machine.Emit(C.ARMED, C.T6_CASE);
      Record(C.Emit(C.ARMED, C.T6_CASE), reply, before);
      next := reply.next;
    }

    /** A frame after the last ARMED is always refused. */
    method RefuseLate(raw: seq<C.Byte>)
      requires Valid() && At(C.Terminal, C.T6_CASE) && PassesAcked(verdicts, trace, 0) && raw in ports.delivered
      modifies this`trace, machine
      ensures Valid() && machine.aborted && PassesAcked(verdicts, trace, 0)
    {
      hide C.After, C.DecodeFrame, Sound, Frames, CallsOf, AckedCases, StopAccepted, RanPrefix, Logged;
      ghost var before := machine.View();
      var reply := machine.Accept(raw);
      Record(C.Accept(raw), reply, before);
    }

    /** The live window: Ok only when nobody sent anything and the window really passed. */
    method LiveWindow(window: real) returns (r: Result<(), Abort>)
      requires Valid() && PassesAcked(verdicts, trace, 0) && At(C.Running, C.T6_CASE) && current == C.T6_CASE
      modifies this`trace, machine, ports
      ensures Valid() && PassesAcked(verdicts, trace, 0)
      ensures r.Err? ==> r.error.kase == C.T6_CASE
    {
      hide C.After, C.Step, Sound, Frames, CallsOf, AckedCases, StopAccepted, RanPrefix, Logged;
      var next := ArmLast();
      var now := ports.Clock();
      var live := ((window - now) * 1000.0).Floor;
      if !(1000 <= live <= 30000) { return Err(Abort(C.T6_CASE, IN_CASE, IDLE_WINDOW, false)); }
      var _ :- EmitEvent(Some(next));
      ghost var heard := ports.delivered;
      var raw := ports.ReadControl();
      LoggedLater(trace, heard, ports.delivered, ports.announced, ports.stops);
      if raw.Some? {
        RefuseLate(raw.value);
        return Err(Abort(C.T6_CASE, IN_CASE, PHASE, false));
      }
      now := ports.Clock();
      if now < window { return Err(Abort(C.T6_CASE, IN_CASE, EOF, false)); }
      return Ok(());
    }

    /** Marks the case a run stops in; everything before it keeps its verdict. */
    method MarkFailed(c: int)
      requires Valid() && 1 <= c <= C.CASES && (c == ran || c == ran + 1) && PassesAcked(verdicts, trace, c)
      modifies this`verdicts, this`ran
      ensures Valid() && ran == c && PassesAcked(verdicts, trace, 0)
      ensures verdicts == old(verdicts)[c - 1 := Fail]
    {
      hide C.After, C.Step, Sound, Frames, CallsOf, AckedCases, StopAccepted, Logged;
      verdicts := verdicts[c - 1 := Fail];
      ran := c;
    }

    /** Case 25: the worker must be killed from outside in the live window; surviving it is a failure. */
    method T6() returns (r: Result<DriverResult, Abort>)
      requires Valid() && Settled() && At(C.ReadyDue, C.T6_CASE) && ran == C.T5_CASE && owner.Clean()
      modifies this, owner, machine, ports
      ensures r.Ok? ==> Valid() && PassesAcked(verdicts, trace, 0) && ran == C.CASES && owner.Clean()
      ensures r.Ok? ==> r.value == DriverResult(UNKILLED, verdicts, None)
      ensures r.Err? ==> Stopped(r.error)
    {
      hide C.After, C.Step, Sound, Frames, CallsOf, AckedCases, StopAccepted, RanPrefix, Logged;
      var window :- BeginCase(C.T6_CASE, IDLE_S, true);
      var _ :- LiveWindow(window);
      MarkFailed(C.T6_CASE);
      var _ :- CloseSession(C.T6_CASE, IN_CLEANUP);
      var _ := ports.Write();
      return Ok(DriverResult(UNKILLED, verdicts, None));
    }

    // ------------------------------------------------------------ terminal paths

    method Stop(stop: Abort) returns (r: DriverResult)
      requires Stopped(stop)
      modifies this`verdicts, this`ran, owner
      ensures Valid() && PassesAcked(verdicts, trace, 0)
      ensures r.verdicts == verdicts && (r.outcome.ABORTED? || r.outcome.RETAINED?)
      ensures r.outcome.ABORTED? ==> owner.Clean() && r.owner.None?
      ensures r.outcome.RETAINED? ==> r.owner == Some(owner)
    {
      hide C.After, C.Step, Sound, Frames, CallsOf, AckedCases, StopAccepted, RanPrefix, Logged;
      if 1 <= stop.kase <= C.CASES {
        MarkFailed(stop.kase);
      }
      var retained := stop.retain || owner.Uncertain();
      if !retained && owner.session.Some? {
        var state := ports.State();
        if state.NEW? {
          retained := true;
        } else {
          var closed := CloseSession(stop.kase, IN_CLEANUP);
          if closed.Err? { retained := true; }
        }
      }
      var written := ports.Write();
      if !written { retained := true; }
      var _ := ports.Write();
      r := DriverResult(if retained then RETAINED else ABORTED, verdicts, if retained then Some(owner) else None);
    }

    method Start() returns (r: Result<(), Abort>)
      requires current == 0
      ensures r.Err? ==> r.error.kase == 0
    {
      var loaded := ports.Succeeds();
      if !loaded { return Err(Abort(0, LOADING, LOAD, false)); }
      var written := ports.Write();
      if !written { return Err(Abort(0, IN_CASE, OUTPUT, true)); }
      var begin := ports.Clock();
      var raw := ports.ReadInit();
      var after := ports.Clock();
      if !raw || after >= begin + 10.0 {
        return Err(Abort(0, INITIAL, if after >= begin + 10.0 then TIMEOUT else EOF, false));
      }
      var decoded := ports.Succeeds();
      if !decoded { return Err(Abort(0, INITIAL, INIT, false)); }
      var captured := ports.Succeeds();
      if !captured { return Err(Abort(0, CAPTURING, CAPTURE, false)); }
      var ledger := ports.Succeeds();
      if !ledger { return Err(Abort(0, IN_LEDGER, LEDGER, false)); }
      var _ :- Publish();
      written := ports.Write();
      if !written { return Err(Abort(0, IN_CASE, OUTPUT, true)); }
      return Ok(());
    }

    method Steps() returns (r: Result<DriverResult, Abort>)
      requires Valid() && Settled() && At(C.ReadyDue, 1) && ran == 0 && current == 0 && owner.Clean() && machine.failed == []
      modifies this, owner, machine, ports
      ensures r.Ok? ==> Valid() && PassesAcked(verdicts, trace, 0) && ran == C.CASES && owner.Clean()
      ensures r.Ok? ==> r.value == DriverResult(UNKILLED, verdicts, None)
      ensures r.Err? ==> Stopped(r.error)
    {
      hide C.After, C.Step, Sound, Frames, CallsOf, AckedCases, StopAccepted, PassesAcked, Logged;
      var _ :- Start();
      var _ :- Persistent();
      for c := T1 to T3 + 1
        invariant Valid() && Settled() && At(C.ReadyDue, c) && ran == c - 1 && owner.Clean() && machine.failed == []
      {
        var _ :- TerminalCase(c);
      }
      var _ :- T4();
      var _ :- T5();
      var _ :- Summarize();
      r := T6();
    }

    /**
      Main result. Whatever the ports do: the machine refuses host frames only, every number on the
      wire is the next one expected, verdicts form a prefix, a PASS is acknowledged, a PASS of case 23
      means an applied and accepted STOP, and nothing is lost unless the owner is handed back.
    */
    method Execute() returns (r: DriverResult)
      requires Valid() && Settled() && At(C.ReadyDue, 1) && ran == 0 && current == 0 && owner.Clean() && machine.failed == []
      modifies this, owner, machine, ports
      ensures Sound(trace) && machine.View() == C.After(C.Init(), CallsOf(trace)) && machine.accepted == Frames(trace)
      ensures Logged(trace, ports.delivered, ports.announced, ports.stops)
      ensures r.verdicts == verdicts && RanPrefix(verdicts, ran) && PassesAcked(verdicts, trace, 0)
      ensures r.outcome.UNKILLED? || r.outcome.ABORTED? || r.outcome.RETAINED?
      ensures r.outcome.UNKILLED? ==> ran == C.CASES
      ensures !r.outcome.RETAINED? ==> owner.Clean() && r.owner.None?
      ensures r.outcome.RETAINED? ==> r.owner == Some(owner)
    {
      hide C.After, C.Step, Sound, Frames, CallsOf, AckedCases, StopAccepted, Logged;
      var done := Steps();
      if done.Ok? {
        r := done.value;
      } else {
        r := Stop(done.error);
      }
    }
  }

  /**
    The guard comes first: a refused guard leaves no load, read or write. Otherwise the trace is a
    conversation of the machine with what the ports delivered and were given.
  */
  method Run(ports: Ports, expected: seq<Expected>) returns (r: DriverResult, owner: Owner, ghost trace: seq<Entry>)
    requires |expected| == JOBS
    modifies ports
    ensures Sound(trace) && fresh(owner)
    ensures Logged(trace, ports.delivered, ports.announced, ports.stops)
    ensures C.After(C.Init(), CallsOf(trace)).accepted == Frames(trace)
    ensures exists ran: nat :: RanPrefix(r.verdicts, ran)
    ensures PassesAcked(r.verdicts, trace, 0)
    ensures r.outcome.GUARD_FAILED? ==> trace == [] && RanPrefix(r.verdicts, 0)
    ensures !r.outcome.RETAINED? ==> owner.Clean() && r.owner.None?
    ensures r.outcome.RETAINED? ==> r.owner == Some(owner)
  {
    owner := new Owner();
    var guarded := ports.Succeeds();
    if !guarded {
      ports.StartLogs();
      trace := [];
      r := DriverResult(GUARD_FAILED, seq(C.CASES, _ => NotRun), None);
      assert RanPrefix(r.verdicts, 0);
      return;
    }
    var driver := new Driver(ports, owner, expected);
    r := driver.Execute();
    trace := driver.trace;
    assert RanPrefix(r.verdicts, driver.ran);
  }
}
