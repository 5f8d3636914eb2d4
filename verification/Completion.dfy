/** The conversation of each case can be held to its end: every prefix of its word is really reached. */
module Completion {
  import opened Common
  import opened Held
  import opened Pressure
  import HeldDecoder

  /** One page of memory in one thread. */
  function Small(): Vm { Vm(PAGE, PAGE, 0, 1) }

  function Blocks(c: Case): int { if c.Control? then 10 else 1 }

  function Why(c: Case): Failure { if c.Control? then NONE else MEMORY }

  function Report(c: Core): string { HeldText(c.kind, ExpectedLimits(c.case_), Small(), Blocks(c.case_), Why(c.case_), None) }

  function RoundCalls(c: Core): seq<Call> {
    var now, limits := At(c.last), ExpectedLimits(c.case_);
    [Pressure(now, Small(), limits), ReportHeld(now, Report(c)),
     SendRelease(now, Small(), limits, FALL, [1, c.pid]), Released(now, Small(), limits, 0)]
  }

  function LastCalls(c: Core): seq<Call> {
    [SendFinish(At(c.last)), Completed(At(c.last), true, true, 0, true, [1])]
  }

  function FirstCalls(c: Core, rows: seq<Row>): seq<Call> {
    var now, limits := At(c.last), ExpectedLimits(c.case_);
    [Ready(now, Small(), limits, c.pid, 1), AdmitImports(now, now, rows, Small(), limits)]
  }

  lemma {:induction false} RunJoined(c: Core, a: seq<Call>, b: seq<Call>)
    ensures Run(c, a + b) == Run(Run(c, a), b)
    ensures Commands(c, a + b) == Commands(c, a) + Commands(Run(c, a), b)
    decreases |a|
  {
    hide Do;
    if a == [] {
      assert a + b == b;
    } else {
      assert (a + b)[1..] == a[1..] + b;
      RunJoined(Do(c, a[0]).core, a[1..], b);
    }
  }

  /** Two calls in a row. */
  lemma RunTwo(c: Core, x: Call, y: Call)
    ensures Run(c, [x, y]) == Do(Do(c, x).core, y).core
    ensures Commands(c, [x, y]) == Sent(Do(c, x).reply) + Sent(Do(Do(c, x).core, y).reply)
  {
    hide Do;
    RunOne(Do(c, x).core, y);
    assert [x, y][1..] == [y];
  }

  lemma RunOne(c: Core, x: Call)
    ensures Run(c, [x]) == Do(c, x).core && Commands(c, [x]) == Sent(Do(c, x).reply)
  {
    hide Do;
    assert [x][1..] == [];
    assert Sent(Do(c, x).reply) + [] == Sent(Do(c, x).reply);
  }

  lemma FirstRuns(c: Core, rows: seq<Row>)
    requires Valid(c) && c.phase.READY? && c.digester(rows).Some? && (!c.case_.Control? ==> c.digester(rows).value == c.expected)
    ensures var d := Run(c, FirstCalls(c, rows));
      Commands(c, FirstCalls(c, rows)) == [GoImports] && d == c.(digest := c.digester(rows), phase := ADMITTED)
  {
    var now, limits := At(c.last), ExpectedLimits(c.case_);
    RunTwo(c, Ready(now, Small(), limits, c.pid, 1), AdmitImports(now, now, rows, Small(), limits));
    assert Do(c, Ready(now, Small(), limits, c.pid, 1)).core == c.(phase := IMPORTING);
    hide HexDigest;
  }

  lemma OnTime(c: Core)
    requires Valid(c)
    ensures Tick(c, At(c.last)) == Ok(c)
  {
  }

  lemma PressStep(c: Core)
    requires Valid(c) && c.phase.ADMITTED?
    ensures Do(c, RoundCalls(c)[0]) == Step(c.(preSize := PAGE, phase := PRESSURING), Ok(Send(Press(c.kind))))
  {
    OnTime(c);
    hide Valid, Tick, Report;
  }

  lemma ReportReads(c: Core)
    ensures HeldDecoder.DecodeHeld(Report(c))
      == Some(HeldDecoder.Reported(c.kind, ExpectedLimits(c.case_), Small(), Blocks(c.case_), Why(c.case_), None))
  {
    HeldDecoder.RoundTrip(c.kind, ExpectedLimits(c.case_), Small(), Blocks(c.case_), Why(c.case_), None);
  }

  lemma HeldStep(c: Core, d: Core)
    requires Valid(c) && d == c.(preSize := PAGE, phase := PRESSURING)
    ensures Do(d, RoundCalls(c)[1]) == Step(d.(phase := HELD, report := HeldDecoder.DecodeHeld(Report(c))), Ok(Verdict(Positive(c.case_))))
    ensures HeldDecoder.DecodeHeld(Report(c)).Some? && HeldDecoder.DecodeHeld(Report(c)).value.vm == Small()
  {
    OnTime(c);
    ReportReads(c);
    hide Valid, Report, HeldDecoder.DecodeHeld;
  }

  /** A core whose report of the small member was accepted. */
  ghost predicate Pressed(from: Core, c: Core) {
    && c == from.(preSize := PAGE, phase := HELD, report := c.report)
    && c.report.Some? && c.report.value.vm == Small()
  }

  lemma PressRuns(c: Core)
    requires Valid(c) && c.phase.ADMITTED?
    ensures Commands(c, RoundCalls(c)[..2]) == [Press(c.kind)] && Pressed(c, Run(c, RoundCalls(c)[..2]))
  {
    hide Valid, Do, Report, HeldDecoder.DecodeHeld, Run, Commands;
    PressStep(c);
    HeldStep(c, c.(preSize := PAGE, phase := PRESSURING));
    var x, y := RoundCalls(c)[0], RoundCalls(c)[1];
    RunTwo(c, x, y);
    assert RoundCalls(c)[..2] == [x, y];
  }

  lemma ReleaseStep(c: Core, from: Core)
    requires Valid(from) && Pressed(from, c)
    ensures Do(c, RoundCalls(from)[2]) == Step(c.(plateau := FALL, phase := RELEASE_SENT), Ok(Send(Release(c.kind))))
  {
    OnTime(from);
    hide Valid, Report;
  }

  lemma ReleasedStep(c: Core, from: Core)
    requires Valid(from) && c == from.(preSize := PAGE, phase := RELEASE_SENT, plateau := FALL, report := c.report)
    ensures var t := Do(c, RoundCalls(from)[3]);
      && t.reply == Ok(Complete(true))
      && t.core.phase == (if c.case_.Control? && c.kind.Private? then ADMITTED else FINISH_READY)
      && t.core.kind == (if c.case_.Control? then Shared else c.kind)
  {
    OnTime(from);
    hide Valid, Report;
  }

  lemma ReleaseRuns(c: Core, from: Core)
    requires Valid(from) && Pressed(from, c)
    ensures var calls := RoundCalls(from)[2..];
      && Commands(c, calls) == [Release(from.kind)]
      && Run(c, calls).phase == (if from.case_.Control? && from.kind.Private? then ADMITTED else FINISH_READY)
      && Run(c, calls).kind == (if from.case_.Control? then Shared else from.kind)
  {
    hide Valid, Do, Report, Run, Commands;
    ReleaseStep(c, from);
    ReleasedStep(c.(plateau := FALL, phase := RELEASE_SENT), from);
    var x, y := RoundCalls(from)[2], RoundCalls(from)[3];
    RunTwo(c, x, y);
    assert RoundCalls(from)[2..] == [x, y];
  }

  lemma RoundRuns(c: Core)
    requires Valid(c) && c.phase.ADMITTED?
    ensures var calls := RoundCalls(c);
      && Commands(c, calls) == [Press(c.kind), Release(c.kind)]
      && Run(c, calls).phase == (if c.case_.Control? && c.kind.Private? then ADMITTED else FINISH_READY)
      && Run(c, calls).kind == (if c.case_.Control? then Shared else c.kind)
  {
    assert |RoundCalls(c)| == 4;
    hide Run, Commands, RoundCalls, Valid, Pressed;
    PressRuns(c);
    ReleaseRuns(Run(c, RoundCalls(c)[..2]), c);
    Halves(c, RoundCalls(c));
  }

  lemma Halves(c: Core, calls: seq<Call>)
    requires |calls| >= 2
    ensures Run(c, calls) == Run(Run(c, calls[..2]), calls[2..])
    ensures Commands(c, calls) == Commands(c, calls[..2]) + Commands(Run(c, calls[..2]), calls[2..])
  {
    hide Run, Commands;
    RunJoined(c, calls[..2], calls[2..]);
    assert calls == calls[..2] + calls[2..];
  }

  lemma LastRuns(c: Core)
    requires Valid(c) && c.phase.FINISH_READY?
    ensures Commands(c, LastCalls(c)) == [Finish] && Run(c, LastCalls(c)).phase.DONE?
  {
    RunTwo(c, SendFinish(At(c.last)), Completed(At(c.last), true, true, 0, true, [1]));
    hide HexDigest, Shown;
  }

  /** The rounds of the case, however many it has, lead to the last command. */
  lemma {:induction false} RoundsRun(c: Core) returns (calls: seq<Call>)
    requires Valid(c) && c.phase.ADMITTED?
    ensures Run(c, calls).phase.FINISH_READY? && Valid(Run(c, calls)) && Run(c, calls).case_ == c.case_
    decreases c.case_.Control? && c.kind.Private?
  {
    RoundRuns(c);
    CommandsArePrefix(c, RoundCalls(c));
    hide Run, Commands, RoundCalls, Valid;
    calls := RoundCalls(c);
    if c.case_.Control? && c.kind.Private? {
      var more := RoundsRun(Run(c, calls));
      RunJoined(c, calls, more);
      calls := calls + more;
    }
  }

  /**
    From any fresh core and any inventory it can admit there are calls that return the whole word
    of its case and end in DONE; so the words returned are all prefixes, none of them out of reach.
  */
  lemma WordIsCompleted(c: Core, rows: seq<Row>) returns (calls: seq<Call>)
    requires Valid(c) && c.phase.READY? && c.digester(rows).Some? && (!c.case_.Control? ==> c.digester(rows).value == c.expected)
    ensures Commands(c, calls) == Word(c.case_) && Run(c, calls).phase.DONE?
  {
    FirstRuns(c, rows);
    CommandsArePrefix(c, FirstCalls(c, rows));
    var admitted := Run(c, FirstCalls(c, rows));
    var rounds := RoundsRun(admitted);
    var finished := Run(admitted, rounds);
    LastRuns(finished);
    calls := FirstCalls(c, rows) + (rounds + LastCalls(finished));
    RunJoined(c, FirstCalls(c, rows), rounds + LastCalls(finished));
    RunJoined(admitted, rounds, LastCalls(finished));
    CommandsArePrefix(c, calls);
    DoneIsWhole(c, Run(c, calls));
    hide Run, Commands, Valid, FirstCalls, LastCalls;
  }

  lemma DoneIsWhole(c: Core, d: Core)
    requires Valid(c) && c.phase.READY? && Valid(d) && d.phase.DONE? && d.case_ == c.case_
    ensures Word(c.case_)[..Position(c)] == [] && Word(c.case_)[..Position(d)] == Word(c.case_)
    ensures forall s: seq<Command> :: [] + s == s
  {
  }

  // ---------------------------------------------------------------- the failing outcome

  /** Only an aborted core may hold it. */
  predicate FailsAborted(c: Core) { c.outcome.Fail? ==> c.phase.ABORTED? }

  lemma FailNow(c: Core, call: Call)
    requires FailsAborted(c)
    ensures FailsAborted(Do(c, call).core)
    ensures Do(c, call).core.outcome.Fail? <==> Do(c, call).reply == Err(OBSERVED_FAIL)
  {
    hide HeldDecoder.DecodeHeld, Facts, Judge;
  }

  /** After any calls the outcome is a failure exactly when the very last one observed it. */
  lemma {:induction false} FailShownIff(c: Core, calls: seq<Call>, last: Call)
    requires FailsAborted(c)
    ensures Run(c, calls + [last]).outcome.Fail? <==> Do(Run(c, calls), last).reply == Err(OBSERVED_FAIL)
    decreases |calls|
  {
    hide Do, FailsAborted;
    if calls == [] {
      assert calls + [last] == [last];
      RunOne(c, last);
      FailNow(c, last);
    } else {
      FailNow(c, calls[0]);
      assert (calls + [last])[1..] == calls[1..] + [last];
      FailShownIff(Do(c, calls[0]).core, calls[1..], last);
    }
  }

  /** Its address space has gone past the limit of 128 MiB. */
  function Grown(): Vm { Vm(PAGE, AS_BYTES + 1, 0, 1) }

  /** Every fresh core under the limit can observe the failure with its first call, and loses it with any second. */
  lemma FailIsLost(case_: Case, expected: string, pid: int, deadline: real, digester: Digester, now: Reading, later: Call)
    requires Create(case_, expected, pid, deadline, digester, now).Ok? && !case_.Control?
    ensures var c := Create(case_, expected, pid, deadline, digester, now).value;
      var first := Ready(At(c.last), Grown(), ExpectedLimits(case_), pid, 1);
      && Do(c, first).reply == Err(OBSERVED_FAIL) && Run(c, [first]).outcome.Fail?
      && Run(c, [first, later]).outcome.Inconclusive? && Do(Run(c, [first]), later).reply == Err(STATE)
  {
    var c := Create(case_, expected, pid, deadline, digester, now).value;
    CreateIsValid(case_, expected, pid, deadline, digester, now);
    var first := Ready(At(c.last), Grown(), ExpectedLimits(case_), pid, 1);
    assert Facts(case_, Grown(), ExpectedLimits(case_)) == Some(OBSERVED_FAIL);
    assert Do(c, first) == Abort(c, OBSERVED_FAIL);
    hide Do, ExpectedMatches;
    RunOne(c, first);
    RunTwo(c, first, later);
    AbortedStays(Do(c, first).core, later);
  }
}
