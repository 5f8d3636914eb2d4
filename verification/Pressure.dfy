/**
  The parent's protocol core. Clock readings, facts about the member and its report all come in
  as arguments; a call that goes through may hand back the next command, one that does not ends it.
*/
module Pressure {
  import opened Common
  import opened Held
  import HeldDecoder

  const AS_BYTES := 128 * MIB
  const READY_MAX := 124 * MIB
  const FALL := 32 * MIB
  const BOUND := 1125899906842624.0
  const MAX_SAMPLES := 5

  datatype Case = Control | OnlyPrivate | OnlyShared

  datatype Command = GoImports | Press(pressed: Kind) | Release(released: Kind) | Finish

  datatype Phase =
    | READY | IMPORTING | ADMITTED | PRESSURING | HELD | RELEASE_SENT | RELEASE_CHECK
    | FINISH_READY | EXITING | DONE | ABORTED

  datatype Outcome = Inconclusive | Fail | ControlOk | Imposed

  datatype Code =
    | CASE | DIGEST | DEADLINE | STATE | SCHEMA | INVENTORY | LIMIT
    | OBSERVED_FAIL | OBSERVED_INCONCLUSIVE | RELEASE | PROCESS

  /** One inventory entry: the stage it was loaded in, then name, kind and path. */
  datatype Row = Row(stage: int, name: string, kind: string, path: string)

  /** Bounded, validated and hashed inventory; None when any of that refuses. */
  type Digester = seq<Row> -> Option<string>

  datatype Core = Core(
    case_: Case, expected: string, pid: int, deadline: real, digester: Digester,
    phase: Phase, outcome: Outcome, last: real, kind: Kind, digest: Option<string>, report: Option<Held>,
    preSize: int, plateau: int, samples: int, nextSample: real)

  datatype Call =
    | Ready(now: Reading, vm: Vm, limits: Limits, pid: int, ppid: int)
    | AdmitImports(now: Reading, later: Reading, rows: seq<Row>, vm: Vm, limits: Limits)
    | Pressure(now: Reading, vm: Vm, limits: Limits)
    | ReportHeld(now: Reading, raw: string)
    | SendRelease(now: Reading, vm: Vm, limits: Limits, anon: int, inventory: seq<int>)
    | Released(now: Reading, vm: Vm, limits: Limits, anon: int)
    | ReleaseWait(now: Reading)
    | ReleaseSample(now: Reading, vm: Vm, limits: Limits, anon: int)
    | SendFinish(now: Reading)
    | Completed(now: Reading, done: bool, eof: bool, returncode: int, cleanup: bool, inventory: seq<int>)
    | ControlDigest(now: Reading)

  datatype Reply = Send(command: Command) | Admitted | Verdict(outcome: Outcome) | Complete(yes: bool) | Wait | Hash(digest: string)

  datatype Step = Step(core: Core, reply: Result<Reply, Code>)

  predicate HexDigest(s: string) {
    |s| == 64 && forall i :: 0 <= i < 64 ==> '0' <= s[i] <= '9' || 'a' <= s[i] <= 'f'
  }

  predicate ExpectedMatches(c: Case, expected: string) {
    if c.Control? then expected == "-" else HexDigest(expected)
  }

  function FirstKind(c: Case): Kind { if c.OnlyShared? then Shared else Private }

  function Positive(c: Case): Outcome { if c.Control? then ControlOk else Imposed }

  // ---------------------------------------------------------------- one call, as a function

  function Abort(c: Core, code: Code): Step {
    Step(c.(phase := ABORTED, outcome := if code.OBSERVED_FAIL? then Fail else Inconclusive), Err(code))
  }

  function Tick(c: Core, now: Reading): Result<Core, Code> {
    if now.At? && 0.0 <= now.time <= BOUND && 0.0 <= c.deadline <= BOUND && c.last <= now.time < c.deadline
    then Ok(c.(last := now.time))
    else Err(DEADLINE)
  }

  function Guard(c: Core, phase: Phase, now: Reading): Result<Core, Code> {
    if c.phase != phase then Err(STATE) else Tick(c, now)
  }

  function ExpectedLimits(c: Case): Limits {
    if c.Control? then Limits(-1, -1) else Limits(AS_BYTES, AS_BYTES)
  }

  /** The code that refuses an observation, if any. */
  function Facts(c: Case, vm: Vm, limits: Limits): Option<Code> {
    if !ValidVm(vm) then Some(SCHEMA)
    else if limits != ExpectedLimits(c) then Some(LIMIT)
    else if !c.Control? && vm.peak > AS_BYTES then Some(OBSERVED_FAIL)
    else None
  }

  function StepReady(c: Core, vm: Vm, limits: Limits, pid: int, ppid: int): Step {
    if Facts(c.case_, vm, limits).Some? then Abort(c, Facts(c.case_, vm, limits).value)
    else if pid != c.pid || ppid != 1 then Abort(c, PROCESS)
    else if !c.case_.Control? && vm.size > READY_MAX then Abort(c, LIMIT)
    else Step(c.(phase := IMPORTING), Ok(Send(GoImports)))
  }

  /** The validator and the hash may take time, so the deadline is looked at again. */
  function StepAdmit(c: Core, later: Reading, rows: seq<Row>, vm: Vm, limits: Limits): Step {
    var value := c.digester(rows);
    if value.None? then Abort(c, INVENTORY)
    else
      var t := Tick(c, later);
      if t.Err? then Abort(c, t.error)
      else if Facts(c.case_, vm, limits).Some? then Abort(t.value, Facts(c.case_, vm, limits).value)
      else if !c.case_.Control? && value.value != c.expected then Abort(t.value, DIGEST)
      else Step(t.value.(digest := value, phase := ADMITTED), Ok(Admitted))
  }

  function StepPressure(c: Core, vm: Vm, limits: Limits): Step {
    if Facts(c.case_, vm, limits).Some? then Abort(c, Facts(c.case_, vm, limits).value)
    else Step(c.(preSize := vm.size, phase := PRESSURING), Ok(Send(Press(c.kind))))
  }

  /** The code that refuses a report, if any. */
  function Judge(c: Core, h: Held): Option<Code> {
    var full := h.failure.NONE? && h.accepted == TARGET;
    if Facts(c.case_, h.vm, h.limits).Some? then Facts(c.case_, h.vm, h.limits)
    else if h.kind != c.kind then Some(SCHEMA)
    else if !c.case_.Control? && full then Some(OBSERVED_FAIL)
    else if if c.case_.Control? then full else (h.failure.MEMORY? || h.failure.ENOMEM?) && h.accepted >= STEP
    then None
    else Some(OBSERVED_INCONCLUSIVE)
  }

  function StepHeld(c: Core, raw: string): Step {
    var decoded := HeldDecoder.DecodeHeld(raw);
    if decoded.None? then Abort(c, SCHEMA)
    else
      var d := c.(report := decoded);
      var refused := Judge(c, decoded.value);
      if refused.Some? then Abort(d, refused.value) else Step(d.(phase := HELD), Ok(Verdict(Positive(c.case_))))
  }

  function StepRelease(c: Core, vm: Vm, limits: Limits, anon: int, inventory: seq<int>): Step {
    if Facts(c.case_, vm, limits).Some? then Abort(c, Facts(c.case_, vm, limits).value)
    else if c.report.None? then Abort(c, PROCESS)
    else if vm.peak != c.report.value.vm.peak then Abort(c, OBSERVED_INCONCLUSIVE)
    else if inventory != [1, c.pid] || !(0 <= anon <= LIMIT50) then Abort(c, PROCESS)
    else Step(c.(plateau := anon, phase := RELEASE_SENT), Ok(Send(Release(c.kind))))
  }

  /** Only the private round of the control case has to see its memory fall, within five samples. */
  function ReleaseCheck(c: Core, vm: Vm, limits: Limits, anon: int): Step {
    if Facts(c.case_, vm, limits).Some? then Abort(c, Facts(c.case_, vm, limits).value)
    else if !(0 <= anon <= LIMIT50) then Abort(c, SCHEMA)
    else if !c.case_.Control? || c.kind.Shared? then Step(c.(phase := FINISH_READY), Ok(Complete(true)))
    else
      var d := c.(samples := c.samples + 1);
      if vm.size <= d.preSize + STEP && d.plateau - anon >= FALL
      then Step(d.(kind := Shared, phase := ADMITTED), Ok(Complete(true)))
      else if d.samples >= MAX_SAMPLES then Abort(d, RELEASE)
      else Step(d.(phase := RELEASE_CHECK, nextSample := d.last + 1.0), Ok(Complete(false)))
  }

  function StepCompleted(c: Core, done: bool, eof: bool, returncode: int, cleanup: bool, inventory: seq<int>): Step {
    if !done || !eof || returncode != 0 || !cleanup || inventory != [1] then Abort(c, PROCESS)
    else Step(c.(phase := DONE, outcome := Positive(c.case_)), Ok(Verdict(Positive(c.case_))))
  }

  /** The phase a call belongs to. */
  function Home(call: Call): Phase {
    match call
    case Ready(_, _, _, _, _) => READY
    case AdmitImports(_, _, _, _, _) => IMPORTING
    case Pressure(_, _, _) => ADMITTED
    case ReportHeld(_, _) => PRESSURING
    case SendRelease(_, _, _, _, _) => HELD
    case Released(_, _, _, _) => RELEASE_SENT
    case ReleaseWait(_) => RELEASE_CHECK
    case ReleaseSample(_, _, _, _) => RELEASE_CHECK
    case SendFinish(_) => FINISH_READY
    case Completed(_, _, _, _, _, _) => EXITING
    case ControlDigest(_) => DONE
  }

  function Act(c: Core, call: Call): Step {
    match call
    case Ready(_, vm, limits, pid, ppid) => StepReady(c, vm, limits, pid, ppid)
    case AdmitImports(_, later, rows, vm, limits) => StepAdmit(c, later, rows, vm, limits)
    case Pressure(_, vm, limits) => StepPressure(c, vm, limits)
    case ReportHeld(_, raw) => StepHeld(c, raw)
    case SendRelease(_, vm, limits, anon, inventory) => StepRelease(c, vm, limits, anon, inventory)
    case Released(_, vm, limits, anon) => ReleaseCheck(c, vm, limits, anon)
    case ReleaseWait(_) => if c.deadline - c.last < 1.0 then Abort(c, DEADLINE) else Step(c, Ok(Wait))
    case ReleaseSample(_, vm, limits, anon) =>
      if c.last < c.nextSample then Abort(c, STATE) else ReleaseCheck(c, vm, limits, anon)
    case SendFinish(_) => Step(c.(phase := EXITING), Ok(Send(Finish)))
    case Completed(_, done, eof, returncode, cleanup, inventory) => StepCompleted(c, done, eof, returncode, cleanup, inventory)
    case ControlDigest(_) =>
      if !c.case_.Control? then Abort(c, STATE)
      else if c.digest.None? then Abort(c, SCHEMA)
      else Step(c, Ok(Hash(c.digest.value)))
  }

  function Do(c: Core, call: Call): Step {
    var g := Guard(c, Home(call), call.now);
    if g.Err? then Abort(c, g.error) else Act(g.value, call)
  }

  function Fresh(case_: Case, expected: string, pid: int, deadline: real, digester: Digester): Core {
    Core(case_, expected, pid, deadline, digester, READY, Inconclusive, 0.0, FirstKind(case_), None, None, 0, 0, 0, 0.0)
  }

  /** Construction: arguments, then a first look at the clock, at most 20 seconds before the deadline. */
  function Create(case_: Case, expected: string, pid: int, deadline: real, digester: Digester, now: Reading): Result<Core, Code> {
    if !ExpectedMatches(case_, expected) then Err(CASE)
    else if !(2 <= pid <= LIMIT50) then Err(SCHEMA)
    else
      var t := Tick(Fresh(case_, expected, pid, deadline, digester), now);
      if t.Err? then Err(t.error) else if deadline - t.value.last > 20.0 then Err(DEADLINE) else t
  }

  // ---------------------------------------------------------------- runs

  function Run(c: Core, calls: seq<Call>): Core
    decreases |calls|
  {
    if calls == [] then c else Run(Do(c, calls[0]).core, calls[1..])
  }

  function Sent(reply: Result<Reply, Code>): seq<Command> {
    if reply.Ok? && reply.value.Send? then [reply.value.command] else []
  }

  /** The commands a run returns, in order. */
  function Commands(c: Core, calls: seq<Call>): seq<Command>
    decreases |calls|
  {
    if calls == [] then [] else Sent(Do(c, calls[0]).reply) + Commands(Do(c, calls[0]).core, calls[1..])
  }

  /** The one conversation of each case. */
  function Word(c: Case): seq<Command> {
    match c
    case Control => [GoImports, Press(Private), Release(Private), Press(Shared), Release(Shared), Finish]
    case OnlyPrivate => [GoImports, Press(Private), Release(Private), Finish]
    case OnlyShared => [GoImports, Press(Shared), Release(Shared), Finish]
  }

  /** How many commands a live core has returned. */
  function Position(c: Core): nat {
    var second := if c.case_.Control? && c.kind.Shared? then 2 else 0;
    match c.phase
    case READY => 0
    case IMPORTING => 1
    case ADMITTED => 1 + second
    case PRESSURING => 2 + second
    case HELD => 2 + second
    case RELEASE_SENT => 3 + second
    case RELEASE_CHECK => 3
    case FINISH_READY => |Word(c.case_)| - 1
    case EXITING => |Word(c.case_)|
    case DONE => |Word(c.case_)|
    case ABORTED => 0
  }

  /** What the accepted report of the present round shows. */
  predicate Shown(c: Case, kind: Kind, h: Held) {
    && HeldDecoder.Coherent(h) && h.kind == kind && h.limits == ExpectedLimits(c)
    && if c.Control? then h.failure.NONE? && h.accepted == TARGET
       else (h.failure.MEMORY? || h.failure.ENOMEM?) && STEP <= h.accepted < TARGET && h.vm.peak <= AS_BYTES
  }

  predicate Basic(c: Core) {
    && ExpectedMatches(c.case_, c.expected) && c.pid >= 2
    && 0.0 <= c.last < c.deadline <= BOUND
    && 0 <= c.samples <= MAX_SAMPLES
  }

  /** The private round has not been sampled yet, or is over. */
  predicate InRound(c: Core) {
    if c.case_.Control? then c.kind.Private? ==> c.samples == 0 else c.kind == FirstKind(c.case_) && c.samples == 0
  }

  predicate Digested(c: Core) { c.digest.Some? && (!c.case_.Control? ==> c.digest.value == c.expected) }

  predicate Reported(c: Core) { c.report.Some? && Shown(c.case_, c.kind, c.report.value) }

  /** What every reachable core satisfies. */
  predicate Valid(c: Core) {
    && Basic(c)
    && (c.outcome.ControlOk? || c.outcome.Imposed? ==> c.phase.DONE?)
    && match c.phase
       case READY => c.kind == FirstKind(c.case_) && c.samples == 0
       case IMPORTING => c.kind == FirstKind(c.case_) && c.samples == 0
       case ADMITTED => InRound(c) && Digested(c)
       case PRESSURING => InRound(c) && Digested(c)
       case HELD => InRound(c) && Digested(c) && Reported(c)
       case RELEASE_SENT => InRound(c) && Digested(c) && Reported(c)
       case RELEASE_CHECK =>
         c.case_.Control? && c.kind.Private? && 1 <= c.samples < MAX_SAMPLES && Digested(c) && Reported(c)
       case FINISH_READY => LastRound(c)
       case EXITING => LastRound(c)
       case DONE => LastRound(c) && c.outcome == Positive(c.case_)
       case ABORTED => true
  }

  predicate LastRound(c: Core) {
    InRound(c) && (c.case_.Control? ==> c.kind.Shared?) && Digested(c) && Reported(c)
  }

  /** A step that keeps the invariant and extends the word by exactly what it returns. */
  predicate Kept(c: Core, s: Step) {
    && Valid(s.core) && s.core.case_ == c.case_ && s.core.deadline == c.deadline && s.core.expected == c.expected
    && c.last <= s.core.last
    && (s.core.phase.ABORTED? <==> s.reply.Err?)
    && Position(s.core) <= |Word(c.case_)|
    && (s.reply.Ok? ==>
          Position(c) <= Position(s.core) && Sent(s.reply) == Word(c.case_)[Position(c)..Position(s.core)])
  }

  /** Creation gives a valid core with nothing sent and at most 20 seconds to go. */
  lemma CreateIsValid(case_: Case, expected: string, pid: int, deadline: real, digester: Digester, now: Reading)
    requires Create(case_, expected, pid, deadline, digester, now).Ok?
    ensures var c := Create(case_, expected, pid, deadline, digester, now).value;
      Valid(c) && c.case_ == case_ && c.expected == expected && c.deadline == deadline
      && c.phase.READY? && Position(c) == 0 && c.deadline - c.last <= 20.0
  {
  }

  /** Each call keeps the invariant, sends the next commands of the word or nothing, and aborts exactly when it fails. */
  lemma StepKeeps(c: Core, call: Call)
    requires Valid(c)
    ensures Kept(c, Do(c, call))
    ensures c.phase.ABORTED? ==> Do(c, call).reply.Err?
  {
    hide Valid, Act;
    var g := Guard(c, Home(call), call.now);
    if g.Err? {
      AbortKept(c, g.error);
    } else {
      GuardKeeps(c, Home(call), call.now);
      ActKept(g.value, call);
    }
  }

  lemma AbortKept(c: Core, code: Code)
    requires Valid(c)
    ensures Kept(c, Abort(c, code))
  {
    hide ExpectedMatches, Shown;
  }

  lemma GuardKeeps(c: Core, phase: Phase, now: Reading)
    requires Valid(c) && Guard(c, phase, now).Ok?
    ensures var d := Guard(c, phase, now).value;
      Valid(d) && d == c.(last := d.last) && c.last <= d.last && d.phase == phase && Position(d) == Position(c)
  {
  }

  lemma ActKept(c: Core, call: Call)
    requires Valid(c) && c.phase == Home(call)
    ensures Kept(c, Act(c, call))
  {
    hide Kept, Valid, StepReady, StepAdmit, StepPressure, StepHeld, StepRelease, ReleaseCheck, StepCompleted;
    match call
    case Ready(_, vm, limits, pid, ppid) => ReadyKept(c, vm, limits, pid, ppid);
    case AdmitImports(_, later, rows, vm, limits) => AdmitKept(c, later, rows, vm, limits);
    case Pressure(_, vm, limits) => PressureKept(c, vm, limits);
    case ReportHeld(_, raw) => HeldKept(c, raw);
    case SendRelease(_, vm, limits, anon, inventory) => ReleaseKept(c, vm, limits, anon, inventory);
    case Released(_, vm, limits, anon) => CheckKept(c, vm, limits, anon);
    case ReleaseWait(_) => EndKept(c, call);
    case ReleaseSample(_, vm, limits, anon) => if c.last < c.nextSample { AbortKept(c, STATE); } else { CheckKept(c, vm, limits, anon); }
    case SendFinish(_) => EndKept(c, call);
    case Completed(_, _, _, _, _, _) => EndKept(c, call);
    case ControlDigest(_) => EndKept(c, call);
  }

  /** Waiting, finishing, completing and handing out the digest. */
  lemma EndKept(c: Core, call: Call)
    requires Valid(c) && c.phase == Home(call)
    requires call.ReleaseWait? || call.SendFinish? || call.Completed? || call.ControlDigest?
    ensures Kept(c, Act(c, call))
  {
    hide ExpectedMatches, Shown;
  }

  lemma ReadyKept(c: Core, vm: Vm, limits: Limits, pid: int, ppid: int)
    requires Valid(c) && c.phase.READY?
    ensures Kept(c, StepReady(c, vm, limits, pid, ppid))
  {
    hide HexDigest, ValidVm;
  }

  lemma AdmitKept(c: Core, later: Reading, rows: seq<Row>, vm: Vm, limits: Limits)
    requires Valid(c) && c.phase.IMPORTING?
    ensures Kept(c, StepAdmit(c, later, rows, vm, limits))
  {
    hide HexDigest, ValidVm;
  }

  lemma PressureKept(c: Core, vm: Vm, limits: Limits)
    requires Valid(c) && c.phase.ADMITTED?
    ensures Kept(c, StepPressure(c, vm, limits))
  {
    hide HexDigest, ValidVm, Shown;
  }

  lemma ReleaseKept(c: Core, vm: Vm, limits: Limits, anon: int, inventory: seq<int>)
    requires Valid(c) && c.phase.HELD?
    ensures Kept(c, StepRelease(c, vm, limits, anon, inventory))
  {
    hide HexDigest, ValidVm, HeldDecoder.Coherent;
  }

  lemma CheckKept(c: Core, vm: Vm, limits: Limits, anon: int)
    requires Valid(c) && (c.phase.RELEASE_SENT? || c.phase.RELEASE_CHECK?)
    ensures Kept(c, ReleaseCheck(c, vm, limits, anon))
  {
    hide HexDigest, ValidVm, HeldDecoder.Coherent;
  }

  lemma JudgedShown(c: Core, h: Held)
    requires HeldDecoder.Coherent(h) && Judge(c, h).None?
    ensures Shown(c.case_, c.kind, h)
  {
    hide ValidVm;
  }

  lemma HeldKept(c: Core, raw: string)
    requires Valid(c) && c.phase.PRESSURING?
    ensures Kept(c, StepHeld(c, raw))
  {
    hide ExpectedMatches, HeldDecoder.DecodeHeld, HeldDecoder.Coherent, Judge, Shown;
    var decoded := HeldDecoder.DecodeHeld(raw);
    if decoded.Some? {
      HeldDecoder.AcceptedIsCoherent(raw);
      if Judge(c, decoded.value).None? {
        JudgedShown(c, decoded.value);
      }
    }
  }

  /**
    For any calls in any order, the commands returned are a prefix of the case's word; a live
    core has returned exactly as many as its phase says, so DONE comes only after all of them.
  */
  lemma {:induction false} CommandsArePrefix(c: Core, calls: seq<Call>)
    requires Valid(c)
    ensures Valid(Run(c, calls)) && Run(c, calls).case_ == c.case_ && Run(c, calls).expected == c.expected
    ensures Run(c, calls).deadline == c.deadline && c.last <= Run(c, calls).last
    ensures Position(c) <= |Word(c.case_)| && Position(Run(c, calls)) <= |Word(c.case_)|
    ensures c.phase.ABORTED? ==> Commands(c, calls) == [] && Run(c, calls).phase.ABORTED?
    ensures !c.phase.ABORTED? ==> Word(c.case_)[..Position(c)] + Commands(c, calls) <= Word(c.case_)
    ensures !Run(c, calls).phase.ABORTED? ==>
      Word(c.case_)[..Position(c)] + Commands(c, calls) == Word(c.case_)[..Position(Run(c, calls))]
    decreases |calls|
  {
    PositionInWord(c);
    hide Valid, Do, Word, Position;
    if calls != [] {
      var s := Do(c, calls[0]);
      StepKeeps(c, calls[0]);
      CommandsArePrefix(s.core, calls[1..]);
      var w := Word(c.case_);
      if s.reply.Ok? {
        assert w[..Position(c)] + Sent(s.reply) == w[..Position(s.core)];
        assert w[..Position(c)] + Commands(c, calls) == w[..Position(s.core)] + Commands(s.core, calls[1..]);
      } else {
        assert Commands(c, calls) == [];
      }
    }
  }

  lemma PositionInWord(c: Core)
    ensures Position(c) <= |Word(c.case_)|
  {
  }

  /** An aborted core refuses every call, and every later call erases even an observed failure. */
  lemma AbortedStays(c: Core, call: Call)
    requires c.phase.ABORTED?
    ensures Do(c, call) == Step(c.(outcome := Inconclusive), Err(STATE))
  {
  }

  /** So the failing outcome survives exactly until the next call: it is not sticky, the refusal is. */
  lemma {:induction false} OutcomeAfterAbort(c: Core, calls: seq<Call>)
    requires c.phase.ABORTED?
    ensures Run(c, calls) == if calls == [] then c else c.(outcome := Inconclusive)
    ensures Commands(c, calls) == []
    decreases |calls|
  {
    if calls != [] {
      AbortedStays(c, calls[0]);
      OutcomeAfterAbort(Do(c, calls[0]).core, calls[1..]);
    }
  }

  /** A positive outcome has all its commands, an admitted inventory and a report that shows it, in time. */
  lemma PositiveIsEarned(case_: Case, expected: string, pid: int, deadline: real, digester: Digester, now: Reading, calls: seq<Call>)
    requires Create(case_, expected, pid, deadline, digester, now).Ok?
    ensures var c := Create(case_, expected, pid, deadline, digester, now).value;
      var d := Run(c, calls);
      && Commands(c, calls) <= Word(case_)
      && (d.outcome.ControlOk? || d.outcome.Imposed? ==>
          && d.phase.DONE? && d.outcome == Positive(case_) && Commands(c, calls) == Word(case_)
          && d.digest.Some? && (!case_.Control? ==> d.digest.value == expected)
          && d.report.Some? && Shown(d.case_, d.kind, d.report.value)
          && c.last <= d.last < deadline <= c.last + 20.0)
  {
    hide Valid, Do, ExpectedMatches;
    CreateIsValid(case_, expected, pid, deadline, digester, now);
    var c := Create(case_, expected, pid, deadline, digester, now).value;
    CommandsArePrefix(c, calls);
    EndMeans(Run(c, calls));
    assert Word(case_)[..0] + Commands(c, calls) == Commands(c, calls);
    assert Word(case_)[..|Word(case_)|] == Word(case_);
  }

  lemma EndMeans(d: Core)
    requires Valid(d)
    ensures d.last < d.deadline
    ensures d.outcome.ControlOk? || d.outcome.Imposed? ==>
      d.phase.DONE? && d.outcome == Positive(d.case_) && d.digest.Some?
      && (!d.case_.Control? ==> d.digest.value == d.expected) && d.report.Some? && Shown(d.case_, d.kind, d.report.value)
      && Position(d) == |Word(d.case_)|
  {
  }

  /** A sample that shows the private round's memory gone again. */
  predicate Fell(c: Core, call: Call) {
    (call.Released? || call.ReleaseSample?) && call.vm.size <= c.preSize + STEP && c.plateau - call.anon >= FALL
  }

  /** The control case moves on to its shared round only after a sample showed the fall. */
  lemma {:induction false} SharedAfterFall(c: Core, calls: seq<Call>)
    requires c.case_.Control? && c.kind.Private? && Run(c, calls).kind.Shared?
    ensures exists i :: 0 <= i < |calls| && Fell(Run(c, calls[..i]), calls[i])
    decreases |calls|
  {
    if calls != [] {
      var d := Do(c, calls[0]).core;
      assert calls[..0] == [];
      if d.kind.Shared? {
        TurnedShared(c, calls[0]);
        assert Fell(Run(c, calls[..0]), calls[0]);
      } else {
        TurnKeepsCase(c, calls[0]);
        SharedAfterFall(d, calls[1..]);
        var i :| 0 <= i < |calls[1..]| && Fell(Run(d, calls[1..][..i]), calls[1..][i]);
        assert calls[..i + 1][1..] == calls[1..][..i];
        assert Fell(Run(c, calls[..i + 1]), calls[i + 1]);
      }
    }
  }

  lemma TurnKeepsCase(c: Core, call: Call)
    ensures Do(c, call).core.case_ == c.case_
  {
    hide HeldDecoder.DecodeHeld, Facts, Judge;
  }

  lemma TurnedShared(c: Core, call: Call)
    requires c.case_.Control? && c.kind.Private? && Do(c, call).core.kind.Shared?
    ensures Fell(c, call)
  {
    hide HeldDecoder.DecodeHeld, Facts, Judge;
  }

  // ---------------------------------------------------------------- the object whose fields change

  class PressureProtocol {
    const case_: Case
    const expected: string
    const pid: int
    const deadline: real
    const digester: Digester
    var phase: Phase
    var outcome: Outcome
    var last: real
    var kind: Kind
    var digest: Option<string>
    var report: Option<Held>
    var preSize: int
    var plateau: int
    var samples: int
    var nextSample: real
    /** The reports accepted, in order. */
    ghost var heard: seq<string>

    ghost function State(): Core
      reads this
    {
      Core(case_, expected, pid, deadline, digester, phase, outcome, last, kind, digest, report,
           preSize, plateau, samples, nextSample)
    }

    constructor (case_: Case, expected: string, pid: int, deadline: real, digester: Digester)
      ensures State() == Fresh(case_, expected, pid, deadline, digester) && heard == []
    {
      this.case_, this.expected, this.pid, this.deadline, this.digester := case_, expected, pid, deadline, digester;
      phase, outcome, last, kind, digest, report := READY, Inconclusive, 0.0, FirstKind(case_), None, None;
      preSize, plateau, samples, nextSample := 0, 0, 0, 0.0;
      heard := [];
    }

    /** The checks the constructor ends with; only Ok hands the object out. */
    method Open(now: Reading) returns (ok: Result<(), Code>)
      requires State() == Fresh(case_, expected, pid, deadline, digester)
      modifies this
      ensures heard == old(heard)
      ensures ok.Ok? ==> Ok(State()) == Create(case_, expected, pid, deadline, digester, now)
      ensures ok.Err? ==> Err(ok.error) == Create(case_, expected, pid, deadline, digester, now) && phase.ABORTED?
    {
      if !ExpectedMatches(case_, expected) { Refuse(CASE); return Err(CASE); }
      if !(2 <= pid <= LIMIT50) { Refuse(SCHEMA); return Err(SCHEMA); }
      ok := Look(now);
      if ok.Ok? && deadline - last > 20.0 { Refuse(DEADLINE); return Err(DEADLINE); }
    }

    method Refuse(code: Code)
      modifies this
      ensures heard == old(heard)
      ensures State() == Abort(old(State()), code).core
    {
      phase, outcome := ABORTED, if code.OBSERVED_FAIL? then Fail else Inconclusive;
    }

    /** Reads the clock; a bad reading aborts. */
    method Look(now: Reading) returns (ok: Result<(), Code>)
      modifies this
      ensures heard == old(heard)
      ensures match Tick(old(State()), now)
        case Ok(c) => ok.Ok? && State() == c
        case Err(code) => ok == Err(code) && State() == Abort(old(State()), code).core
    {
      if now.At? && 0.0 <= now.time <= BOUND && 0.0 <= deadline <= BOUND && last <= now.time < deadline {
        last := now.time;
        return Ok(());
      }
      Refuse(DEADLINE);
      return Err(DEADLINE);
    }

    method Enter(home: Phase, now: Reading) returns (ok: Result<(), Code>)
      modifies this
      ensures heard == old(heard)
      ensures match Guard(old(State()), home, now)
        case Ok(c) => ok.Ok? && State() == c
        case Err(code) => ok == Err(code) && State() == Abort(old(State()), code).core
    {
      if phase != home {
        Refuse(STATE);
        ok := Err(STATE);
      } else {
        ok := Look(now);
      }
    }

    method Observe(vm: Vm, limits: Limits) returns (ok: Result<(), Code>)
      modifies this
      ensures heard == old(heard)
      ensures match Facts(case_, vm, limits)
        case None => ok.Ok? && State() == old(State())
        case Some(code) => ok == Err(code) && State() == Abort(old(State()), code).core
    {
      if !ValidVm(vm) { Refuse(SCHEMA); return Err(SCHEMA); }
      if limits != ExpectedLimits(case_) { Refuse(LIMIT); return Err(LIMIT); }
      if !case_.Control? && vm.peak > AS_BYTES { Refuse(OBSERVED_FAIL); return Err(OBSERVED_FAIL); }
      return Ok(());
    }

    method DoReady(now: Reading, vm: Vm, limits: Limits, pid: int, ppid: int) returns (reply: Result<Reply, Code>)
      modifies this
      ensures heard == old(heard)
      ensures Step(State(), reply) == Do(old(State()), Ready(now, vm, limits, pid, ppid))
    {
      hide Facts;
      var _ :- Enter(READY, now);
      var _ :- Observe(vm, limits);
      if pid != this.pid || ppid != 1 { Refuse(PROCESS); return Err(PROCESS); }
      if !case_.Control? && vm.size > READY_MAX { Refuse(LIMIT); return Err(LIMIT); }
      phase := IMPORTING;
      return Ok(Send(GoImports));
    }

    method DoAdmitImports(now: Reading, later: Reading, rows: seq<Row>, vm: Vm, limits: Limits) returns (reply: Result<Reply, Code>)
      modifies this
      ensures heard == old(heard)
      ensures Step(State(), reply) == Do(old(State()), AdmitImports(now, later, rows, vm, limits))
    {
      hide Facts;
      var _ :- Enter(IMPORTING, now);
      var value := digester(rows);
      if value.None? { Refuse(INVENTORY); return Err(INVENTORY); }
      var _ :- Enter(IMPORTING, later);
      var _ :- Observe(vm, limits);
      if !case_.Control? && value.value != expected { Refuse(DIGEST); return Err(DIGEST); }
      digest, phase := value, ADMITTED;
      return Ok(Admitted);
    }

    method DoPressure(now: Reading, vm: Vm, limits: Limits) returns (reply: Result<Reply, Code>)
      modifies this
      ensures heard == old(heard)
      ensures Step(State(), reply) == Do(old(State()), Pressure(now, vm, limits))
    {
      hide Facts;
      var _ :- Enter(ADMITTED, now);
      var _ :- Observe(vm, limits);
      preSize, phase := vm.size, PRESSURING;
      return Ok(Send(Press(kind)));
    }

    method DoHeld(now: Reading, raw: string) returns (reply: Result<Reply, Code>)
      modifies this
      ensures heard == old(heard) + if reply.Ok? then [raw] else []
      ensures Step(State(), reply) == Do(old(State()), ReportHeld(now, raw))
    {
      hide Facts, HeldDecoder.DecodeHeld;
      var _ :- Enter(PRESSURING, now);
      var decoded := HeldDecoder.DecodeHeld(raw);
      if decoded.None? { Refuse(SCHEMA); return Err(SCHEMA); }
      var h := decoded.value;
      report := decoded;
      var _ :- Observe(h.vm, h.limits);
      if h.kind != kind { Refuse(SCHEMA); return Err(SCHEMA); }
      var full := h.failure.NONE? && h.accepted == TARGET;
      var good;
      if case_.Control? {
        good := full;
      } else {
        if full { Refuse(OBSERVED_FAIL); return Err(OBSERVED_FAIL); }
        good := (h.failure.MEMORY? || h.failure.ENOMEM?) && h.accepted >= STEP;
      }
      if !good { Refuse(OBSERVED_INCONCLUSIVE); return Err(OBSERVED_INCONCLUSIVE); }
      phase := HELD;
      heard := heard + [raw];
      return Ok(Verdict(Positive(case_)));
    }

    method DoRelease(now: Reading, vm: Vm, limits: Limits, anon: int, inventory: seq<int>) returns (reply: Result<Reply, Code>)
      modifies this
      ensures heard == old(heard)
      ensures Step(State(), reply) == Do(old(State()), SendRelease(now, vm, limits, anon, inventory))
    {
      hide Facts;
      var _ :- Enter(HELD, now);
      var _ :- Observe(vm, limits);
      if report.None? { Refuse(PROCESS); return Err(PROCESS); }
      if vm.peak != report.value.vm.peak { Refuse(OBSERVED_INCONCLUSIVE); return Err(OBSERVED_INCONCLUSIVE); }
      if inventory != [1, pid] || !(0 <= anon <= LIMIT50) { Refuse(PROCESS); return Err(PROCESS); }
      plateau, phase := anon, RELEASE_SENT;
      return Ok(Send(Release(kind)));
    }

    method CheckRelease(vm: Vm, limits: Limits, anon: int) returns (reply: Result<Reply, Code>)
      modifies this
      ensures heard == old(heard)
      ensures Step(State(), reply) == ReleaseCheck(old(State()), vm, limits, anon)
    {
      hide Facts;
      var _ :- Observe(vm, limits);
      if !(0 <= anon <= LIMIT50) { Refuse(SCHEMA); return Err(SCHEMA); }
      if !case_.Control? || kind.Shared? {
        phase := FINISH_READY;
        return Ok(Complete(true));
      }
      samples := samples + 1;
      if vm.size <= preSize + STEP && plateau - anon >= FALL {
        kind, phase := Shared, ADMITTED;
        return Ok(Complete(true));
      }
      if samples >= MAX_SAMPLES { Refuse(RELEASE); return Err(RELEASE); }
      phase, nextSample := RELEASE_CHECK, last + 1.0;
      return Ok(Complete(false));
    }

    method DoReleased(now: Reading, vm: Vm, limits: Limits, anon: int) returns (reply: Result<Reply, Code>)
      modifies this
      ensures heard == old(heard)
      ensures Step(State(), reply) == Do(old(State()), Released(now, vm, limits, anon))
    {
      hide ReleaseCheck;
      var _ :- Enter(RELEASE_SENT, now);
      reply := CheckRelease(vm, limits, anon);
    }

    method DoReleaseWait(now: Reading) returns (reply: Result<Reply, Code>)
      modifies this
      ensures heard == old(heard)
      ensures Step(State(), reply) == Do(old(State()), ReleaseWait(now))
    {
      var _ :- Enter(RELEASE_CHECK, now);
      if deadline - last < 1.0 { Refuse(DEADLINE); return Err(DEADLINE); }
      return Ok(Wait);
    }

    method DoReleaseSample(now: Reading, vm: Vm, limits: Limits, anon: int) returns (reply: Result<Reply, Code>)
      modifies this
      ensures heard == old(heard)
      ensures Step(State(), reply) == Do(old(State()), ReleaseSample(now, vm, limits, anon))
    {
      hide ReleaseCheck;
      var _ :- Enter(RELEASE_CHECK, now);
      if last < nextSample { Refuse(STATE); return Err(STATE); }
      reply := CheckRelease(vm, limits, anon);
    }

    method DoFinish(now: Reading) returns (reply: Result<Reply, Code>)
      modifies this
      ensures heard == old(heard)
      ensures Step(State(), reply) == Do(old(State()), SendFinish(now))
    {
      var _ :- Enter(FINISH_READY, now);
      phase := EXITING;
      return Ok(Send(Finish));
    }

    method DoCompleted(now: Reading, done: bool, eof: bool, returncode: int, cleanup: bool, inventory: seq<int>)
      returns (reply: Result<Reply, Code>)
      modifies this
      ensures heard == old(heard)
      ensures Step(State(), reply) == Do(old(State()), Completed(now, done, eof, returncode, cleanup, inventory))
    {
      var _ :- Enter(EXITING, now);
      if !done || !eof || returncode != 0 || !cleanup || inventory != [1] { Refuse(PROCESS); return Err(PROCESS); }
      phase, outcome := DONE, Positive(case_);
      return Ok(Verdict(outcome));
    }

    method DoControlDigest(now: Reading) returns (reply: Result<Reply, Code>)
      modifies this
      ensures heard == old(heard)
      ensures Step(State(), reply) == Do(old(State()), ControlDigest(now))
    {
      var _ :- Enter(DONE, now);
      if !case_.Control? { Refuse(STATE); return Err(STATE); }
      if digest.None? { Refuse(SCHEMA); return Err(SCHEMA); }
      return Ok(Hash(digest.value));
    }
  }
}
