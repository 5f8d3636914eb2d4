/**
  The live supervision that records the evidence. Every port may fail or answer anything; what a
  supervision calls positive, the offline replay of its record accepts.
*/
module Supervise {
  import opened Common
  import opened Held
  import opened Evidence
  import HeldDecoder
  import P = Pressure
  import C = Collect

  datatype Reason = Code(code: P.Code) | PROTOCOL | DIAGNOSTIC | OUTER | Refused(failure: C.CollectFailure)

  const OBSERVED := Code(P.OBSERVED_FAIL)

  /** A decoded line; HeldPhase is any object whose phase is held. */
  datatype Event =
    | Envelope(loaded: bool, vm: Vm, limits: Limits, pid: int, ppid: int)
    | Importing(event: C.Event)
    | ReleasedPhase(kind: Kind)
    | DonePhase
    | HeldPhase
    | Other

  datatype Stage = Setup | ReadyStage | ImportStage | LoadedStage | PressureStage | HeldStage | ReleaseStage | FinishStage | ExitStage

  // ---------------------------------------------------------------- the same calls at logical times

  /** The replay's core beside the live one: equal but for the times. */
  ghost predicate Twin(c: Core, s: Core, clock: real) {
    && s == c.(last := s.last, nextSample := s.nextSample, deadline := REPLAY_SECONDS)
    && s.last == clock && 0.0 <= clock <= c.samples as real <= P.MAX_SAMPLES as real
    && (c.phase.RELEASE_CHECK? ==> s.nextSample == clock + 1.0)
  }

  function Retimed(call: P.Call, clock: real): P.Call {
    match call
    case Ready(_, vm, limits, pid, ppid) => P.Ready(At(clock), vm, limits, pid, ppid)
    case AdmitImports(_, _, rows, vm, limits) => P.AdmitImports(At(clock), At(clock), rows, vm, limits)
    case Pressure(_, vm, limits) => P.Pressure(At(clock), vm, limits)
    case ReportHeld(_, raw) => P.ReportHeld(At(clock), raw)
    case SendRelease(_, vm, limits, anon, inventory) => P.SendRelease(At(clock), vm, limits, anon, inventory)
    case Released(_, vm, limits, anon) => P.Released(At(clock), vm, limits, anon)
    case ReleaseWait(_) => P.ReleaseWait(At(clock))
    case ReleaseSample(_, vm, limits, anon) => P.ReleaseSample(At(clock), vm, limits, anon)
    case SendFinish(_) => P.SendFinish(At(clock))
    case Completed(_, done, eof, returncode, cleanup, inventory) => P.Completed(At(clock), done, eof, returncode, cleanup, inventory)
    case ControlDigest(_) => P.ControlDigest(At(clock))
  }

  /** A call the live core accepts is accepted by its twin, whatever the times were. */
  lemma TwinStep(c: Core, s: Core, clock: real, call: P.Call)
    requires P.Valid(c) && Twin(c, s, clock) && P.Do(c, call).reply.Ok? && !call.ReleaseWait? && !call.ReleaseSample?
    ensures P.Do(s, Retimed(call, clock)).reply == P.Do(c, call).reply
    ensures Twin(P.Do(c, call).core, P.Do(s, Retimed(call, clock)).core, clock)
    ensures P.Valid(P.Do(c, call).core)
  {
    P.StepKeeps(c, call);
    hide P.Valid, P.Facts, P.Judge, HeldDecoder.DecodeHeld, P.Kept;
    TwinGuard(c, s, clock, P.Home(call), call.now);
    ValidSamples(c);
    match call
    case Released(_, vm, limits, anon) => TwinCheck(P.Guard(c, c.phase, call.now).value, s, clock, vm, limits, anon);
    case _ =>
  }

  lemma ValidSamples(c: Core)
    requires P.Valid(c)
    ensures c.samples <= P.MAX_SAMPLES && (c.phase.RELEASE_CHECK? ==> 1 <= c.samples < P.MAX_SAMPLES)
    ensures c.phase.RELEASE_SENT? ==> c.samples == 0 || !c.case_.Control? || c.kind.Shared?
  {
  }

  lemma TwinGuard(c: Core, s: Core, clock: real, phase: P.Phase, now: Reading)
    requires Twin(c, s, clock) && P.Guard(c, phase, now).Ok?
    ensures P.Guard(s, phase, At(clock)) == Ok(s) && Twin(P.Guard(c, phase, now).value, s, clock)
  {
  }

  lemma TwinCheck(c: Core, s: Core, clock: real, vm: Vm, limits: Limits, anon: int)
    requires s == c.(last := clock, nextSample := s.nextSample, deadline := REPLAY_SECONDS)
    requires 0.0 <= clock <= c.samples as real + 1.0 && c.samples <= P.MAX_SAMPLES
    requires if c.case_.Control? && c.kind.Private? then c.samples < P.MAX_SAMPLES else clock <= c.samples as real
    requires P.ReleaseCheck(c, vm, limits, anon).reply.Ok?
    ensures P.ReleaseCheck(s, vm, limits, anon).reply == P.ReleaseCheck(c, vm, limits, anon).reply
    ensures Twin(P.ReleaseCheck(c, vm, limits, anon).core, P.ReleaseCheck(s, vm, limits, anon).core, clock)
  {
    hide P.Facts;
  }

  /** A wait and a sample: the twin's clock moves by exactly the second it waited. */
  lemma TwinSample(c: Core, s: Core, clock: real, waited: Reading, sampled: Reading, vm: Vm, limits: Limits, anon: int)
    requires P.Valid(c) && Twin(c, s, clock) && P.Do(c, P.ReleaseWait(waited)).reply.Ok?
    requires P.Do(P.Do(c, P.ReleaseWait(waited)).core, P.ReleaseSample(sampled, vm, limits, anon)).reply.Ok?
    ensures var w := P.Do(s, P.ReleaseWait(At(clock)));
      var live := P.Do(P.Do(c, P.ReleaseWait(waited)).core, P.ReleaseSample(sampled, vm, limits, anon));
      var t := P.Do(w.core, P.ReleaseSample(At(clock + 1.0), vm, limits, anon));
      w.reply.Ok? && t.reply == live.reply && Twin(live.core, t.core, clock + 1.0) && P.Valid(live.core)
  {
    P.StepKeeps(c, P.ReleaseWait(waited));
    P.StepKeeps(P.Do(c, P.ReleaseWait(waited)).core, P.ReleaseSample(sampled, vm, limits, anon));
    ValidSamples(c);
    hide P.Valid, P.Facts, P.ReleaseCheck, P.Kept;
    var d := P.Do(c, P.ReleaseWait(waited)).core;
    assert d == c.(last := d.last);
    var e := P.Guard(d, P.RELEASE_CHECK, sampled).value;
    var s1 := s.(last := clock + 1.0);
    assert P.Do(s, P.ReleaseWait(At(clock))).core == s;
    assert P.Guard(s, P.RELEASE_CHECK, At(clock + 1.0)) == Ok(s1);
    TwinCheck(e, s1, clock + 1.0, vm, limits, anon);
  }

  // ---------------------------------------------------------------- how far the replay gets on what is recorded so far

  /** On every longer record the replay comes to this core, after exactly what is recorded. */
  ghost predicate OnTrack(start: Core, obs: seq<Observation>, lines: seq<string>, s: Core, clock: real) {
    forall full, ls :: obs <= full && lines <= ls ==>
      RepRounds(start, 0.0, full, 5, ls) == RepRounds(s, clock, full, |obs|, ls[|lines|..])
  }

  ghost predicate RoundDone(s0: Core, clock0: real, obs0: nat, raw: string, obs: seq<Observation>, s: Core, clock: real) {
    forall full :: obs <= full ==> RepRound(s0, clock0, full, obs0, raw) == Some((s, clock, |obs|))
  }

  ghost predicate SampleTrack(s0: Core, clock0: real, obs0: nat, obs: seq<Observation>, s: Core, clock: real) {
    forall full :: obs <= full ==> RepSamples(s0, clock0, full, obs0) == RepSamples(s, clock, full, |obs|)
  }

  ghost predicate SamplesDone(s0: Core, clock0: real, obs0: nat, obs: seq<Observation>, s: Core, clock: real) {
    forall full :: obs <= full ==> RepSamples(s0, clock0, full, obs0) == Some((s, clock, |obs|))
  }

  lemma TrackBegins(start: Core, obs: seq<Observation>)
    requires |obs| == 5
    ensures OnTrack(start, obs, [], start, 0.0)
  {
    hide RepRounds;
    forall full: seq<Observation>, ls: seq<string> | obs <= full && [] <= ls
      ensures RepRounds(start, 0.0, full, 5, ls) == RepRounds(start, 0.0, full, |obs|, ls[0..])
    {
      assert ls[0..] == ls;
    }
  }

  lemma TrackRound(start: Core, obs0: seq<Observation>, lines: seq<string>, s0: Core, clock0: real, raw: string,
                   obs: seq<Observation>, s: Core, clock: real)
    requires OnTrack(start, obs0, lines, s0, clock0) && obs0 <= obs && RoundDone(s0, clock0, |obs0|, raw, obs, s, clock)
    ensures OnTrack(start, obs, lines + [raw], s, clock)
  {
    hide RepRound, RepRounds;
    forall full: seq<Observation>, ls: seq<string> | obs <= full && lines + [raw] <= ls
      ensures RepRounds(start, 0.0, full, 5, ls) == RepRounds(s, clock, full, |obs|, ls[|lines + [raw]|..])
    {
      assert obs0 <= full && lines <= ls;
      var rest := ls[|lines|..];
      assert rest[0] == ls[|lines|] == (lines + [raw])[|lines|] == raw;
      assert rest[1..] == ls[|lines + [raw]|..];
      RoundsStep(s0, clock0, full, |obs0|, rest);
    }
  }

  lemma RoundsStep(c: Core, now: real, obs: seq<Observation>, index: nat, lines: seq<string>)
    requires lines != [] && RepRound(c, now, obs, index, lines[0]).Some?
    ensures var r := RepRound(c, now, obs, index, lines[0]).value;
      RepRounds(c, now, obs, index, lines) == RepRounds(r.0, r.1, obs, r.2, lines[1..])
  {
    hide RepRound;
  }

  lemma TrackEnds(start: Core, obs: seq<Observation>, lines: seq<string>, s: Core, clock: real, full: seq<Observation>)
    requires OnTrack(start, obs, lines, s, clock) && obs <= full
    ensures RepRounds(start, 0.0, full, 5, lines) == Some((s, clock, |obs|))
  {
    assert lines <= lines && lines[|lines|..] == [];
    assert RepRounds(start, 0.0, full, 5, lines) == RepRounds(s, clock, full, |obs|, lines[|lines|..]);
  }

  /** The four accepted calls of a round, as the replay makes them. */
  ghost predicate Opens(s0: Core, clock: real, o1: Observation, raw: string, o2: Observation, o3: Observation, d: P.Step) {
    var p := RepPressure(s0, clock, o1);
    var h := P.Do(p.core, P.ReportHeld(At(clock), raw));
    var r := RepRelease(h.core, clock, o2);
    p.reply.Ok? && h.reply.Ok? && r.reply.Ok? && d == RepReleased(r.core, clock, o3) && d.reply.Ok?
  }

  /** A round without samples. */
  lemma RoundAtOnce(s0: Core, clock: real, obs0: seq<Observation>, raw: string, o1: Observation, o2: Observation, o3: Observation, d: P.Step)
    requires Opens(s0, clock, o1, raw, o2, o3, d) && d.reply.value == P.Complete(true)
    ensures RoundDone(s0, clock, |obs0|, raw, obs0 + [o1] + [o2] + [o3], d.core, clock)
  {
    hide P.Do, RepSamples, RepPressure, RepRelease, RepReleased;
    var obs := obs0 + [o1] + [o2] + [o3];
    forall full | obs <= full ensures RepRound(s0, clock, full, |obs0|, raw) == Some((d.core, clock, |obs|)) {
      assert obs[|obs0|] == o1 && obs[|obs0| + 1] == o2 && obs[|obs0| + 2] == o3;
    }
  }

  /** A round that had to wait. */
  lemma RoundSampled(s0: Core, clock: real, obs0: seq<Observation>, raw: string, o1: Observation, o2: Observation, o3: Observation, d: P.Step,
                     obs: seq<Observation>, s: Core, after: real)
    requires Opens(s0, clock, o1, raw, o2, o3, d) && d.reply.value != P.Complete(true) && obs0 + [o1] + [o2] + [o3] <= obs
    requires SamplesDone(d.core, clock, |obs0| + 3, obs, s, after)
    ensures RoundDone(s0, clock, |obs0|, raw, obs, s, after)
  {
    hide P.Do, RepSamples, RepPressure, RepRelease, RepReleased;
    var open := obs0 + [o1] + [o2] + [o3];
    forall full | obs <= full ensures RepRound(s0, clock, full, |obs0|, raw) == Some((s, after, |obs|)) {
      assert open[|obs0|] == o1 && open[|obs0| + 1] == o2 && open[|obs0| + 2] == o3 && open <= full;
      assert RepSamples(d.core, clock, full, |obs0| + 3) == Some((s, after, |obs|));
    }
  }

  lemma SampleMore(s0: Core, clock0: real, base: nat, obs: seq<Observation>, s: Core, clock: real, o: Observation)
    requires SampleTrack(s0, clock0, base, obs, s, clock)
    requires P.Do(s, P.ReleaseWait(At(clock))).reply.Ok?
    requires SampleStep(s, clock, o).reply.Ok?
    ensures var t := SampleStep(s, clock, o);
      if t.reply.value == P.Complete(true) then SamplesDone(s0, clock0, base, obs + [o], t.core, clock + 1.0)
      else SampleTrack(s0, clock0, base, obs + [o], t.core, clock + 1.0)
  {
    hide P.Do;
    var t := SampleStep(s, clock, o);
    forall full | obs + [o] <= full
      ensures RepSamples(s0, clock0, full, base) == RepSamples(s, clock, full, |obs|)
      ensures RepSamples(s, clock, full, |obs|) == if t.reply.value == P.Complete(true) then Some((t.core, clock + 1.0, |obs| + 1))
        else RepSamples(t.core, clock + 1.0, full, |obs| + 1)
    {
      assert obs <= full && full[|obs|] == (obs + [o])[|obs|] == o;
    }
  }

  /** The replay's sample call after its wait. */
  function SampleStep(s: Core, clock: real, o: Observation): P.Step {
    P.Do(P.Do(s, P.ReleaseWait(At(clock))).core, P.ReleaseSample(At(clock + 1.0), o.vm, o.limits, o.anon))
  }

  lemma SampleBegins(s: Core, clock: real, obs: seq<Observation>)
    ensures SampleTrack(s, clock, |obs|, obs, s, clock)
  {
  }

  // ---------------------------------------------------------------- the supervision

  predicate Seen(o: Observation, case_: P.Case, pid: int, stable: bool, want: Option<C.Effects>) {
    && ValidVm(o.vm) && o.ppid == 1 && o.inventory == [1, pid] && o.limits == P.ExpectedLimits(case_)
    && if stable then o.fds.Some? && C.ValidEffects(o.fds.value) && (want.Some? ==> o.fds == want) else o.fds.None?
  }

  predicate AllSeen(obs: seq<Observation>, case_: P.Case, pid: int) {
    && (forall i :: 0 <= i < |obs| ==> obs[i].inventory == [1, pid])
    && (forall i :: 1 <= i < |obs| && i < 4 ==> obs[i].fds.None?)
    && (|obs| >= 1 ==> obs[0].fds.Some?)
    && (forall i :: 4 <= i < |obs| ==> obs[i].fds == obs[0].fds)
  }

  lemma SeenMore(obs: seq<Observation>, o: Observation, case_: P.Case, pid: int, stable: bool, want: Option<C.Effects>)
    requires AllSeen(obs, case_, pid) && Seen(o, case_, pid, stable, want)
    requires if |obs| == 0 then stable else if |obs| < 4 then !stable else stable && want == obs[0].fds
    ensures AllSeen(obs + [o], case_, pid)
  {
  }

  predicate AllHeld(lines: seq<string>) { forall i :: 0 <= i < |lines| ==> HeldDecoder.DecodeHeld(lines[i]).Some? }

  class Supervision {
    const case_: P.Case
    const expected: string
    const digester: P.Digester
    const pid: int
    var observations: seq<Observation>
    var lines: seq<string>
    var broken: bool
    /** The decodable lines that came by. */
    ghost var offered: seq<string>
    var stage: Stage
    var modules: seq<P.Row>
    ghost var start: Core
    ghost var twin: Core
    ghost var clock: real

    constructor (case_: P.Case, expected: string, digester: P.Digester, pid: int, ghost replay: Core)
      ensures this.case_ == case_ && this.expected == expected && this.digester == digester && this.pid == pid
      ensures observations == [] && lines == [] && !broken && Tapped() && twin == replay && clock == 0.0
    {
      this.case_, this.expected, this.digester, this.pid := case_, expected, digester, pid;
      observations, lines, broken, stage, modules := [], [], false, Setup, [];
      start, twin, clock, offered := replay, replay, 0.0, [];
    }

    /** The tap keeps the first two decodable lines; the third breaks it for good. */
    ghost predicate Tapped()
      reads this`lines, this`broken, this`offered
    {
      && AllHeld(offered) && AllHeld(lines) && |offered| <= TAPPED + 1
      && lines == offered[..Min(|offered|, TAPPED)] && (broken <==> |offered| > TAPPED)
    }

    /** What was tapped is what the core accepted, and its report is the last of it. */
    ghost predicate Fed(core: P.PressureProtocol)
      reads this`lines, core
    {
      core.heard == lines && (lines != [] ==> core.report == HeldDecoder.DecodeHeld(lines[|lines| - 1]))
    }

    ghost predicate Owns(core: P.PressureProtocol)
      reads this, core
    {
      && core.case_ == case_ && core.expected == expected && core.digester == digester && core.pid == pid
      && P.Valid(core.State()) && Twin(core.State(), twin, clock)
      && AllSeen(observations, case_, pid) && Tapped() && Fed(core)
    }

    /** A line of the member as the tap sees it; a broken tap reads nothing more. */
    method ReadLine() returns (r: Result<Option<string>, Reason>)
      requires Tapped()
      modifies this`lines, this`broken, this`offered
      ensures Tapped() && (broken ==> r == Err(DIAGNOSTIC)) && (old(broken) ==> offered == old(offered))
      ensures offered == old(offered) || (|offered| == |old(offered)| + 1 && offered[..|old(offered)|] == old(offered))
      ensures r.Ok? ==> var held := r.value.Some? && HeldDecoder.DecodeHeld(r.value.value).Some?;
        offered == old(offered) + (if held then [r.value.value] else [])
        && lines == old(lines) + (if held then [r.value.value] else [])
      ensures r.Err? ==> lines == old(lines) && (offered == old(offered) || broken)
    {
      if broken {
        return Err(DIAGNOSTIC);
      }
      var port: Result<Option<string>, Reason> := Answer();
      if port.Err? || port.value.None? || HeldDecoder.DecodeHeld(port.value.value).None? {
        return port;
      }
      offered := offered + [port.value.value];
      if |lines| == TAPPED {
        broken := true;
        return Err(DIAGNOSTIC);
      }
      lines := lines + [port.value.value];
      return port;
    }

    /** The next decoded line. The object of a report is one whose phase is held, which is refused here. */
    method NextEvent() returns (r: Result<Event, Reason>)
      requires Tapped()
      modifies this`lines, this`broken, this`offered
      ensures Tapped() && (r.Ok? ==> lines == old(lines) && !broken && !old(broken) && !r.value.HeldPhase?)
    {
      var raw :- ReadLine();
      if raw.None? {
        return Err(PROTOCOL);
      }
      var event: Event := Answer();
      if HeldDecoder.DecodeHeld(raw.value).Some? {
        event := HeldPhase;
      }
      if event.HeldPhase? {
        return Err(PROTOCOL);
      }
      return Ok(event);
    }

    method Observe(stable: bool, want: Option<C.Effects>) returns (r: Result<Observation, Reason>)
      modifies this`observations
      ensures r.Ok? ==> observations == old(observations) + [r.value] && Seen(r.value, case_, pid, stable, want)
      ensures r.Err? ==> observations == old(observations)
      ensures |old(observations)| >= CAP ==> r.Err?
    {
      var port: Result<Observation, Reason> := Answer();
      if port.Err? {
        return port;
      }
      var o := port.value;
      if !ValidVm(o.vm) {
        return Err(Code(P.SCHEMA));
      }
      if !Seen(o, case_, pid, stable, want) {
        return Err(Code(P.PROCESS));
      }
      if |observations| >= CAP {
        return Err(PROTOCOL);
      }
      observations := observations + [o];
      return Ok(o);
    }

    /** What the member says of itself against what was observed. */
    method Compare(vm: Vm, limits: Limits, o: Observation) returns (r: Result<(), Reason>)
    {
      if !ValidVm(vm) { return Err(Code(P.SCHEMA)); }
      if limits != o.limits { return Err(Code(P.LIMIT)); }
      if !case_.Control? && vm.peak > P.AS_BYTES { return Err(OBSERVED); }
      return Ok(());
    }

    /** Sends one command; the pipe may fail in any way. */
    method Send(command: P.Command) returns (r: Result<(), Reason>)
    {
      r := Answer();
    }

    method GetReady(core: P.PressureProtocol) returns (r: Result<(), Reason>)
      requires Owns(core) && core.phase.READY? && observations == [] && lines == [] && !broken && clock == 0.0
      modifies this, core
      ensures Tapped() && |observations| <= 1
      ensures r.Ok? ==> lines == [] && !broken
      ensures r.Ok? ==> Owns(core) && core.phase.IMPORTING? && |observations| == 1 && clock == 0.0
      ensures r.Ok? ==> var s := P.Do(old(twin), P.Ready(At(0.0), observations[0].vm, observations[0].limits, pid, 1));
        s.reply.Ok? && s.core == twin
    {
      hide P.Valid, P.Do, Twin, HeldDecoder.DecodeHeld, AllHeld;
      stage := ReadyStage;
      var ready :- NextEvent();
      if !ready.Envelope? || ready.loaded || !ValidVm(ready.vm) || ready.ppid != 1 || !(2 <= ready.pid <= 0x4000_0000) {
        return Err(DIAGNOSTIC);
      }
      var o :- Observe(true, None);
      var _ :- Compare(ready.vm, ready.limits, o);
      if !case_.Control? && ready.vm.size > P.READY_MAX {
        return Err(Code(P.LIMIT));
      }
      var now: Reading := Answer();
      ghost var before := core.State();
      var reply := core.DoReady(now, o.vm, o.limits, ready.pid, ready.ppid);
      if reply.Err? {
        return Err(Code(reply.error));
      }
      ghost var call := P.Ready(now, o.vm, o.limits, ready.pid, ready.ppid);
      ReadyReply(before, call);
      ReportAfter(before, call);
      TwinStep(before, twin, clock, call);
      twin := P.Do(twin, Retimed(call, clock)).core;
      var _ :- Send(P.GoImports);
      return Ok(());
    }

    /** Feeds the collector until it is satisfied; each end of a stage is observed. */
    method CollectImports(core: P.PressureProtocol) returns (r: Result<C.ImportCollector, Reason>, refused: Option<(int, int)>)
      requires Owns(core) && core.phase.IMPORTING? && |observations| == 1 && lines == [] && !broken
      modifies this`stage, this`observations, this`lines, this`broken, this`offered
      ensures Tapped() && |observations| <= 4
      ensures r.Ok? ==> Owns(core) && lines == [] && !broken
      ensures r.Ok? ==> |observations| == 4 && observations[0] == old(observations)[0] && r.value.state.VERIFIED? && fresh(r.value)
    {
      hide P.Valid, Twin, HeldDecoder.DecodeHeld, AllHeld, C.Valid, C.Feed, C.Accept, AllSeen, Seen, ValidVm;
      stage, refused := ImportStage, None;
      var collector := new C.ImportCollector();
      C.OpeningValid();
      while !collector.state.VERIFIED?
        invariant fresh(collector) && C.Valid(collector.State()) && !collector.state.FAILED?
        invariant 0 <= collector.stage <= 3 && |observations| == 1 + collector.stage
        invariant Owns(core) && lines == [] && !broken
        invariant observations[0] == old(observations)[0]
        decreases !collector.state.VERIFIED?, C.Left(collector.State())
      {
        label L:
        ghost var before := collector.State();
        var line := NextEvent();
        if line.Err? {
          return Err(line.error), None;
        }
        var event := if line.value.Importing? then line.value.event else C.Foreign;
        C.FeedKeeps(before, event);
        C.FeedStage(before, event);
        C.FeedShrinks(before, event);
        C.ValidExit(C.Feed(before, event));
        TakenIsLive(before, event);
        var taken := collector.Take(event);
        if taken.Err? {
          if collector.expectedExit.None? || !(72 <= collector.expectedExit.value <= 76) || collector.failure.None? {
            return Err(PROTOCOL), None;
          }
          var end := ReadLine();
          if end.Err? {
            return Err(end.error), None;
          }
          if end.value.Some? {
            return Err(PROTOCOL), None;
          }
          var natural: int := Answer();
          return Err(Refused(collector.failure.value)), Some((natural, collector.expectedExit.value));
        }
        if event.End? {
          var o := Observe(false, None);
          if o.Err? {
            return Err(o.error), None;
          }
          SeenMore(old@L(observations), o.value, case_, pid, false, None);
          if !ValidVm(event.vm) {
            return Err(Code(P.SCHEMA)), None;
          }
          if !case_.Control? && (event.vm.peak > P.AS_BYTES || o.value.vm.peak > P.AS_BYTES) {
            return Err(OBSERVED), None;
          }
        }
      }
      C.ValidExit(collector.State());
      return Ok(collector), None;
    }

    /** The loaded report, the admission of the collected inventory. */
    method Admit(core: P.PressureProtocol, collector: C.ImportCollector) returns (r: Result<(), Reason>)
      requires Owns(core) && core.phase.IMPORTING? && |observations| == 4 && lines == [] && !broken && clock == 0.0
      requires observations[0].fds.Some?
      modifies this, core
      ensures Tapped() && |observations| <= 5
      ensures r.Ok? ==> Owns(core) && core.phase.ADMITTED? && core.kind == P.FirstKind(case_) && core.samples == 0
      ensures r.Ok? ==> |observations| == 5 && observations[0] == old(observations)[0] && lines == [] && !broken && clock == 0.0
      ensures r.Ok? ==> start == twin && OnTrack(start, observations, lines, twin, clock)
      ensures r.Ok? ==> var s := P.Do(old(twin), P.AdmitImports(At(0.0), At(0.0), modules, observations[4].vm, observations[4].limits));
        s.reply.Ok? && s.core == twin
    {
      hide P.Valid, P.Do, Twin, HeldDecoder.DecodeHeld, AllHeld, OnTrack, AllSeen, ValidVm;
      stage := LoadedStage;
      var loaded :- NextEvent();
      if !loaded.Envelope? || !loaded.loaded || !ValidVm(loaded.vm) {
        return Err(DIAGNOSTIC);
      }
      var fds := observations[0].fds;
      var o :- Observe(true, fds);
      SeenMore(old(observations), o, case_, pid, true, fds);
      var _ :- Compare(loaded.vm, loaded.limits, o);
      if !collector.state.VERIFIED? {
        return Err(DIAGNOSTIC);
      }
      var rows := collector.rows;
      var now: Reading := Answer();
      var later: Reading := Answer();
      ghost var before := core.State();
      var reply := core.DoAdmitImports(now, later, rows, o.vm, o.limits);
      if reply.Err? {
        return Err(Code(reply.error));
      }
      ghost var call := P.AdmitImports(now, later, rows, o.vm, o.limits);
      AdmitReply(before, call);
      ReportAfter(before, call);
      TwinStep(before, twin, clock, call);
      twin := P.Do(twin, Retimed(call, clock)).core;
      start, modules := twin, rows;
      TrackBegins(start, observations);
      var packed: Result<(), Reason> := Answer();
      return packed;
    }

    /** Pressure and the report of what was held. */
    method Press(core: P.PressureProtocol) returns (r: Result<(), Reason>, ghost raw: string)
      requires Owns(core) && core.phase.ADMITTED? && 5 <= |observations| <= 12 && !broken && |lines| < TAPPED
      modifies this`stage, this`observations, this`lines, this`broken, this`offered, this`twin, core
      ensures Tapped() && |observations| <= |old(observations)| + 1
      ensures r.Ok? ==> Owns(core) && !broken && lines == old(lines) + [raw]
      ensures r.Ok? ==> |observations| == |old(observations)| + 1 && old(observations) <= observations
      ensures r.Ok? ==> core.phase.HELD? && core.State().kind == old(core.kind) && core.State().samples == old(core.samples)
      ensures r.Ok? ==> var p := RepPressure(old(twin), clock, observations[|old(observations)|]);
        var h := P.Do(p.core, P.ReportHeld(At(clock), raw));
        p.reply.Ok? && h.reply.Ok? && twin == h.core
    {
      hide P.Valid, P.Do, Twin, HeldDecoder.DecodeHeld, AllHeld, AllSeen, Seen, ValidVm;
      raw := "";
      ghost var c0 := core.State();
      var fds := observations[0].fds;
      stage := PressureStage;
      var o1 :- Observe(true, fds);
      SeenFirst(old(observations), case_, pid);
      SeenMore(old(observations), o1, case_, pid, true, fds);
      var now1: Reading := Answer();
      var p := core.DoPressure(now1, o1.vm, o1.limits);
      if p.Err? { r := Err(Code(p.error)); return; }
      ghost var c1 := core.State();
      TwinStep(c0, twin, clock, P.Pressure(now1, o1.vm, o1.limits));
      ghost var t1 := P.Do(twin, P.Pressure(At(clock), o1.vm, o1.limits)).core;
      var sent1 := Send(P.Press(core.kind));
      if sent1.Err? { r := Err(sent1.error); return; }
      stage := HeldStage;
      var line :- ReadLine();
      if line.None? || !(1 <= |line.value| <= LINE_MAX) { r := Err(PROTOCOL); return; }
      var now2: Reading := Answer();
      var h := core.DoHeld(now2, line.value);
      if h.Err? { r := Err(Code(h.error)); return; }
      raw := line.value;
      HeldReply(c0, P.Pressure(now1, o1.vm, o1.limits), P.ReportHeld(now2, raw));
      ReportAfter(c1, P.ReportHeld(now2, raw));
      TwinStep(c1, t1, clock, P.ReportHeld(now2, raw));
      twin := P.Do(t1, P.ReportHeld(At(clock), raw)).core;
      r := Ok(());
    }

    /** The plateau, the release and the first look after it. */
    method LetGo(core: P.PressureProtocol) returns (r: Result<bool, Reason>, ghost d: P.Step)
      requires Owns(core) && core.phase.HELD? && 6 <= |observations| <= 13 && !broken
      modifies this`stage, this`observations, this`lines, this`broken, this`offered, this`twin, core
      ensures Tapped() && |observations| <= |old(observations)| + 2
      ensures r.Ok? ==> Owns(core) && !broken && lines == old(lines)
      ensures r.Ok? ==> |observations| == |old(observations)| + 2 && old(observations) <= observations
      ensures r.Ok? ==> Turned(old(core.State()), core.State(), r.value)
      ensures r.Ok? ==> var s := RepRelease(old(twin), clock, observations[|old(observations)|]);
        s.reply.Ok? && d == RepReleased(s.core, clock, observations[|old(observations)| + 1])
        && d.reply == Ok(P.Complete(r.value)) && twin == d.core
    {
      hide P.Valid, P.Do, Twin, HeldDecoder.DecodeHeld, AllHeld, AllSeen, Seen, ValidVm;
      d := P.Abort(twin, P.STATE);
      ghost var c2, t2, seen := core.State(), twin, observations;
      var fds := observations[0].fds;
      var o2 :- Observe(true, fds);
      SeenFirst(seen, case_, pid);
      SeenMore(seen, o2, case_, pid, true, fds);
      var now3: Reading := Answer();
      var s := core.DoRelease(now3, o2.vm, o2.limits, o2.anon, o2.inventory);
      if s.Err? { r := Err(Code(s.error)); return; }
      ghost var c3 := core.State();
      ReportAfter(c2, P.SendRelease(now3, o2.vm, o2.limits, o2.anon, o2.inventory));
      TwinStep(c2, t2, clock, P.SendRelease(now3, o2.vm, o2.limits, o2.anon, o2.inventory));
      ghost var t3 := P.Do(t2, P.SendRelease(At(clock), o2.vm, o2.limits, o2.anon, o2.inventory)).core;
      var sent2 := Send(P.Release(core.kind));
      if sent2.Err? { r := Err(sent2.error); return; }
      stage := ReleaseStage;
      var event :- NextEvent();
      if event != ReleasedPhase(core.kind) { r := Err(PROTOCOL); return; }
      ghost var seen2 := observations;
      var o3 :- Observe(true, fds);
      SeenMore(seen2, o3, case_, pid, true, fds);
      var now4: Reading := Answer();
      var c := core.DoReleased(now4, o3.vm, o3.limits, o3.anon);
      if c.Err? { r := Err(Code(c.error)); return; }
      ReportAfter(c3, P.Released(now4, o3.vm, o3.limits, o3.anon));
      TwinStep(c3, t3, clock, P.Released(now4, o3.vm, o3.limits, o3.anon));
      d := P.Do(t3, P.Released(At(clock), o3.vm, o3.limits, o3.anon));
      TurnReply(c2, P.SendRelease(now3, o2.vm, o2.limits, o2.anon, o2.inventory), P.Released(now4, o3.vm, o3.limits, o3.anon));
      twin := d.core;
      r := Ok(c.value == P.Complete(true));
    }

    /** Waits a second and looks again, until the core is satisfied or gives up. */
    method WaitRelease(core: P.PressureProtocol) returns (r: Result<(), Reason>)
      requires Owns(core) && core.phase.RELEASE_CHECK? && core.kind.Private? && core.samples == 1 && core.case_.Control?
      requires 8 <= |observations| <= 15 && !broken
      modifies this`observations, this`twin, this`clock, core
      ensures |observations| <= |old(observations)| + 4
      ensures r.Ok? ==> Owns(core) && core.phase.ADMITTED? && core.kind.Shared?
      ensures r.Ok? ==> old(observations) <= observations
      ensures r.Ok? ==> SamplesDone(old(twin), old(clock), |old(observations)|, observations, twin, clock)
    {
      hide P.Valid, P.Do, Twin, HeldDecoder.DecodeHeld, AllHeld, AllSeen, Seen, ValidVm, SamplesDone, SampleTrack;
      var complete := false;
      ghost var base := |observations|;
      SampleBegins(twin, clock, observations);
      while !complete
        invariant Owns(core) && old(observations) <= observations
        invariant !complete ==> core.phase.RELEASE_CHECK? && core.kind.Private? && 1 <= core.samples < P.MAX_SAMPLES
        invariant !complete ==> |observations| == base + core.samples - 1
        invariant !complete ==> SampleTrack(old(twin), old(clock), base, observations, twin, clock)
        invariant complete ==> core.phase.ADMITTED? && core.kind.Shared? && |observations| <= base + 4
        invariant complete ==> SamplesDone(old(twin), old(clock), base, observations, twin, clock)
        decreases !complete, P.MAX_SAMPLES - core.samples
      {
        ghost var c0, seen := core.State(), observations;
        var now1: Reading := Answer();
        var w := core.DoReleaseWait(now1);
        if w.Err? { return Err(Code(w.error)); }
        var slept: Result<(), Reason> := Answer();
        if slept.Err? { return slept; }
        var fds := observations[0].fds;
        var o :- Observe(true, fds);
        SeenFirst(seen, case_, pid);
        SeenMore(seen, o, case_, pid, true, fds);
        var now2: Reading := Answer();
        var c := core.DoReleaseSample(now2, o.vm, o.limits, o.anon);
        if c.Err? { return Err(Code(c.error)); }
        ReportAfter(c0, P.ReleaseWait(now1));
        ReportAfter(P.Do(c0, P.ReleaseWait(now1)).core, P.ReleaseSample(now2, o.vm, o.limits, o.anon));
        TwinSample(c0, twin, clock, now1, now2, o.vm, o.limits, o.anon);
        SampleReply(c0, now1, now2, o.vm, o.limits, o.anon);
        SampleMore(old(twin), old(clock), base, seen, twin, clock, o);
        twin, clock := SampleStep(twin, clock, o).core, clock + 1.0;
        complete := c.value == P.Complete(true);
      }
      return Ok(());
    }

    /** One round of pressure and release. */
    method Round(core: P.PressureProtocol) returns (r: Result<(), Reason>)
      requires Owns(core) && core.phase.ADMITTED? && 5 <= |observations| <= 12 && !broken && |lines| < TAPPED
      requires core.case_.Control? && core.kind.Private? ==> core.samples == 0
      requires OnTrack(start, observations, lines, twin, clock)
      modifies this`stage, this`observations, this`lines, this`broken, this`offered, this`twin, this`clock, core
      ensures Tapped() && |observations| <= |old(observations)| + (if core.case_.Control? && old(core.kind).Private? then 7 else 3)
      ensures r.Ok? ==> Owns(core) && !broken && |lines| == |old(lines)| + 1
      ensures r.Ok? ==> |observations| > |old(observations)| && old(observations) <= observations
      ensures r.Ok? ==> OnTrack(start, observations, lines, twin, clock)
      ensures r.Ok? ==> if core.case_.Control? && old(core.kind).Private? then core.phase.ADMITTED? && core.kind.Shared?
        else core.phase.FINISH_READY? && core.kind == old(core.kind) && |observations| == |old(observations)| + 3
    {
      hide P.Valid, P.Do, Twin, HeldDecoder.DecodeHeld, AllHeld, AllSeen, OnTrack, Opens, RoundDone, SamplesDone, RepPressure, RepRelease, RepReleased;
      ghost var s0, clock0, obs0, n := twin, clock, observations, |observations|;
      var pressed;
      ghost var raw, d;
      pressed, raw := Press(core);
      if pressed.Err? { return pressed; }
      ghost var o1 := observations[n];
      var released;
      released, d := LetGo(core);
      if released.Err? { return Err(released.error); }
      ghost var o2, o3 := observations[n + 1], observations[n + 2];
      OpensOf(s0, clock0, o1, raw, o2, o3, d);
      ghost var open := observations;
      assert open == obs0 + [o1] + [o2] + [o3];
      if released.value {
        RoundAtOnce(s0, clock0, obs0, raw, o1, o2, o3, d);
      } else {
        var waited := WaitRelease(core);
        if waited.Err? { return waited; }
        assert open <= observations;
        RoundSampled(s0, clock0, obs0, raw, o1, o2, o3, d, observations, twin, clock);
      }
      TrackRound(start, obs0, old(lines), s0, clock0, raw, observations, twin, clock);
      return Ok(());
    }

    /** All rounds of the case, then the last stable look and FINISH. */
    method Finish(core: P.PressureProtocol) returns (r: Result<int, Reason>, ghost end: Core)
      requires Owns(core) && core.phase.FINISH_READY? && 5 <= |observations| <= 15 && !broken
      requires OnTrack(start, observations, lines, twin, clock)
      modifies this`stage, this`observations, this`lines, this`broken, this`offered, this`twin, core
      ensures Tapped() && |observations| <= |old(observations)| + 1
      ensures r.Ok? ==> Owns(core) && core.phase.EXITING? && !broken && lines == old(lines) && end == old(twin)
      ensures r.Ok? ==> old(observations) <= observations && |observations| == |old(observations)| + 1
      ensures r.Ok? ==> RepRounds(start, 0.0, observations, 5, lines) == Some((end, clock, |observations| - 1))
      ensures r.Ok? ==> P.Do(end, P.SendFinish(At(clock))).reply.Ok? && twin == P.Do(end, P.SendFinish(At(clock))).core
    {
      hide P.Valid, P.Do, Twin, HeldDecoder.DecodeHeld, AllHeld, AllSeen, Seen, ValidVm, OnTrack, RepRounds;
      stage, end := FinishStage, twin;
      var fds := observations[0].fds;
      var o :- Observe(true, fds);
      SeenFirst(old(observations), case_, pid);
      SeenMore(old(observations), o, case_, pid, true, fds);
      ghost var c0 := core.State();
      var now: Reading := Answer();
      var f := core.DoFinish(now);
      if f.Err? { r := Err(Code(f.error)); return; }
      TwinStep(c0, twin, clock, P.SendFinish(now));
      FinishReply(c0, P.SendFinish(now));
      ReportAfter(c0, P.SendFinish(now));
      twin := P.Do(twin, P.SendFinish(At(clock))).core;
      TrackEnds(start, old(observations), lines, end, clock, observations);
      var sent := Send(P.Finish);
      if sent.Err? { r := Err(sent.error); return; }
      var marker :- NextEvent();
      if !marker.DonePhase? { r := Err(PROTOCOL); return; }
      stage := ExitStage;
      var eof :- ReadLine();
      if eof.Some? { r := Err(PROTOCOL); return; }
      r := Answer();
    }

    method Rounds(core: P.PressureProtocol) returns (r: Result<(), Reason>)
      requires Owns(core) && core.phase.ADMITTED? && core.kind == P.FirstKind(case_) && core.samples == 0
      requires |observations| == 5 && !broken && lines == [] && OnTrack(start, observations, lines, twin, clock)
      modifies this`stage, this`observations, this`lines, this`broken, this`offered, this`twin, this`clock, core
      ensures Tapped() && |observations| <= 15
      ensures r.Ok? ==> Owns(core) && core.phase.FINISH_READY? && !broken && |lines| == Count(case_)
      ensures r.Ok? ==> old(observations) <= observations && OnTrack(start, observations, lines, twin, clock)
    {
      hide P.Valid, P.Do, Twin, HeldDecoder.DecodeHeld, AllHeld, AllSeen, OnTrack;
      while core.phase.ADMITTED?
        invariant Owns(core) && !broken && old(observations) <= observations && OnTrack(start, observations, lines, twin, clock)
        invariant core.phase.ADMITTED? || core.phase.FINISH_READY?
        invariant core.phase.ADMITTED? && core.kind == P.FirstKind(case_) ==> |observations| == 5 && lines == [] && core.samples == 0
        invariant core.phase.ADMITTED? && core.kind != P.FirstKind(case_) ==>
          |observations| <= 12 && |lines| == 1 && case_.Control? && core.kind.Shared?
        invariant core.phase.FINISH_READY? ==> |observations| <= 15 && |lines| == Count(case_)
        decreases core.phase.ADMITTED?, core.kind.Private?
      {
        var round := Round(core);
        if round.Err? { return round; }
      }
      return Ok(());
    }

    /** The conversation from ready to the end of the member, and whether imports were refused. */
    method Converse(core: P.PressureProtocol) returns (r: Result<int, Reason>, refused: Option<(int, int)>, ghost end: Core)
      requires Owns(core) && core.phase.READY? && observations == [] && lines == [] && !broken && clock == 0.0
      requires Ok(twin) == P.Create(case_, expected, pid, REPLAY_SECONDS, digester, At(0.0))
      modifies this, core
      ensures Tapped() && |observations| <= 16
      ensures r.Ok? ==> Owns(core) && core.phase.EXITING? && !broken && |lines| == Count(case_) && |observations| >= 6
      ensures r.Ok? ==> Prelude(case_, expected, pid, digester, observations[0], modules, observations[4]) == Some(start)
      ensures r.Ok? ==> RepRounds(start, 0.0, observations, 5, lines) == Some((end, clock, |observations| - 1))
      ensures r.Ok? ==> P.Do(end, P.SendFinish(At(clock))).reply.Ok? && twin == P.Do(end, P.SendFinish(At(clock))).core
    {
      hide P.Valid, P.Do, Twin, HeldDecoder.DecodeHeld, AllHeld, AllSeen, OnTrack, RepRounds, P.Create;
      end, refused := twin, None;
      var ready := GetReady(core);
      if ready.Err? { r := Err(ready.error); return; }
      ghost var first, t1 := observations[0], twin;
      var collected;
      collected, refused := CollectImports(core);
      if collected.Err? { r := Err(collected.error); return; }
      SeenFirst(observations, case_, pid);
      var admitted := Admit(core, collected.value);
      if admitted.Err? { r := Err(admitted.error); return; }
      ghost var fifth := observations;
      assert Prelude(case_, expected, pid, digester, fifth[0], modules, fifth[4]) == Some(start);
      var rounds := Rounds(core);
      if rounds.Err? { r := Err(rounds.error); return; }
      r, end := Finish(core);
    }
  }

  /** The core's report changes with a report call alone, which keeps what it accepts. */
  lemma ReportAfter(c: Core, call: P.Call)
    ensures !call.ReportHeld? ==> P.Do(c, call).core.report == c.report
    ensures call.ReportHeld? && P.Do(c, call).reply.Ok? ==> P.Do(c, call).core.report == HeldDecoder.DecodeHeld(call.raw)
  {
    hide HeldDecoder.DecodeHeld, P.Judge, P.Facts;
  }

  lemma OpensOf(s0: Core, clock: real, o1: Observation, raw: string, o2: Observation, o3: Observation, d: P.Step)
    requires RepPressure(s0, clock, o1).reply.Ok?
    requires P.Do(RepPressure(s0, clock, o1).core, P.ReportHeld(At(clock), raw)).reply.Ok?
    requires var h := P.Do(RepPressure(s0, clock, o1).core, P.ReportHeld(At(clock), raw));
      RepRelease(h.core, clock, o2).reply.Ok? && d == RepReleased(RepRelease(h.core, clock, o2).core, clock, o3) && d.reply.Ok?
    ensures Opens(s0, clock, o1, raw, o2, o3, d)
  {
    hide P.Do, RepPressure, RepRelease, RepReleased;
  }

  lemma SeenFirst(obs: seq<Observation>, case_: P.Case, pid: int)
    requires AllSeen(obs, case_, pid) && |obs| >= 1
    ensures obs[0].fds.Some?
  {
  }

  /** How a round leaves the core: done with its only round, on to the shared one, or sampling. */
  ghost predicate Turned(c: Core, d: Core, complete: bool) {
    && d.case_ == c.case_
    && if !c.case_.Control? || c.kind.Shared? then complete && d.phase.FINISH_READY? && d.kind == c.kind
       else if complete then d.phase.ADMITTED? && d.kind.Shared?
       else d.phase.RELEASE_CHECK? && d.kind.Private? && d.samples == c.samples + 1
  }

  lemma TurnReply(c: Core, release: P.Call, released: P.Call)
    requires release.SendRelease? && released.Released?
    requires P.Do(c, release).reply.Ok? && P.Do(P.Do(c, release).core, released).reply.Ok?
    ensures var t := P.Do(P.Do(c, release).core, released);
      t.reply.value.Complete? && Turned(c, t.core, t.reply.value.yes)
  {
    hide P.Facts;
  }

  lemma SampleReply(c: Core, waited: Reading, sampled: Reading, vm: Vm, limits: Limits, anon: int)
    requires P.Valid(c) && P.Do(c, P.ReleaseWait(waited)).reply.Ok?
    requires P.Do(P.Do(c, P.ReleaseWait(waited)).core, P.ReleaseSample(sampled, vm, limits, anon)).reply.Ok?
    ensures var t := P.Do(P.Do(c, P.ReleaseWait(waited)).core, P.ReleaseSample(sampled, vm, limits, anon));
      && c.case_.Control? && t.reply.value.Complete? && t.core.case_ == c.case_
      && if t.reply.value.yes then t.core.phase.ADMITTED? && t.core.kind.Shared?
         else t.core.phase.RELEASE_CHECK? && t.core.kind == c.kind && t.core.samples == c.samples + 1 < P.MAX_SAMPLES
  {
    hide P.Facts;
  }

  lemma HeldReply(c: Core, pressure: P.Call, held: P.Call)
    requires pressure.Pressure? && held.ReportHeld?
    requires P.Do(c, pressure).reply.Ok? && P.Do(P.Do(c, pressure).core, held).reply.Ok?
    ensures HeldDecoder.DecodeHeld(held.raw).Some?
    ensures var d := P.Do(P.Do(c, pressure).core, held).core; d.phase.HELD? && d.kind == c.kind && d.samples == c.samples
  {
    hide HeldDecoder.DecodeHeld, P.Judge, P.Facts;
  }

  lemma FinishReply(c: Core, call: P.Call)
    requires call.SendFinish? && P.Do(c, call).reply.Ok?
    ensures P.Do(c, call).core.phase.EXITING?
  {
  }

  lemma AdmitReply(c: Core, call: P.Call)
    requires P.Valid(c) && call.AdmitImports? && P.Do(c, call).reply.Ok?
    ensures var d := P.Do(c, call).core; d.phase.ADMITTED? && d.kind == P.FirstKind(c.case_) && d.samples == 0
  {
    hide P.Facts, P.Basic;
  }

  lemma TakenIsLive(c: C.Collector, e: C.Event)
    ensures C.Accept(c, e).Some? ==> !C.Feed(c, e).state.FAILED?
  {
    hide C.NativeMatches;
  }

  lemma ReadyReply(c: Core, call: P.Call)
    requires call.Ready? && P.Do(c, call).reply.Ok?
    ensures call.pid == c.pid && call.ppid == 1 && P.Do(c, call).core.phase.IMPORTING?
  {
  }

  // ---------------------------------------------------------------- the whole

  datatype Cleanup = Cleanup(confirmed: bool, returncode: Option<int>, killed: bool, inventory: seq<int>, outer: bool)

  function Blank(obs: seq<Observation>, modules: seq<P.Row>, c: Cleanup): Report {
    Report(obs, modules, Of(P.Inconclusive), c.returncode, c.inventory, None)
  }

  predicate IsPositive(v: Verdict) { v.Of? && (v.outcome.ControlOk? || v.outcome.Imposed?) }

  /** Clean, calm, not ended by a signal of its own, and with the exit code that was expected. */
  predicate Settled(c: Cleanup, natural: Option<int>, expected: Option<int>) {
    && c.confirmed && c.inventory == [1] && !c.outer
    && !(c.returncode.Some? && c.returncode.value < 0 && !(c.killed && c.returncode == Some(-9)))
    && (expected.Some? ==> natural == expected && c.returncode == natural)
  }

  lemma CreateTwin(case_: P.Case, expected: string, pid: int, deadline: real, digester: P.Digester, now: Reading)
    requires P.Create(case_, expected, pid, deadline, digester, now).Ok?
    ensures P.Create(case_, expected, pid, REPLAY_SECONDS, digester, At(0.0)).Ok?
    ensures Twin(P.Create(case_, expected, pid, deadline, digester, now).value,
                 P.Create(case_, expected, pid, REPLAY_SECONDS, digester, At(0.0)).value, 0.0)
  {
    hide P.ExpectedMatches;
  }

  lemma CompletedReply(c: Core, call: P.Call)
    requires call.Completed?
    ensures P.Do(c, call).reply.Err? ==> P.Do(c, call).core.phase.ABORTED?
    ensures P.Do(c, call).reply.Ok? ==> P.Do(c, call).core.phase.DONE?
    ensures P.Do(c, call).reply.Ok? ==> P.Do(c, call).core.case_ == c.case_ && P.Do(c, call).core.outcome == P.Positive(c.case_)
  {
  }

  lemma DigestReply(c: Core, call: P.Call)
    requires call.ControlDigest?
    ensures P.Do(c, call).reply.Err? ==> P.Do(c, call).core.phase.ABORTED?
    ensures P.Do(c, call).reply.Ok? ==> P.Do(c, call).reply.value.Hash? && P.Do(c, call).core.phase == c.phase
  {
  }

  /** The pieces of a positive supervision make a record the replay accepts. */
  lemma RecordReplays(report: Report, lines: seq<string>, case_: P.Case, expected: string, digester: P.Digester, pid: int,
                      start: Core, end: Core, clock: real)
    requires AllSeen(report.observations, case_, pid) && AllHeld(lines) && |lines| == Count(case_)
    requires |report.observations| >= 6 && pid >= 2
    requires Prelude(case_, expected, pid, digester, report.observations[0], report.modules, report.observations[4]) == Some(start)
    requires RepRounds(start, 0.0, report.observations, 5, lines) == Some((end, clock, |report.observations| - 1))
    requires RepEnd(end, clock, report, report.digest)
    ensures Validates(report, lines, case_, expected, digester, report.digest)
  {
    hide Prelude, RepRounds, RepEnd, HeldDecoder.DecodeHeld;
  }

  /** A core that concluded, on these lines and no others. */
  ghost predicate Concluded(core: P.PressureProtocol, lines: seq<string>)
    reads core
  {
    && P.Valid(core.State()) && core.phase.DONE?
    && lines == core.heard && lines != [] && core.report == HeldDecoder.DecodeHeld(lines[|lines| - 1])
  }

  /**
    One supervision from start to report. A positive report comes with exactly the lines the
    core accepted and with observations the offline replay walks to the same outcome; no run
    comes near the cap on observations. The core that was asked to conclude, if it came to
    that, is handed out as live.
  */
  method Supervise(case_: P.Case, expected: string, deadline: real, digester: P.Digester)
    returns (report: Report, lines: seq<string>, broken: bool, ghost live: P.PressureProtocol?)
    ensures |report.observations| <= 17 < CAP
    ensures live != null ==> fresh(live) && live.case_ == case_ && live.expected == expected
    ensures live != null ==> live.deadline == deadline && live.digester == digester
    ensures IsPositive(report.verdict) <==> live != null && live.phase.DONE?
    ensures IsPositive(report.verdict) ==> Concluded(live, lines) && report.verdict == Of(live.outcome)
    ensures report.verdict == Of(P.Fail) ==> !case_.Control? && ShowsFailure(report.observations)
    ensures report.verdict.Incompatible? ==> !case_.Control?
    ensures IsPositive(report.verdict) ==>
      && !broken && report.verdict == Of(P.Positive(case_)) && |report.observations| <= 16
      && Validates(report, lines, case_, expected, digester, report.digest)
  {
    hide P.Valid, P.Do, Twin, HeldDecoder.DecodeHeld, AllSeen, RepRounds, Prelude, P.Create, Validates, AllHeld;
    lines, broken, live := [], false, null;
    var cleanup: Option<Cleanup> := Answer();
    var settled := if cleanup.Some? then cleanup.value else Cleanup(false, None, false, [], false);
    report := Blank([], [], settled);
    if !P.ExpectedMatches(case_, expected) { return; }
    var prepared: Result<(), Reason> := Answer();
    if prepared.Err? { return; }
    var spawned: Result<int, Reason> := Answer();
    if spawned.Err? { return; }
    var core := new P.PressureProtocol(case_, expected, spawned.value, deadline, digester);
    var now: Reading := Answer();
    var made := core.Open(now);
    if made.Err? { return; }
    P.CreateIsValid(case_, expected, spawned.value, deadline, digester, now);
    CreateTwin(case_, expected, spawned.value, deadline, digester, now);
    ghost var replay := P.Create(case_, expected, spawned.value, REPLAY_SECONDS, digester, At(0.0)).value;
    var s := new Supervision(case_, expected, digester, spawned.value, replay);
    NothingSeen(case_, spawned.value);
    var talk, refused;
    ghost var end;
    talk, refused, end := s.Converse(core);
    lines, broken := s.lines, s.broken;
    report, live := Settle(s, core, talk, refused, settled, cleanup.Some?, end);
  }

  /** After the conversation and the cleanup: the verdict, by the core if nothing speaks against it. */
  method Settle(s: Supervision, core: P.PressureProtocol, talk: Result<int, Reason>, refused: Option<(int, int)>,
                settled: Cleanup, cleaned: bool, ghost end: Core)
    returns (report: Report, ghost live: P.PressureProtocol?)
    requires |s.observations| <= 16
    requires talk.Ok? ==> s.Owns(core) && core.phase.EXITING? && |s.lines| == Count(s.case_) && |s.observations| >= 6
    requires talk.Ok? ==> Prelude(s.case_, s.expected, s.pid, s.digester, s.observations[0], s.modules, s.observations[4]) == Some(s.start)
    requires talk.Ok? ==> RepRounds(s.start, 0.0, s.observations, 5, s.lines) == Some((end, s.clock, |s.observations| - 1))
    requires talk.Ok? ==> P.Do(end, P.SendFinish(At(s.clock))).reply.Ok? && s.twin == P.Do(end, P.SendFinish(At(s.clock))).core
    modifies s`observations, core
    ensures |report.observations| <= 17
    ensures live == null || live == core
    ensures IsPositive(report.verdict) <==> live != null && live.phase.DONE?
    ensures IsPositive(report.verdict) ==> Concluded(core, s.lines) && report.verdict == Of(core.outcome)
    ensures report.verdict == Of(P.Fail) ==> !s.case_.Control? && ShowsFailure(report.observations)
    ensures report.verdict.Incompatible? ==> !s.case_.Control?
    ensures IsPositive(report.verdict) ==> talk.Ok? && report.verdict == Of(P.Positive(s.case_)) && |report.observations| <= 16
    ensures IsPositive(report.verdict) ==> Validates(report, s.lines, s.case_, s.expected, s.digester, report.digest)
  {
    hide P.Valid, P.Do, Twin, HeldDecoder.DecodeHeld, AllSeen, RepRounds, Prelude, Validates, AllHeld;
    live := null;
    var confirmed := false;
    if talk.Err? && talk.error == OBSERVED && !s.case_.Control? {
      confirmed := Confirm(s, core);
    }
    report := Blank(s.observations, s.modules, settled);
    var natural := if talk.Ok? then Some(talk.value) else if refused.Some? then Some(refused.value.0) else None;
    var wanted := if talk.Ok? then Some(0) else if refused.Some? then Some(refused.value.1) else None;
    if !cleaned || !Settled(settled, natural, wanted) { return; }
    if confirmed {
      report := report.(verdict := Of(P.Fail));
    } else if talk.Err? {
      if !s.case_.Control? && wanted.Some? && 72 <= wanted.value <= 73 && talk.error.Refused?
         && (talk.error.failure.MemoryFailure? || talk.error.failure.RefusedFailure?) {
        report := report.(verdict := Incompatible);
      }
    } else {
      report := Conclude(s, core, report, settled, end);
      live := core;
    }
  }

  /** The last observation is past the limit, or grew by more than the whole target. */
  predicate ShowsFailure(obs: seq<Observation>) {
    obs != [] && (obs[|obs| - 1].vm.peak > P.AS_BYTES || obs[|obs| - 1].vm.size > TARGET)
  }

  lemma NothingSeen(case_: P.Case, pid: int)
    ensures AllSeen([], case_, pid) && AllHeld([])
  {
  }

  /** After an observed failure: one more look, without any call to the core. */
  method Confirm(s: Supervision, core: P.PressureProtocol) returns (confirmed: bool)
    requires |s.observations| <= 16
    modifies s`observations
    ensures |s.observations| <= 17
    ensures confirmed ==> ShowsFailure(s.observations)
  {
    var fds := if |s.observations| >= 1 then s.observations[0].fds else None;
    var o := s.Observe(!s.stage.ImportStage?, fds);
    return o.Ok? && (o.value.vm.peak > P.AS_BYTES
                     || (s.stage.HeldStage? && core.preSize > 0 && o.value.vm.size >= core.preSize + TARGET));
  }

  /** The core's own conclusion, with the digest of the control case. */
  method Conclude(s: Supervision, core: P.PressureProtocol, blank: Report, c: Cleanup, ghost end: Core) returns (report: Report)
    requires s.Owns(core) && core.phase.EXITING? && |s.lines| == Count(s.case_) && 6 <= |s.observations| <= 16
    requires blank == Blank(s.observations, s.modules, c) && c.confirmed && c.inventory == [1]
    requires Prelude(s.case_, s.expected, s.pid, s.digester, s.observations[0], s.modules, s.observations[4]) == Some(s.start)
    requires RepRounds(s.start, 0.0, s.observations, 5, s.lines) == Some((end, s.clock, |s.observations| - 1))
    requires P.Do(end, P.SendFinish(At(s.clock))).reply.Ok? && s.twin == P.Do(end, P.SendFinish(At(s.clock))).core
    modifies core
    ensures report.observations == s.observations
    ensures IsPositive(report.verdict) <==> core.phase.DONE?
    ensures IsPositive(report.verdict) ==> Concluded(core, s.lines) && report.verdict == Of(core.outcome)
    ensures !IsPositive(report.verdict) ==> report.verdict == Of(P.Inconclusive)
    ensures IsPositive(report.verdict) ==>
      report.verdict == Of(P.Positive(s.case_)) && Validates(report, s.lines, s.case_, s.expected, s.digester, report.digest)
  {
    hide P.Do, Twin, HeldDecoder.DecodeHeld, AllSeen, RepRounds, Prelude, Validates, AllHeld;
    report := blank;
    if c.returncode.None? { return; }
    ValidPid(core.State());
    hide P.Valid;
    ghost var c0 := core.State();
    var now: Reading := Answer();
    var done := core.DoCompleted(now, true, true, c.returncode.value, true, c.inventory);
    ghost var call := P.Completed(now, true, true, c.returncode.value, true, c.inventory);
    CompletedReply(c0, call);
    if done.Err? { return; }
    ReportAfter(c0, call);
    TwinStep(c0, s.twin, s.clock, call);
    ghost var c1, t1 := core.State(), P.Do(s.twin, Retimed(call, s.clock)).core;
    TwinOutcome(c1, t1, s.clock);
    var outcome := core.outcome;
    var digest: Option<string> := None;
    if s.case_.Control? {
      var later: Reading := Answer();
      var hash := core.DoControlDigest(later);
      DigestReply(c1, P.ControlDigest(later));
      if hash.Err? || !hash.value.Hash? { return; }
      ReportAfter(c1, P.ControlDigest(later));
      TwinStep(c1, t1, s.clock, P.ControlDigest(later));
      digest := Some(hash.value.digest);
    }
    report := blank.(verdict := Of(outcome), digest := digest);
    assert RepEnd(end, s.clock, report, report.digest);
    RecordReplays(report, s.lines, s.case_, s.expected, s.digester, s.pid, s.start, end, s.clock);
  }

  lemma ValidPid(c: Core)
    requires P.Valid(c)
    ensures c.pid >= 2
  {
  }

  lemma TwinOutcome(c: Core, s: Core, clock: real)
    requires Twin(c, s, clock)
    ensures s.outcome == c.outcome && s.case_ == c.case_
  {
  }
}
