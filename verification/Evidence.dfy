/**
  Supervision of one member, the tap that keeps its HELD lines, and the offline replay of what
  was recorded. The replay drives a core of its own with synthetic time.
*/
module Evidence {
  import opened Common
  import opened Held
  import HeldDecoder
  import P = Pressure
  import C = Collect

  type Core = P.Core

  const CAP := 24
  const TAPPED := 2
  const REPLAY_SECONDS := 20.0

  datatype Observation = Observation(vm: Vm, limits: Limits, ppid: int, fds: Option<C.Effects>, inventory: seq<int>, anon: int)

  datatype Verdict = Of(outcome: P.Outcome) | Incompatible

  datatype Report = Report(observations: seq<Observation>, modules: seq<P.Row>, verdict: Verdict,
                           returncode: Option<int>, finalInventory: seq<int>, digest: Option<string>)

  // ---------------------------------------------------------------- replay, as a function

  /** Waits and samples until the core is satisfied; every observation used is one further on. */
  function RepSamples(c: Core, now: real, obs: seq<Observation>, index: nat): Option<(Core, real, nat)>
    decreases |obs| - index
  {
    var w := P.Do(c, P.ReleaseWait(At(now)));
    if w.reply.Err? || index >= |obs| then None
    else
      var s := P.Do(w.core, P.ReleaseSample(At(now + 1.0), obs[index].vm, obs[index].limits, obs[index].anon));
      if s.reply.Err? then None
      else if s.reply.value == P.Complete(true) then Some((s.core, now + 1.0, index + 1))
      else RepSamples(s.core, now + 1.0, obs, index + 1)
  }

  function RepPressure(c: Core, now: real, o: Observation): P.Step { P.Do(c, P.Pressure(At(now), o.vm, o.limits)) }

  function RepRelease(c: Core, now: real, o: Observation): P.Step {
    P.Do(c, P.SendRelease(At(now), o.vm, o.limits, o.anon, o.inventory))
  }

  function RepReleased(c: Core, now: real, o: Observation): P.Step {
    P.Do(c, P.Released(At(now), o.vm, o.limits, o.anon))
  }

  /** One recorded line and the observations around it. */
  function RepRound(c: Core, now: real, obs: seq<Observation>, index: nat, raw: string): Option<(Core, real, nat)> {
    if index >= |obs| || RepPressure(c, now, obs[index]).reply.Err? then None
    else
      var h := P.Do(RepPressure(c, now, obs[index]).core, P.ReportHeld(At(now), raw));
      if h.reply.Err? || index + 1 >= |obs| || RepRelease(h.core, now, obs[index + 1]).reply.Err? then None
      else
        var r := RepRelease(h.core, now, obs[index + 1]).core;
        if index + 2 >= |obs| || RepReleased(r, now, obs[index + 2]).reply.Err? then None
        else
          var d := RepReleased(r, now, obs[index + 2]);
          if d.reply.value == P.Complete(true) then Some((d.core, now, index + 3)) else RepSamples(d.core, now, obs, index + 3)
  }

  function RepRounds(c: Core, now: real, obs: seq<Observation>, index: nat, lines: seq<string>): Option<(Core, real, nat)>
    decreases |lines|
  {
    if lines == [] then Some((c, now, index))
    else
      var r := RepRound(c, now, obs, index, lines[0]);
      if r.None? then None else RepRounds(r.value.0, r.value.1, obs, r.value.2, lines[1..])
  }

  /** Creation, the first observation and the admitted inventory, all at time zero. */
  function Prelude(case_: P.Case, expected: string, pid: int, digester: P.Digester,
                   first: Observation, modules: seq<P.Row>, loaded: Observation): Option<Core> {
    var c := P.Create(case_, expected, pid, REPLAY_SECONDS, digester, At(0.0));
    if c.Err? then None
    else
      var r := P.Do(c.value, P.Ready(At(0.0), first.vm, first.limits, pid, 1));
      if r.reply.Err? then None
      else
        var a := P.Do(r.core, P.AdmitImports(At(0.0), At(0.0), modules, loaded.vm, loaded.limits));
        if a.reply.Err? then None else Some(a.core)
  }

  /** The recorded end, and for the control case the recorded digest. */
  function RepEnd(c: Core, now: real, report: Report, digest: Option<string>): bool {
    var f := P.Do(c, P.SendFinish(At(now)));
    f.reply.Ok? && report.returncode.Some? &&
    var d := P.Do(f.core, P.Completed(At(now), true, true, report.returncode.value, true, report.finalInventory));
    d.reply.Ok? && report.verdict == Of(d.core.outcome) &&
    (d.core.case_.Control? ==>
      var k := P.Do(d.core, P.ControlDigest(At(now)));
      k.reply.Ok? && k.reply.value.Hash? && Some(k.reply.value.digest) == report.digest == digest)
  }

  predicate Shape(obs: seq<Observation>) {
    && |obs| >= 5 && |obs[0].inventory| >= 2 && obs[0].inventory[1] >= 2
    && (forall i :: 0 <= i < |obs| ==> obs[i].inventory == [1, obs[0].inventory[1]])
    && (forall i :: 1 <= i < 4 ==> obs[i].fds.None?)
  }

  /** The replay accepts the report with these lines. */
  predicate Replays(report: Report, lines: seq<string>, case_: P.Case, expected: string, digester: P.Digester, digest: Option<string>) {
    var obs := report.observations;
    Shape(obs) &&
    var start := Prelude(case_, expected, obs[0].inventory[1], digester, obs[0], report.modules, obs[4]);
    start.Some? &&
    var end := RepRounds(start.value, 0.0, obs, 5, lines);
    end.Some? && end.value.2 == |obs| - 1 && obs[end.value.2].fds == obs[0].fds
    && RepEnd(end.value.0, end.value.1, report, digest)
  }

  function Count(case_: P.Case): nat { if case_.Control? then 2 else 1 }

  /** The rule for a positive report: the case's number of lines, every one a report, and the replay. */
  predicate Validates(report: Report, lines: seq<string>, case_: P.Case, expected: string, digester: P.Digester, digest: Option<string>) {
    && |lines| == Count(case_) && (forall i :: 0 <= i < |lines| ==> HeldDecoder.DecodeHeld(lines[i]).Some?)
    && Replays(report, lines, case_, expected, digester, digest)
  }

  // ---------------------------------------------------------------- what an accepted replay means

  /** Lines still to come before the core can finish. */
  function Remaining(c: Core): int {
    if c.phase.FINISH_READY? then 0 else if c.case_.Control? && c.kind.Private? then 2 else 1
  }

  /** Between rounds the core is admitted or ready to finish. */
  predicate Between(c: Core) { P.Valid(c) && (c.phase.ADMITTED? || c.phase.FINISH_READY?) }

  lemma {:induction false} SamplesEnd(c: Core, now: real, obs: seq<Observation>, index: nat)
    requires P.Valid(c) && c.phase.RELEASE_CHECK? && RepSamples(c, now, obs, index).Some?
    ensures var end := RepSamples(c, now, obs, index).value.0;
      Between(end) && end.case_ == c.case_ && end.phase.ADMITTED? && Remaining(end) == 1
    decreases |obs| - index
  {
    var wait := P.ReleaseWait(At(now));
    var w := P.Do(c, wait).core;
    var call := P.ReleaseSample(At(now + 1.0), obs[index].vm, obs[index].limits, obs[index].anon);
    P.StepKeeps(c, wait);
    P.StepKeeps(w, call);
    WaitStays(c, wait);
    CheckLeads(w, call);
    SamplingIsPrivate(c);
    hide P.Valid, P.Do, P.Kept;
    if P.Do(w, call).reply.value != P.Complete(true) {
      SamplesEnd(P.Do(w, call).core, now + 1.0, obs, index + 1);
    }
  }

  lemma WaitStays(c: Core, call: P.Call)
    requires call.ReleaseWait? && P.Do(c, call).reply.Ok?
    ensures P.Do(c, call).core == c.(last := P.Do(c, call).core.last)
  {
  }

  lemma SamplingIsPrivate(c: Core)
    requires P.Valid(c) && c.phase.RELEASE_CHECK?
    ensures c.case_.Control? && c.kind.Private?
  {
  }

  lemma CheckLeads(c: Core, call: P.Call)
    requires (call.Released? || call.ReleaseSample?) && P.Do(c, call).reply.Ok?
    ensures var t := P.Do(c, call);
      && t.core.case_ == c.case_ && t.reply.value.Complete?
      && if !c.case_.Control? || c.kind.Shared? then t.reply.value.yes && t.core.phase.FINISH_READY?
         else if t.reply.value.yes then t.core.phase.ADMITTED? && t.core.kind.Shared?
         else t.core.phase.RELEASE_CHECK?
  {
    hide P.Facts;
  }

  lemma PressLeads(c: Core, pressure: P.Call, held: P.Call, release: P.Call)
    requires pressure.Pressure? && held.ReportHeld? && release.SendRelease?
    requires P.Do(c, pressure).reply.Ok? && P.Do(P.Do(c, pressure).core, held).reply.Ok?
    requires P.Do(P.Do(P.Do(c, pressure).core, held).core, release).reply.Ok?
    ensures var d := P.Do(P.Do(P.Do(c, pressure).core, held).core, release).core;
      c.phase.ADMITTED? && d.phase.RELEASE_SENT? && d.case_ == c.case_ && d.kind == c.kind
    ensures HeldDecoder.DecodeHeld(held.raw).Some?
  {
    hide HeldDecoder.DecodeHeld, P.Judge, P.Facts;
  }

  lemma RoundEnd(c: Core, now: real, obs: seq<Observation>, index: nat, raw: string)
    requires Between(c) && RepRound(c, now, obs, index, raw).Some?
    ensures var end := RepRound(c, now, obs, index, raw).value.0;
      Between(end) && end.case_ == c.case_ && Remaining(end) == Remaining(c) - 1 && c.phase.ADMITTED?
    ensures HeldDecoder.DecodeHeld(raw).Some?
  {
    var o, q, z := obs[index], obs[index + 1], obs[index + 2];
    var pressure, held := P.Pressure(At(now), o.vm, o.limits), P.ReportHeld(At(now), raw);
    var release := P.SendRelease(At(now), q.vm, q.limits, q.anon, q.inventory);
    var released := P.Released(At(now), z.vm, z.limits, z.anon);
    var c1 := P.Do(c, pressure).core;
    var c2 := P.Do(c1, held).core;
    var c3 := P.Do(c2, release).core;
    P.StepKeeps(c, pressure);
    P.StepKeeps(c1, held);
    P.StepKeeps(c2, release);
    P.StepKeeps(c3, released);
    PressLeads(c, pressure, held, release);
    CheckLeads(c3, released);
    KindOfCase(c);
    hide P.Valid, P.Do, P.Kept, RepSamples, HeldDecoder.DecodeHeld;
    var d := P.Do(c3, released);
    if d.reply.value != P.Complete(true) {
      SamplesEnd(d.core, now, obs, index + 3);
    }
  }

  lemma KindOfCase(c: Core)
    requires P.Valid(c)
    ensures c.phase.ADMITTED? ==> c.case_.Control? || c.kind == P.FirstKind(c.case_)
  {
  }

  lemma {:induction false} RoundsEnd(c: Core, now: real, obs: seq<Observation>, index: nat, lines: seq<string>)
    requires Between(c) && RepRounds(c, now, obs, index, lines).Some?
    ensures var end := RepRounds(c, now, obs, index, lines).value.0;
      Between(end) && end.case_ == c.case_ && Remaining(end) == Remaining(c) - |lines|
    ensures forall i :: 0 <= i < |lines| ==> HeldDecoder.DecodeHeld(lines[i]).Some?
    decreases |lines|
  {
    hide RepRound, HeldDecoder.DecodeHeld, P.Valid;
    if lines != [] {
      var r := RepRound(c, now, obs, index, lines[0]).value;
      RoundEnd(c, now, obs, index, lines[0]);
      RoundsEnd(r.0, r.1, obs, r.2, lines[1..]);
      forall i | 0 < i < |lines| ensures HeldDecoder.DecodeHeld(lines[i]).Some? {
        assert lines[i] == lines[1..][i - 1];
      }
    }
  }

  /** The separate count of lines adds nothing: what the replay accepts has it, and is positive for its case. */
  lemma ReplayCounts(report: Report, lines: seq<string>, case_: P.Case, expected: string, digester: P.Digester, digest: Option<string>)
    requires Replays(report, lines, case_, expected, digester, digest)
    ensures Validates(report, lines, case_, expected, digester, digest)
    ensures report.verdict == Of(P.Positive(case_)) && report.finalInventory == [1] && report.returncode == Some(0)
  {
    var obs := report.observations;
    var pid := obs[0].inventory[1];
    PreludeLeads(case_, expected, pid, digester, obs[0], report.modules, obs[4]);
    var start := Prelude(case_, expected, pid, digester, obs[0], report.modules, obs[4]).value;
    hide Prelude;
    RoundsEnd(start, 0.0, obs, 5, lines);
    var end := RepRounds(start, 0.0, obs, 5, lines).value;
    hide RepRounds, HeldDecoder.DecodeHeld;
    EndLeads(end.0, end.1, report, digest);
    hide RepEnd;
  }

  lemma PreludeLeads(case_: P.Case, expected: string, pid: int, digester: P.Digester,
                     first: Observation, modules: seq<P.Row>, loaded: Observation)
    requires Prelude(case_, expected, pid, digester, first, modules, loaded).Some?
    ensures var s := Prelude(case_, expected, pid, digester, first, modules, loaded).value;
      Between(s) && s.phase.ADMITTED? && s.case_ == case_ && Remaining(s) == Count(case_)
  {
    P.CreateIsValid(case_, expected, pid, REPLAY_SECONDS, digester, At(0.0));
    var c := P.Create(case_, expected, pid, REPLAY_SECONDS, digester, At(0.0)).value;
    hide P.Create;
    var ready := P.Ready(At(0.0), first.vm, first.limits, pid, 1);
    var admit := P.AdmitImports(At(0.0), At(0.0), modules, loaded.vm, loaded.limits);
    P.StepKeeps(c, ready);
    P.StepKeeps(P.Do(c, ready).core, admit);
    AdmitLeads(P.Do(c, ready).core, admit);
    hide P.Valid, P.Do, P.Kept;
  }

  lemma AdmitLeads(c: Core, admit: P.Call)
    requires P.Valid(c) && admit.AdmitImports? && P.Do(c, admit).reply.Ok?
    ensures var d := P.Do(c, admit).core; d.phase.ADMITTED? && d.kind == P.FirstKind(d.case_)
  {
    hide P.Facts, P.Basic;
  }

  lemma EndLeads(c: Core, now: real, report: Report, digest: Option<string>)
    requires RepEnd(c, now, report, digest)
    ensures c.phase.FINISH_READY? && report.verdict == Of(P.Positive(c.case_))
    ensures report.finalInventory == [1] && report.returncode == Some(0)
  {
  }

  // ---------------------------------------------------------------- replay, as it runs

  /** The loop of waits and samples over the recorded observations. */
  method ReplaySamples(core: P.PressureProtocol, start: real, obs: seq<Observation>, from: nat)
    returns (ok: bool, now: real, index: nat)
    modifies core
    ensures match RepSamples(old(core.State()), start, obs, from)
      case None => !ok
      case Some(end) => ok && core.State() == end.0 && now == end.1 && index == end.2
  {
    hide P.Do;
    now, index := start, from;
    var complete := false;
    while !complete
      invariant !complete ==> RepSamples(old(core.State()), start, obs, from) == RepSamples(core.State(), now, obs, index)
      invariant complete ==> RepSamples(old(core.State()), start, obs, from) == Some((core.State(), now, index))
      decreases !complete, |obs| - index
    {
      var delay := core.DoReleaseWait(At(now));
      if delay.Err? {
        return false, now, index;
      }
      now := now + 1.0;
      if index >= |obs| {
        return false, now, index;
      }
      var reply := core.DoReleaseSample(At(now), obs[index].vm, obs[index].limits, obs[index].anon);
      if reply.Err? {
        return false, now, index;
      }
      complete := reply.value == P.Complete(true);
      index := index + 1;
    }
    return true, now, index;
  }

  method ReplayRound(core: P.PressureProtocol, start: real, obs: seq<Observation>, from: nat, raw: string)
    returns (ok: bool, now: real, index: nat)
    modifies core
    ensures match RepRound(old(core.State()), start, obs, from, raw)
      case None => !ok
      case Some(end) => ok && core.State() == end.0 && now == end.1 && index == end.2
  {
    hide P.Do, RepSamples;
    now, index, ok := start, from, false;
    if index >= |obs| { return; }
    var pressed := core.DoPressure(At(now), obs[index].vm, obs[index].limits);
    if pressed.Err? { return; }
    var held := core.DoHeld(At(now), raw);
    if held.Err? || index + 1 >= |obs| { return; }
    var plateau := obs[index + 1];
    var sent := core.DoRelease(At(now), plateau.vm, plateau.limits, plateau.anon, plateau.inventory);
    if sent.Err? || index + 2 >= |obs| { return; }
    var released := obs[index + 2];
    var complete := core.DoReleased(At(now), released.vm, released.limits, released.anon);
    if complete.Err? { return; }
    index := index + 3;
    if complete.value == P.Complete(true) {
      ok := true;
    } else {
      ok, now, index := ReplaySamples(core, now, obs, index);
    }
  }

  /** The whole replay. */
  method Replay(report: Report, lines: seq<string>, case_: P.Case, expected: string, digester: P.Digester, digest: Option<string>)
    returns (ok: bool)
    ensures ok <==> Replays(report, lines, case_, expected, digester, digest)
  {
    hide P.Do, P.Create, RepRound;
    var obs := report.observations;
    if !Shape(obs) {
      return false;
    }
    var pid := obs[0].inventory[1];
    var core := new P.PressureProtocol(case_, expected, pid, REPLAY_SECONDS, digester);
    var created := core.Open(At(0.0));
    if created.Err? { return false; }
    var ready := core.DoReady(At(0.0), obs[0].vm, obs[0].limits, pid, 1);
    if ready.Err? { return false; }
    var admitted := core.DoAdmitImports(At(0.0), At(0.0), report.modules, obs[4].vm, obs[4].limits);
    if admitted.Err? { return false; }
    ghost var start := core.State();
    assert Prelude(case_, expected, pid, digester, obs[0], report.modules, obs[4]) == Some(start);
    var now := 0.0;
    var index: nat, k: nat := 5, 0;
    assert lines[0..] == lines;
    while k < |lines|
      invariant 0 <= k <= |lines| && core.case_ == case_
      invariant RepRounds(start, 0.0, obs, 5, lines) == RepRounds(core.State(), now, obs, index, lines[k..])
    {
      assert lines[k..][1..] == lines[k + 1..];
      var good;
      good, now, index := ReplayRound(core, now, obs, index, lines[k]);
      if !good { return false; }
      k := k + 1;
    }
    if index != |obs| - 1 || obs[index].fds != obs[0].fds { return false; }
    ghost var last := core.State();
    var finished := core.DoFinish(At(now));
    if finished.Err? || report.returncode.None? { return false; }
    var done := core.DoCompleted(At(now), true, true, report.returncode.value, true, report.finalInventory);
    if done.Err? || report.verdict != Of(core.outcome) { return false; }
    if case_.Control? {
      var hash := core.DoControlDigest(At(now));
      if hash.Err? || !hash.value.Hash? { return false; }
      return Some(hash.value.digest) == report.digest && report.digest == digest;
    }
    return true;
  }
}
