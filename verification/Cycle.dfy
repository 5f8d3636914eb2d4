/**
  Age admission of one Desktop cycle: a pure automaton over externally sampled clocks.
  Nothing here reads a clock; a sample carries the boot identity, the tick counter in
  milliseconds and the UTC file time in 100 ns units.
*/
module Cycle {
  import opened Common

  const TOTAL_MS := 300000
  const GAP_MS := 30000
  const OBSERVE_MIN_MS := 10000
  const OBSERVATIONS := 9
  const UTC_SLACK_100NS := 20000000
  const MAX_U64 := 0x1_0000_0000_0000_0000 - 1
  const MAX_FILETIME := 0x8000_0000_0000_0000 - 1

  datatype Sample = Sample(boot: nat, tick: nat, utc: nat)

  predicate ValidSample(s: Sample) {
    0 < s.boot <= MAX_FILETIME && s.tick <= MAX_U64 && 0 < s.utc <= MAX_FILETIME
  }

  datatype Phase = A | Observing | Ready | Failed | Aborted | BConsumed

  /** The caller's action word; any other text is out of order. */
  datatype Action = START | OBSERVE | READY | CONSUME | Other(text: string)

  datatype Reason = Order | Terminal | Boot | Rollback | Disagreement | TotalAge | Gap | TooEarly

  datatype Cycle = Cycle(anchor: Sample, last: Sample, phase: Phase, observations: int, failure: Option<Reason>)

  datatype Admission = Admission(state: Cycle, accepted: bool, reason: Option<Reason>)

  function Abs(i: int): nat { if i < 0 then -i else i }

  /** The UTC clock may drift from the tick clock by 2 s plus 0.1 % of the ticks. */
  predicate Agrees(base: Sample, s: Sample) {
    Abs((s.utc - base.utc) - (s.tick - base.tick) * 10000) <= UTC_SLACK_100NS + (s.tick - base.tick) * 10
  }

  predicate IsTerminal(p: Phase) { p.Failed? || p.Aborted? || p.BConsumed? }

  function ExtraGaps(p: Phase): nat {
    match p
    case A => 0
    case Observing => 0
    case Ready => 1
    case _ => 2
  }

  /** What the constructor of a cycle demands; it refuses everything else. */
  predicate Valid(c: Cycle) {
    var elapsed := c.last.tick - c.anchor.tick;
    && ValidSample(c.anchor) && ValidSample(c.last)
    && 0 <= c.observations <= OBSERVATIONS
    && c.anchor.boot == c.last.boot
    && c.last.tick >= c.anchor.tick && c.last.utc >= c.anchor.utc
    && c.observations * OBSERVE_MIN_MS <= elapsed <= TOTAL_MS
    && elapsed <= (c.observations + ExtraGaps(c.phase)) * GAP_MS
    && Agrees(c.anchor, c.last)
    && (c.phase.Failed? <==> c.failure.Some?)
    && (c.phase.A? ==> c.observations == 0 && c.anchor == c.last)
    && (c.phase.Observing? ==> 1 <= c.observations)
    && (c.phase.Ready? || c.phase.BConsumed? ==> c.observations == OBSERVATIONS)
  }

  function Start(s: Sample): Cycle { Cycle(s, s, A, 0, None) }

  function CheckBase(base: Sample, s: Sample): Option<Reason> {
    if s.tick < base.tick || s.utc < base.utc then Some(Rollback)
    else if !Agrees(base, s) then Some(Disagreement)
    else None
  }

  function CheckAge(c: Cycle, s: Sample): Option<Reason> {
    if s.boot != c.anchor.boot then Some(Boot)
    else if CheckBase(c.anchor, s).Some? then CheckBase(c.anchor, s)
    else if CheckBase(c.last, s).Some? then CheckBase(c.last, s)
    else if s.tick - c.anchor.tick > TOTAL_MS then Some(TotalAge)
    else if s.tick - c.last.tick > GAP_MS then Some(Gap)
    else None
  }

  function Move(c: Cycle, s: Sample, action: Action): Result<(int, Phase), Reason> {
    if action.OBSERVE? && (c.phase.A? || c.phase.Observing?) && c.observations < OBSERVATIONS then
      if s.tick - c.last.tick < OBSERVE_MIN_MS then Err(TooEarly)
      else Ok((c.observations + 1, Observing))
    else if action.READY? && c.phase.Observing? && c.observations == OBSERVATIONS then
      Ok((c.observations, Ready))
    else if action.CONSUME? && c.phase.Ready? then
      Ok((c.observations, BConsumed))
    else
      Err(Order)
  }

  function Refuse(c: Cycle, reason: Reason): Admission {
    Admission(c.(phase := Failed, failure := Some(reason)), false, Some(reason))
  }

  function Advance(c: Cycle, s: Sample, action: Action): Admission {
    if IsTerminal(c.phase) then Admission(c, false, Some(Terminal))
    else
      var age := CheckAge(c, s);
      if age.Some? then Refuse(c, age.value)
      else
        var move := Move(c, s, action);
        if move.Err? then Refuse(c, move.error)
        else Admission(Cycle(c.anchor, s, move.value.1, move.value.0, None), true, None)
  }

  function Abort(c: Cycle): Cycle {
    if IsTerminal(c.phase) then c else c.(phase := Aborted)
  }

  // ---------------------------------------------------------------- one step

  /** No transition ever builds a state its constructor would refuse. */
  lemma AdvanceStaysValid(c: Cycle, s: Sample, action: Action)
    requires Valid(c) && ValidSample(s)
    ensures Valid(Advance(c, s, action).state) && Valid(Abort(c))
  {
  }

  /** A refusal keeps the clock evidence; a terminal state keeps everything. */
  lemma RefusalKeepsEvidence(c: Cycle, s: Sample, action: Action)
    requires Valid(c)
    ensures var r := Advance(c, s, action);
      && r.state.anchor == c.anchor
      && (r.accepted <==> r.reason.None?)
      && (r.accepted ==> r.state.last == s && !IsTerminal(c.phase))
      && (!r.accepted ==> r.state.last == c.last && r.state.observations == c.observations && IsTerminal(r.state.phase))
      && (IsTerminal(c.phase) ==> r.state == c && Abort(c) == c)
  {
  }

  // ---------------------------------------------------------------- whole runs

  datatype Step = Step(sample: Sample, action: Action)

  /** The state after a run whose every step is accepted, or None once one is refused. */
  function Run(c: Cycle, steps: seq<Step>): Option<Cycle>
    decreases |steps|
  {
    if steps == [] then Some(c)
    else
      var r := Advance(c, steps[0].sample, steps[0].action);
      if r.accepted then Run(r.state, steps[1..]) else None
  }

  /** The only action word that reaches consumption. */
  function Word(n: nat): Action
    requires n < 11
  {
    if n < 9 then OBSERVE else if n == 9 then READY else CONSUME
  }

  function PhaseAt(n: nat): Phase
    requires n <= 11
  {
    if n == 0 then A else if n <= 9 then Observing else if n == 10 then Ready else BConsumed
  }

  function Clock(anchor: Sample, steps: seq<Step>, i: nat): Sample
    requires i <= |steps|
  {
    if i == 0 then anchor else steps[i - 1].sample
  }

  /** The admission conditions of step i, stated on the samples alone. */
  predicate StepAdmissible(anchor: Sample, steps: seq<Step>, i: nat)
    requires i < |steps| && i < 11
  {
    var prev, s := Clock(anchor, steps, i), steps[i].sample;
    && steps[i].action == Word(i)
    && s.boot == anchor.boot
    && anchor.tick <= s.tick <= anchor.tick + TOTAL_MS && anchor.utc <= s.utc
    && prev.tick <= s.tick <= prev.tick + GAP_MS && prev.utc <= s.utc
    && Agrees(anchor, s) && Agrees(prev, s)
    && (i < 9 ==> s.tick - prev.tick >= OBSERVE_MIN_MS)
  }

  predicate Admissible(anchor: Sample, steps: seq<Step>) {
    |steps| <= 11 && forall i :: 0 <= i < |steps| ==> StepAdmissible(anchor, steps, i)
  }

  function Reached(anchor: Sample, steps: seq<Step>): Cycle
    requires |steps| <= 11
  {
    Cycle(anchor, Clock(anchor, steps, |steps|), PhaseAt(|steps|), Min(|steps|, 9), None)
  }

  lemma {:induction false} RunAppend(c: Cycle, steps: seq<Step>, step: Step)
    ensures var mid := Run(c, steps);
      Run(c, steps + [step]) ==
        if mid.None? then None
        else var r := Advance(mid.value, step.sample, step.action); if r.accepted then Some(r.state) else None
    decreases |steps|
  {
    if steps == [] {
      assert ([] + [step])[1..] == [];
    } else {
      assert (steps + [step])[1..] == steps[1..] + [step];
      var r := Advance(c, steps[0].sample, steps[0].action);
      if r.accepted { RunAppend(r.state, steps[1..], step); }
    }
  }

  /** The accepted runs from a start are exactly the admissible ones, and the state is a function of them. */
  lemma {:induction false} AcceptedRuns(anchor: Sample, steps: seq<Step>)
    ensures Run(Start(anchor), steps).Some? <==> Admissible(anchor, steps)
    ensures Admissible(anchor, steps) ==> Run(Start(anchor), steps) == Some(Reached(anchor, steps))
    decreases |steps|
  {
    if steps != [] {
      var n := |steps| - 1;
      var init, step := steps[..n], steps[n];
      assert steps == init + [step];
      AcceptedRuns(anchor, init);
      RunAppend(Start(anchor), init, step);
      assert forall i :: 0 <= i < n && i < 11 ==>
        (StepAdmissible(anchor, init, i) <==> StepAdmissible(anchor, steps, i));
      if Admissible(anchor, init) {
        assert Clock(anchor, init, n) == Clock(anchor, steps, n);
        LastStep(anchor, steps);
      }
    }
  }

  lemma LastStep(anchor: Sample, steps: seq<Step>)
    requires 1 <= |steps| <= 12
    ensures var n := |steps| - 1;
      var r := Advance(Reached(anchor, steps[..n]), steps[n].sample, steps[n].action);
      && (r.accepted <==> n < 11 && StepAdmissible(anchor, steps, n))
      && (r.accepted ==> r.state == Reached(anchor, steps))
  {
    var n := |steps| - 1;
    assert Clock(anchor, steps[..n], n) == Clock(anchor, steps, n);
  }

  /** Consumption takes nine observations, one READY and one B, between 90 s and 300 s after the anchor. */
  lemma ConsumptionIsEleven(anchor: Sample, steps: seq<Step>)
    requires Run(Start(anchor), steps).Some? && Run(Start(anchor), steps).value.phase.BConsumed?
    ensures |steps| == 11
    ensures forall i :: 0 <= i < 11 ==> steps[i].action == Word(i)
    ensures 90000 <= steps[10].sample.tick - anchor.tick <= TOTAL_MS
  {
    AcceptedRuns(anchor, steps);
    assert Reached(anchor, steps).phase == PhaseAt(|steps|);
    ElevenSteps(anchor, steps);
  }

  lemma ElevenSteps(anchor: Sample, steps: seq<Step>)
    requires Admissible(anchor, steps) && |steps| == 11
    ensures forall i :: 0 <= i < 11 ==> steps[i].action == Word(i)
    ensures 90000 <= steps[10].sample.tick - anchor.tick <= TOTAL_MS
  {
    forall i | 0 <= i < 11 ensures steps[i].action == Word(i) {
      assert StepAdmissible(anchor, steps, i);
    }
    Spread(anchor, steps, 9);
    assert StepAdmissible(anchor, steps, 9) && StepAdmissible(anchor, steps, 10);
  }

  lemma {:induction false} Spread(anchor: Sample, steps: seq<Step>, n: nat)
    requires Admissible(anchor, steps) && n <= 9 && n <= |steps|
    ensures Clock(anchor, steps, n).tick - anchor.tick >= n * OBSERVE_MIN_MS
  {
    if n > 0 {
      Spread(anchor, steps, n - 1);
      assert StepAdmissible(anchor, steps, n - 1);
    }
  }

  /** Any two accepted samples drift apart by at most the two anchor allowances. */
  lemma DriftBetweenSamples(anchor: Sample, steps: seq<Step>, i: nat, j: nat)
    requires Run(Start(anchor), steps).Some? && i < j <= |steps|
    ensures var a, b := Clock(anchor, steps, i), Clock(anchor, steps, j);
      && a.tick <= b.tick && a.utc <= b.utc
      && Abs((b.utc - a.utc) - (b.tick - a.tick) * 10000)
           <= 2 * UTC_SLACK_100NS + ((a.tick - anchor.tick) + (b.tick - anchor.tick)) * 10
  {
    AcceptedRuns(anchor, steps);
    assert StepAdmissible(anchor, steps, j - 1);
    if i > 0 { assert StepAdmissible(anchor, steps, i - 1); }
    Ordered(anchor, steps, i, j);
  }

  lemma {:induction false} Ordered(anchor: Sample, steps: seq<Step>, i: nat, j: nat)
    requires Admissible(anchor, steps) && i <= j <= |steps|
    ensures Clock(anchor, steps, i).tick <= Clock(anchor, steps, j).tick
    ensures Clock(anchor, steps, i).utc <= Clock(anchor, steps, j).utc
    decreases j
  {
    if i < j {
      Ordered(anchor, steps, i, j - 1);
      assert StepAdmissible(anchor, steps, j - 1);
    }
  }
}
