/** The admission probe's measurement and labels, and the host's check of a label it was handed. */
module Classification {
  import opened Common

  const LIMIT_SECONDS := 3.0

  datatype Stage = ADMIT | HOST | CONTEXT | FINAL_PINS

  const STAGES := [ADMIT, HOST, CONTEXT, FINAL_PINS]

  datatype Label = WITHIN_3S | OVER_3S | CLOCK_INVALID | STAGE_FAILED

  datatype Category = STAGE_EXCEPTION | CATEGORY_CLOCK_INVALID

  /** A tick that is no int is None; a float that is not finite is Invalid. */
  datatype Measurement = Measurement(started: Reading, ended: Reading, ticks: seq<Option<int>>, failed: Option<Stage>)

  datatype Classified = Classified(outcome: Label, stage: Option<Stage>, category: Option<Category>,
                                   clockValid: bool, elapsed: Option<real>, deltas: Option<seq<Option<int>>>)

  function Index(stage: Stage): nat {
    match stage case ADMIT => 0 case HOST => 1 case CONTEXT => 2 case FINAL_PINS => 3
  }

  // ---------------------------------------------------------------- the stage loop

  /** One tick before the first stage and one after each stage that ran; a failed stage is the last. */
  predicate Producible(m: Measurement) {
    |m.ticks| == if m.failed.Some? then Index(m.failed.value) + 2 else |STAGES| + 1
  }

  /** One pass over the stages, whatever they and the clocks do. */
  method Measure(completes: Stage -> bool) returns (m: Measurement)
    ensures Producible(m)
    ensures m.failed.Some? ==> !completes(m.failed.value)
    ensures forall k :: 0 <= k < (if m.failed.Some? then Index(m.failed.value) else |STAGES|) ==> completes(STAGES[k])
  {
    var started: Reading := Answer();
    var tick: Option<int> := Answer();
    var ticks, failed := [tick], None;
    var index := 0;
    while index < |STAGES| && failed.None?
      invariant 0 <= index <= |STAGES| && |ticks| == index + 1
      invariant failed.Some? ==> index > 0 && failed.value == STAGES[index - 1] && !completes(failed.value)
      invariant forall k :: 0 <= k < (if failed.Some? then index - 1 else index) ==> completes(STAGES[k])
      decreases |STAGES| - index
    {
      var completed := completes(STAGES[index]);
      tick := Answer();
      ticks := ticks + [tick];
      if !completed {
        failed := Some(STAGES[index]);
      }
      index := index + 1;
    }
    var ended: Reading := Answer();
    m := Measurement(started, ended, ticks, failed);
  }

  // ---------------------------------------------------------------- labels

  predicate Rising(ticks: seq<Option<int>>) {
    && (forall i :: 0 <= i < |ticks| ==> ticks[i].Some?)
    && forall i :: 0 <= i < |ticks| - 1 ==> ticks[i].value <= ticks[i + 1].value
  }

  predicate ClockValid(m: Measurement) {
    m.started.At? && m.ended.At? && Rising(m.ticks) && m.ended.time - m.started.time >= 0.0
  }

  function Deltas(ticks: seq<Option<int>>): seq<Option<int>>
    requires Rising(ticks) && |ticks| >= 1
  {
    seq(|ticks| - 1, i requires 0 <= i < |ticks| - 1 => Some(ticks[i + 1].value - ticks[i].value))
  }

  function Nones(n: nat): seq<Option<int>> { seq(n, _ => None) }

  /** The label of a measurement: a failed stage first, then an invalid clock, then three seconds. */
  function Classify(m: Measurement): Classified
    requires Producible(m)
  {
    var valid := ClockValid(m);
    var elapsed := if valid then Some(m.ended.time - m.started.time) else None;
    var deltas := if valid then Some(Deltas(m.ticks) + Nones(|STAGES| - (|m.ticks| - 1))) else None;
    if m.failed.Some? then Classified(STAGE_FAILED, m.failed, Some(STAGE_EXCEPTION), valid, elapsed, deltas)
    else if !valid then Classified(CLOCK_INVALID, None, Some(CATEGORY_CLOCK_INVALID), valid, elapsed, deltas)
    else Classified(if elapsed.value <= LIMIT_SECONDS then WITHIN_3S else OVER_3S, None, None, valid, elapsed, deltas)
  }

  // ---------------------------------------------------------------- the host's check

  function Filled(deltas: seq<Option<int>>): seq<Option<int>> {
    if deltas == [] then [] else (if deltas[0].Some? then [deltas[0]] else []) + Filled(deltas[1..])
  }

  predicate Nonnegative(deltas: seq<Option<int>>) {
    forall i :: 0 <= i < |deltas| ==> deltas[i].Some? && deltas[i].value >= 0
  }

  /** Finite nonnegative times, one slot per stage, nothing missing but at the end. */
  predicate TimesAccepted(r: Classified) {
    if r.clockValid then
      && r.elapsed.Some? && r.elapsed.value >= 0.0
      && r.deltas.Some? && |r.deltas.value| == |STAGES|
      && var filled := Filled(r.deltas.value);
         Nonnegative(filled) && filled <= r.deltas.value
    else r.elapsed.None? && r.deltas.None?
  }

  /** The relations between the label and the rest, never trusting the label alone. */
  predicate Accepts(r: Classified) {
    TimesAccepted(r) &&
    match r.outcome
    case STAGE_FAILED =>
      r.stage.Some? && r.category == Some(STAGE_EXCEPTION)
      && (r.clockValid ==> |Filled(r.deltas.value)| == Index(r.stage.value) + 1)
    case CLOCK_INVALID => r.stage.None? && r.category == Some(CATEGORY_CLOCK_INVALID) && !r.clockValid
    case _ =>
      r.stage.None? && r.category.None? && r.clockValid && |Filled(r.deltas.value)| == |STAGES|
      && (r.outcome.WITHIN_3S? <==> 0.0 <= r.elapsed.value <= LIMIT_SECONDS)
  }

  // ---------------------------------------------------------------- they agree

  lemma {:induction false} FilledOf(some: seq<Option<int>>, n: nat)
    requires forall i :: 0 <= i < |some| ==> some[i].Some?
    ensures Filled(some + Nones(n)) == some
    decreases |some| + n
  {
    var all := some + Nones(n);
    if some != [] {
      assert all[1..] == some[1..] + Nones(n);
      FilledOf(some[1..], n);
    } else if n > 0 {
      assert all[1..] == [] + Nones(n - 1);
      FilledOf([], n - 1);
    }
  }

  lemma {:induction false} FilledSize(deltas: seq<Option<int>>)
    ensures |Filled(deltas)| <= |deltas|
    ensures Filled(deltas) <= deltas ==> deltas == Filled(deltas) + Nones(|deltas| - |Filled(deltas)|)
  {
    if deltas != [] {
      FilledSize(deltas[1..]);
      var filled, rest := Filled(deltas), Filled(deltas[1..]);
      if filled <= deltas {
        if deltas[0].Some? {
          assert filled[1..] == rest && deltas[1..][..|rest|] == deltas[..|filled|][1..];
          assert deltas == [deltas[0]] + deltas[1..];
        } else {
          NoneFilled(deltas);
        }
      }
    }
  }

  /** If the first slot is missing and the filled ones come first, nothing is filled. */
  lemma {:induction false} NoneFilled(deltas: seq<Option<int>>)
    requires deltas != [] && deltas[0].None? && Filled(deltas) <= deltas
    ensures Filled(deltas) == [] && deltas == Nones(|deltas|)
  {
    AllFilled(deltas);
    if Filled(deltas) == [] {
      EmptyFilled(deltas);
    }
  }

  lemma {:induction false} AllFilled(deltas: seq<Option<int>>)
    ensures forall i :: 0 <= i < |Filled(deltas)| ==> Filled(deltas)[i].Some?
  {
    if deltas != [] {
      AllFilled(deltas[1..]);
    }
  }

  lemma {:induction false} EmptyFilled(deltas: seq<Option<int>>)
    requires Filled(deltas) == []
    ensures deltas == Nones(|deltas|)
  {
    if deltas != [] {
      EmptyFilled(deltas[1..]);
      assert deltas == [deltas[0]] + deltas[1..];
    }
  }

  /** Ticks from zero with these gaps. */
  function Ticks(gaps: seq<Option<int>>): (t: seq<Option<int>>)
    requires Nonnegative(gaps)
    ensures |t| == |gaps| + 1 && Rising(t)
  {
    if gaps == [] then [Some(0)]
    else
      var before := Ticks(gaps[..|gaps| - 1]);
      before + [Some(before[|before| - 1].value + gaps[|gaps| - 1].value)]
  }

  lemma {:induction false} TicksGaps(gaps: seq<Option<int>>)
    requires Nonnegative(gaps)
    ensures Deltas(Ticks(gaps)) == gaps
  {
    if gaps != [] {
      var n := |gaps| - 1;
      TicksGaps(gaps[..n]);
      var before, t := Ticks(gaps[..n]), Ticks(gaps);
      forall i | 0 <= i < |gaps| ensures Deltas(t)[i] == gaps[i] {
        if i < n {
          assert t[i] == before[i] && t[i + 1] == before[i + 1];
          assert Deltas(before)[i] == gaps[..n][i];
        }
      }
    }
  }

  lemma LabelsAccepted(m: Measurement)
    requires Producible(m)
    ensures Accepts(Classify(m))
  {
    if ClockValid(m) {
      var d, n := Deltas(m.ticks), |STAGES| - (|m.ticks| - 1);
      FilledOf(d, n);
      assert (d + Nones(n))[..|d|] == d;
    }
  }

  /** A measurement that gives this result. */
  function Witness(r: Classified): Measurement
    requires Accepts(r)
  {
    var failed := if r.outcome.STAGE_FAILED? then r.stage else None;
    if r.clockValid then Measurement(At(0.0), At(r.elapsed.value), Ticks(Filled(r.deltas.value)), failed)
    else Measurement(Invalid, Invalid, seq(if failed.Some? then Index(failed.value) + 2 else |STAGES| + 1, _ => None), failed)
  }

  lemma AcceptedWitnessed(r: Classified)
    requires Accepts(r)
    ensures Producible(Witness(r)) && Classify(Witness(r)) == r
  {
    if r.clockValid {
      FilledSize(r.deltas.value);
      TicksGaps(Filled(r.deltas.value));
    }
  }

  /** The host accepts exactly the results some run of the stage loop can produce. */
  lemma AcceptsIffProduced(r: Classified)
    ensures Accepts(r) <==> exists m :: Producible(m) && Classify(m) == r
  {
    hide Accepts, Classify, Producible;
    if Accepts(r) {
      AcceptedWitnessed(r);
    }
    forall m | Producible(m) && Classify(m) == r ensures Accepts(r) {
      LabelsAccepted(m);
    }
  }
}
