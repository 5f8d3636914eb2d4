/**
  The hash-chained checkpoint journal: appended by the coordinator after every accepted
  admission and re-derived by replay. A record stands for its canonical JSON line.
*/
module Journal {
  import opened Common
  import opened Cycle
  import opened CycleCodec

  const KIND := "w1-cycle-checkpoint-v1"
  const MAX_RECORDS := 12

  datatype Record = Record(kind: string, index: int, action: Action, sample: Sample, stateEncoded: string, previous: string)

  datatype Fault = Count | Chain | BadSample | BadAction | Refused | State | Transition | Incomplete | Schema

  type Hash = Record -> string

  ghost predicate Injective(hash: Hash) { forall a, b :: hash(a) == hash(b) ==> a == b }

  function ZeroHead(): string { seq(64, _ => '0') }

  function Head(hash: Hash, records: seq<Record>): string {
    if records == [] then ZeroHead() else hash(records[|records| - 1])
  }

  function ActionFor(previous: Option<Cycle>, current: Cycle): Result<Action, Fault> {
    if previous.None? then
      if current.phase.A? && current.observations == 0 then Ok(START) else Err(Transition)
    else
      var p := previous.value;
      if current.phase.Observing? && (p.phase.A? || p.phase.Observing?) && current.observations == p.observations + 1
      then Ok(OBSERVE)
      else if current.phase.Ready? && p.phase.Observing? && current.observations == p.observations == 9
      then Ok(READY)
      else if current.phase.BConsumed? && p.phase.Ready? then Ok(CONSUME)
      else Err(Transition)
  }

  // ---------------------------------------------------------------- replay

  /** The state a record claims, recomputed from the state before it. */
  function Recompute(state: Option<Cycle>, rec: Record): Result<Cycle, Fault> {
    if !ValidSample(rec.sample) then Err(BadSample)
    else if state.None? then
      if rec.action == START then Ok(Start(rec.sample)) else Err(BadAction)
    else if rec.action != OBSERVE && rec.action != READY && rec.action != CONSUME then Err(BadAction)
    else
      var a := Advance(state.value, rec.sample, rec.action);
      if a.accepted then Ok(a.state) else Err(Refused)
  }

  function CheckRecord(state: Option<Cycle>, head: string, index: nat, rec: Record): Result<Cycle, Fault> {
    if rec.kind != KIND || rec.index != index || rec.previous != head then Err(Chain)
    else
      var expected := Recompute(state, rec);
      if expected.Err? then expected
      else if rec.stateEncoded != Encode(expected.value) then Err(State)
      else if ActionFor(state, expected.value) != Ok(rec.action) then Err(BadAction)
      else expected
  }

  /** The state after re-deriving every record in order; None before the first. */
  function Derive(hash: Hash, records: seq<Record>): Result<Option<Cycle>, Fault> {
    if records == [] then Ok(None)
    else
      var n := |records| - 1;
      var state := Derive(hash, records[..n]);
      if state.Err? then state
      else
        var next := CheckRecord(state.value, Head(hash, records[..n]), n, records[n]);
        if next.Err? then Err(next.error) else Ok(Some(next.value))
  }

  function ReplaySpec(hash: Hash, records: seq<Record>, requireB: bool): Result<(Cycle, string), Fault> {
    if !(1 <= |records| <= MAX_RECORDS) then Err(Count)
    else
      var state := Derive(hash, records);
      if state.Err? then Err(state.error)
      else if state.value.None? then Err(Count)
      else if requireB && (|records| != 12 || !state.value.value.phase.BConsumed?) then Err(Incomplete)
      else Ok((state.value.value, Head(hash, records)))
  }

  lemma {:induction false} DeriveFailsEarly(hash: Hash, records: seq<Record>, n: nat)
    requires n <= |records| && Derive(hash, records[..n]).Err?
    ensures Derive(hash, records) == Derive(hash, records[..n])
    decreases |records| - n
  {
    if n < |records| {
      assert records[..n + 1][..n] == records[..n];
      DeriveFailsEarly(hash, records, n + 1);
    } else {
      assert records[..n] == records;
    }
  }

  method Replay(hash: Hash, records: seq<Record>, requireB: bool) returns (r: Result<(Cycle, string), Fault>)
    ensures r == ReplaySpec(hash, records, requireB)
  {
    if !(1 <= |records| <= MAX_RECORDS) {
      return Err(Count);
    }
    var head, state := ZeroHead(), None;
    for index := 0 to |records|
      invariant head == Head(hash, records[..index])
      invariant Derive(hash, records[..index]) == Ok(state)
      invariant index > 0 ==> state.Some?
    {
      assert records[..index + 1][..index] == records[..index];
      var expected := CheckRecord(state, head, index, records[index]);
      if expected.Err? {
        DeriveFailsEarly(hash, records, index + 1);
        return Err(expected.error);
      }
      state, head := Some(expected.value), hash(records[index]);
    }
    assert records[..|records|] == records;
    if requireB && !(|records| == 12 && state.value.phase.BConsumed?) {
      return Err(Incomplete);
    }
    return Ok((state.value, head));
  }

  // ---------------------------------------------------------------- append

  /** What saving the text of a cycle does to the journal. */
  function SaveSpec(hash: Hash, records: seq<Record>, raw: string): Result<seq<Record>, Fault> {
    var current := Decode(raw);
    if current.None? then Err(Schema)
    else if current.value.phase.Failed? || current.value.phase.Aborted?
            || (records != [] && records[|records| - 1].stateEncoded == raw)
    then Ok(records)
    else
      var previous := if records == [] then None else Decode(records[|records| - 1].stateEncoded);
      if records != [] && previous.None? then Err(Schema)
      else
        var action := ActionFor(previous, current.value);
        if action.Err? then Err(action.error)
        else
          var data := Record(KIND, |records|, action.value, current.value.last, raw, Head(hash, records));
          var check := ReplaySpec(hash, records + [data], false);
          if check.Err? then Err(check.error) else Ok(records + [data])
  }

  class Host {
    const hash: Hash
    var records: seq<Record>
    var cycle: Option<Cycle>

    constructor (hash: Hash)
      ensures this.hash == hash && records == [] && cycle == None
    {
      this.hash := hash;
      records := [];
      cycle := None;
    }

    method Save(raw: string) returns (r: Result<(), Fault>)
      modifies this`records
      ensures var spec := SaveSpec(hash, old(records), raw);
        && (r.Ok? <==> spec.Ok?)
        && (spec.Ok? ==> records == spec.value)
        && (spec.Err? ==> r.error == spec.error && records == old(records))
    {
      var current := Decode(raw);
      if current.None? {
        return Err(Schema);
      }
      DecodeIffEncode(raw, current.value);
      var encoded := Encode(current.value);
      if !current.value.phase.Failed? && !current.value.phase.Aborted?
         && (records == [] || records[|records| - 1].stateEncoded != encoded) {
        var previous: Option<Cycle> := None;
        if records != [] {
          previous := Decode(records[|records| - 1].stateEncoded);
          if previous.None? {
            return Err(Schema);
          }
        }
        var action :- ActionFor(previous, current.value);
        var data := Record(KIND, |records|, action, current.value.last, encoded, Head(hash, records));
        var _ :- Replay(hash, records + [data], false);
        records := records + [data];
      }
      return Ok(());
    }

    /** One admission followed by its save, as every checkpoint of the coordinator does. */
    method Checkpoint(sample: Sample, action: Action) returns (r: Result<bool, Fault>)
      requires cycle.Some?
      modifies this
      ensures var a := Advance(old(cycle).value, sample, action);
        var spec := SaveSpec(hash, old(records), Encode(a.state));
        && cycle == Some(a.state)
        && (r.Ok? <==> spec.Ok?)
        && (r.Ok? ==> records == spec.value && r.value == a.accepted)
        && (r.Err? ==> r.error == spec.error && records == old(records))
    {
      var a := Advance(cycle.value, sample, action);
      cycle := Some(a.state);
      var _ :- Save(Encode(a.state));
      return Ok(a.accepted);
    }
  }

  // ---------------------------------------------------------------- the journal of a run

  predicate ValidSteps(anchor: Sample, steps: seq<Step>) {
    ValidSample(anchor) && forall i :: 0 <= i < |steps| ==> ValidSample(steps[i].sample)
  }

  function ActionAt(n: nat): Action
    requires n <= 11
  {
    if n == 0 then START else Word(n - 1)
  }

  /** The only journal an admissible run can have. */
  function JournalOf(hash: Hash, anchor: Sample, steps: seq<Step>): (records: seq<Record>)
    requires |steps| <= 11
    ensures |records| == |steps| + 1
    decreases |steps|
  {
    var n := |steps|;
    var before := if n == 0 then [] else JournalOf(hash, anchor, steps[..n - 1]);
    before + [Record(KIND, n, ActionAt(n), Clock(anchor, steps, n), Encode(Reached(anchor, steps)), Head(hash, before))]
  }

  lemma {:induction false} ReachedIsValid(anchor: Sample, steps: seq<Step>)
    requires ValidSteps(anchor, steps) && Admissible(anchor, steps)
    ensures Valid(Reached(anchor, steps))
    decreases |steps|
  {
    if steps != [] {
      var n := |steps| - 1;
      Shorter(anchor, steps);
      ReachedIsValid(anchor, steps[..n]);
      LastStep(anchor, steps);
      assert StepAdmissible(anchor, steps, n);
      AdvanceStaysValid(Reached(anchor, steps[..n]), steps[n].sample, steps[n].action);
    }
  }

  lemma Shorter(anchor: Sample, steps: seq<Step>)
    requires Admissible(anchor, steps) && steps != []
    ensures Admissible(anchor, steps[..|steps| - 1])
  {
    var init := steps[..|steps| - 1];
    forall i | 0 <= i < |init| ensures StepAdmissible(anchor, init, i) {
      assert StepAdmissible(anchor, steps, i);
    }
  }

  /** Consecutive states differ and spell out the action between them. */
  lemma ActionBetween(anchor: Sample, steps: seq<Step>)
    requires steps != [] && Admissible(anchor, steps)
    ensures var prev, now := Reached(anchor, steps[..|steps| - 1]), Reached(anchor, steps);
      && prev != now
      && ActionFor(Some(prev), now) == Ok(ActionAt(|steps|))
      && Advance(prev, steps[|steps| - 1].sample, ActionAt(|steps|)) == Admission(now, true, None)
  {
    var n := |steps| - 1;
    LastStep(anchor, steps);
    assert StepAdmissible(anchor, steps, n);
  }

  function PreviousState(anchor: Sample, steps: seq<Step>): Option<Cycle>
    requires |steps| <= 11
  {
    if steps == [] then None else Some(Reached(anchor, steps[..|steps| - 1]))
  }

  function JournalBefore(hash: Hash, anchor: Sample, steps: seq<Step>): seq<Record>
    requires |steps| <= 11
  {
    if steps == [] then [] else JournalOf(hash, anchor, steps[..|steps| - 1])
  }

  /** The newest record of a run checks against the state before it. */
  lemma LastRecordChecks(hash: Hash, anchor: Sample, steps: seq<Step>)
    requires ValidSteps(anchor, steps) && Admissible(anchor, steps)
    ensures var n, records := |steps|, JournalOf(hash, anchor, steps);
      && records[..n] == JournalBefore(hash, anchor, steps)
      && ActionFor(PreviousState(anchor, steps), Reached(anchor, steps)) == Ok(ActionAt(n))
      && CheckRecord(PreviousState(anchor, steps), Head(hash, records[..n]), n, records[n]) == Ok(Reached(anchor, steps))
  {
    assert |steps| <= 11;
    hide Encode, Admissible, Advance, Agrees;
    assert ValidSample(Clock(anchor, steps, |steps|));
    if steps != [] {
      ActionBetween(anchor, steps);
    }
  }

  /** The journal of an admissible run derives that run's state. */
  lemma {:induction false} JournalDerives(hash: Hash, anchor: Sample, steps: seq<Step>)
    requires ValidSteps(anchor, steps) && Admissible(anchor, steps)
    ensures Derive(hash, JournalOf(hash, anchor, steps)) == Ok(Some(Reached(anchor, steps)))
    decreases |steps|
  {
    hide JournalOf, CheckRecord, Reached, Admissible, Head, Encode;
    LastRecordChecks(hash, anchor, steps);
    if steps != [] {
      Shorter(anchor, steps);
      JournalDerives(hash, anchor, steps[..|steps| - 1]);
    }
  }

  /** The state just reached is not yet in the journal. */
  lemma StateIsNew(hash: Hash, anchor: Sample, steps: seq<Step>)
    requires ValidSteps(anchor, steps) && Admissible(anchor, steps) && steps != []
    ensures var before := JournalBefore(hash, anchor, steps);
      && before != []
      && Decode(before[|before| - 1].stateEncoded) == PreviousState(anchor, steps)
      && before[|before| - 1].stateEncoded != Encode(Reached(anchor, steps))
  {
    assert |steps| <= 11;
    hide Encode, Decode, Admissible, Valid, Reached;
    var prev, now := Reached(anchor, steps[..|steps| - 1]), Reached(anchor, steps);
    Shorter(anchor, steps);
    ReachedIsValid(anchor, steps);
    ReachedIsValid(anchor, steps[..|steps| - 1]);
    DecodeIffEncode(Encode(prev), prev);
    ActionBetween(anchor, steps);
    if Encode(prev) == Encode(now) { EncodeIsInjective(prev, now); }
  }

  /** Saving the state after one more admissible step appends exactly that step's record. */
  lemma SaveAppends(hash: Hash, anchor: Sample, steps: seq<Step>)
    requires ValidSteps(anchor, steps) && Admissible(anchor, steps)
    ensures SaveSpec(hash, JournalBefore(hash, anchor, steps), Encode(Reached(anchor, steps)))
      == Ok(JournalOf(hash, anchor, steps))
  {
    assert |steps| <= 11;
    hide Encode, Decode, ValidSample, Valid, Derive, Admissible, ActionFor, CheckRecord;
    var now := Reached(anchor, steps);
    ReachedIsValid(anchor, steps);
    DecodeIffEncode(Encode(now), now);
    LastRecordChecks(hash, anchor, steps);
    JournalDerives(hash, anchor, steps);
    if steps != [] { StateIsNew(hash, anchor, steps); }
    assert !now.phase.Failed? && !now.phase.Aborted?;
  }

  /** Failed, aborted and unchanged states leave the journal as it is. */
  lemma SaveSkips(hash: Hash, anchor: Sample, steps: seq<Step>, c: Cycle)
    requires ValidSteps(anchor, steps) && Admissible(anchor, steps) && Valid(c)
    requires c.phase.Failed? || c.phase.Aborted? || c == Reached(anchor, steps)
    ensures SaveSpec(hash, JournalOf(hash, anchor, steps), Encode(c)) == Ok(JournalOf(hash, anchor, steps))
  {
    DecodeIffEncode(Encode(c), c);
  }

  /** How many steps are accepted before the first refusal. */
  function Accepted(c: Cycle, steps: seq<Step>): (n: nat)
    ensures n <= |steps|
    decreases |steps|
  {
    if steps == [] then 0
    else
      var a := Advance(c, steps[0].sample, steps[0].action);
      if a.accepted then 1 + Accepted(a.state, steps[1..]) else 0
  }

  /** The coordinator: admit, save, and stop at the first refusal. */
  function Drive(hash: Hash, c: Cycle, records: seq<Record>, steps: seq<Step>): Result<(Cycle, seq<Record>), Fault>
    decreases |steps|
  {
    if steps == [] then Ok((c, records))
    else
      var a := Advance(c, steps[0].sample, steps[0].action);
      var saved := SaveSpec(hash, records, Encode(a.state));
      if saved.Err? then Err(saved.error)
      else if !a.accepted then Ok((a.state, saved.value))
      else Drive(hash, a.state, saved.value, steps[1..])
  }

  /** The checkpoints of one coordinator on its host: what Drive says, record for record. */
  method Coordinate(host: Host, steps: seq<Step>) returns (r: Result<(), Fault>)
    requires host.cycle.Some?
    modifies host
    ensures match Drive(host.hash, old(host.cycle).value, old(host.records), steps)
      case Ok(end) => r.Ok? && host.cycle == Some(end.0) && host.records == end.1
      case Err(fault) => r == Err(fault)
  {
    hide SaveSpec, Advance, Encode;
    var k := 0;
    assert steps[0..] == steps;
    while k < |steps|
      invariant 0 <= k <= |steps| && host.cycle.Some?
      invariant Drive(host.hash, old(host.cycle).value, old(host.records), steps)
        == Drive(host.hash, host.cycle.value, host.records, steps[k..])
    {
      assert steps[k..][1..] == steps[k + 1..];
      var accepted :- host.Checkpoint(steps[k].sample, steps[k].action);
      if !accepted {
        return Ok(());
      }
      k := k + 1;
    }
    return Ok(());
  }

  /** One admission and its save, from the state and journal of an admissible run. */
  lemma DriveStep(hash: Hash, anchor: Sample, done: seq<Step>, step: Step)
    requires ValidSteps(anchor, done + [step]) && ValidSteps(anchor, done) && Admissible(anchor, done)
    ensures var a, more := Advance(Reached(anchor, done), step.sample, step.action), done + [step];
      && (a.accepted ==> Admissible(anchor, more) && a.state == Reached(anchor, more))
      && SaveSpec(hash, JournalOf(hash, anchor, done), Encode(a.state))
        == Ok(if a.accepted then JournalOf(hash, anchor, more) else JournalOf(hash, anchor, done))
  {
    assert |done| <= 11;
    var c, more := Reached(anchor, done), done + [step];
    hide Encode, SaveSpec, JournalOf, Admissible, Advance, ValidSample, Reached, Valid;
    assert more[..|done|] == done && more[|done|] == step;
    ReachedIsValid(anchor, done);
    AdvanceStaysValid(c, step.sample, step.action);
    LastStep(anchor, more);
    if Advance(c, step.sample, step.action).accepted {
      Longer(anchor, done, step);
      SaveAppends(hash, anchor, more);
    } else {
      RefusedState(c, step.sample, step.action);
      SaveSkips(hash, anchor, done, Advance(c, step.sample, step.action).state);
    }
  }

  /** Whatever is sampled, no save ever fails and the journal is that of the accepted steps. */
  lemma {:induction false} DriveFrom(hash: Hash, anchor: Sample, done: seq<Step>, todo: seq<Step>)
    requires ValidSteps(anchor, done + todo) && Admissible(anchor, done)
    ensures var r := Drive(hash, Reached(anchor, done), JournalOf(hash, anchor, done), todo);
      var steps := done + todo[..Accepted(Reached(anchor, done), todo)];
      r.Ok? && Admissible(anchor, steps) && r.value.1 == JournalOf(hash, anchor, steps)
    decreases |todo|
  {
    hide Encode, SaveSpec, JournalOf, Advance, ValidSample, Reached, StepAdmissible;
    if todo == [] {
      assert done + [] == done;
    } else {
      var more := done + [todo[0]];
      assert more + todo[1..] == done + todo;
      assert forall i :: 0 <= i < |more| ==> more[i] == (done + todo)[i];
      assert forall i :: 0 <= i < |done| ==> done[i] == (done + todo)[i];
      DriveStep(hash, anchor, done, todo[0]);
      var a := Advance(Reached(anchor, done), todo[0].sample, todo[0].action);
      if a.accepted {
        DriveFrom(hash, anchor, more, todo[1..]);
        var k := Accepted(a.state, todo[1..]);
        assert more + todo[1..][..k] == done + todo[..k + 1];
      } else {
        assert done + todo[..0] == done;
      }
    }
  }

  lemma RefusedState(c: Cycle, s: Sample, action: Action)
    requires !Advance(c, s, action).accepted
    ensures Advance(c, s, action).state.phase.Failed? || Advance(c, s, action).state == c
  {
  }

  lemma Longer(anchor: Sample, done: seq<Step>, step: Step)
    requires Admissible(anchor, done) && |done| < 11 && StepAdmissible(anchor, done + [step], |done|)
    ensures Admissible(anchor, done + [step])
  {
    forall i | 0 <= i < |done| ensures StepAdmissible(anchor, done + [step], i) {
      assert StepAdmissible(anchor, done, i);
    }
  }

  /**
    Main result for the appending side: from an empty journal, whatever samples and actions follow,
    the coordinator never fails to save, and replay of what it saved gives back the last accepted
    state and the journal's own head.
  */
  lemma CoordinatorReplays(hash: Hash, anchor: Sample, todo: seq<Step>)
    requires ValidSteps(anchor, todo)
    ensures var first := SaveSpec(hash, [], Encode(Start(anchor)));
      && first.Ok?
      && var r := Drive(hash, Start(anchor), first.value, todo);
      && r.Ok?
      && var steps := todo[..Accepted(Start(anchor), todo)];
      && Run(Start(anchor), steps).Some?
      && ReplaySpec(hash, r.value.1, false) == Ok((Run(Start(anchor), steps).value, Head(hash, r.value.1)))
  {
    hide Encode, SaveSpec, JournalOf, Advance, ValidSample, StepAdmissible, Derive, Run;
    assert [] + todo == todo;
    assert Start(anchor) == Reached(anchor, []);
    SaveAppends(hash, anchor, []);
    DriveFrom(hash, anchor, [], todo);
    var steps := todo[..Accepted(Start(anchor), todo)];
    assert [] + steps == steps;
    AcceptedRuns(anchor, steps);
    assert ValidSteps(anchor, steps);
    JournalDerives(hash, anchor, steps);
  }

  // ---------------------------------------------------------------- what replay accepts

  function StepsOf(records: seq<Record>): seq<Step>
    requires records != []
  {
    seq(|records| - 1, (i: int) requires 0 <= i < |records| - 1 => Step(records[i + 1].sample, records[i + 1].action))
  }

  lemma ExtendRun(hash: Hash, anchor: Sample, steps: seq<Step>, records: seq<Record>)
    requires |records| == |steps| + 1 && steps != []
    requires steps[|steps| - 1] == Step(records[|steps|].sample, records[|steps|].action)
    requires var init := steps[..|steps| - 1];
      && ValidSteps(anchor, init) && Admissible(anchor, init) && records[..|steps|] == JournalOf(hash, anchor, init)
      && CheckRecord(Some(Reached(anchor, init)), Head(hash, records[..|steps|]), |steps|, records[|steps|]).Ok?
    ensures ValidSteps(anchor, steps) && Admissible(anchor, steps) && records == JournalOf(hash, anchor, steps)
    ensures CheckRecord(Some(Reached(anchor, steps[..|steps| - 1])), Head(hash, records[..|steps|]), |steps|, records[|steps|])
      == Ok(Reached(anchor, steps))
  {
    hide Encode, ValidSample;
    var n := |steps| - 1;
    var init, last := steps[..n], records[n + 1];
    assert steps == init + [steps[n]];
    LastStep(anchor, steps);
    Longer(anchor, init, steps[n]);
    assert StepAdmissible(anchor, steps, n);
    assert forall i :: 0 <= i < n ==> init[i] == steps[i];
    ActionBetween(anchor, steps);
    assert last == Record(KIND, n + 1, ActionAt(n + 1), Clock(anchor, steps, n + 1), Encode(Reached(anchor, steps)), last.previous);
    assert records == records[..n + 1] + [last];
  }

  lemma FirstJournal(hash: Hash, anchor: Sample, rec: Record)
    requires rec.sample == anchor && CheckRecord(None, ZeroHead(), 0, rec).Ok?
    ensures CheckRecord(None, ZeroHead(), 0, rec) == Ok(Reached(anchor, []))
    ensures ValidSteps(anchor, []) && Admissible(anchor, []) && [rec] == JournalOf(hash, anchor, [])
  {
  }

  /** Replay accepts a list exactly when it is the journal of the admissible run it spells out. */
  lemma {:induction false} DerivesIffJournal(hash: Hash, records: seq<Record>)
    requires records != []
    ensures var anchor, steps := records[0].sample, StepsOf(records);
      && (Derive(hash, records).Ok? <==>
          ValidSteps(anchor, steps) && Admissible(anchor, steps) && records == JournalOf(hash, anchor, steps))
      && (Derive(hash, records).Ok? ==> Derive(hash, records).value == Some(Reached(anchor, steps)))
    decreases |records|
  {
    hide Encode, Decode;
    hide Encode, StepAdmissible, ValidSample, JournalOf, Agrees, Advance;
    var anchor, steps := records[0].sample, StepsOf(records);
    var n := |records| - 1;
    if Derive(hash, records).Ok? {
      if n == 0 {
        assert records[..0] == [];
        assert records == [records[0]];
        assert Derive(hash, records[..0]) == Ok(None);
        assert CheckRecord(None, ZeroHead(), 0, records[0]).Ok?;
        FirstJournal(hash, anchor, records[0]);
      } else {
        DerivesIffJournal(hash, records[..n]);
        assert StepsOf(records[..n]) == steps[..n - 1];
        ExtendRun(hash, anchor, steps, records);
      }
    }
    if ValidSteps(anchor, steps) && Admissible(anchor, steps) && records == JournalOf(hash, anchor, steps) {
      JournalDerives(hash, anchor, steps);
    }
  }

  /** Replay of a whole list: sound and complete against the runs, twelve records at consumption. */
  lemma ReplayIffJournal(hash: Hash, records: seq<Record>, requireB: bool)
    requires records != []
    ensures var anchor, steps := records[0].sample, StepsOf(records);
      var run := ValidSteps(anchor, steps) && Admissible(anchor, steps) && records == JournalOf(hash, anchor, steps);
      && (ReplaySpec(hash, records, requireB).Ok? <==> run && (requireB ==> |records| == 12))
      && (ReplaySpec(hash, records, requireB).Ok? ==>
          && ReplaySpec(hash, records, requireB).value == (Reached(anchor, steps), Head(hash, records))
          && (|records| == 12 <==> Reached(anchor, steps).phase.BConsumed?))
  {
    DerivesIffJournal(hash, records);
  }

  /** The last record of a derivable journal is numbered and chained to those before it. */
  lemma LastChained(hash: Hash, records: seq<Record>)
    requires records != [] && Derive(hash, records).Ok?
    ensures var n := |records| - 1;
      Derive(hash, records[..n]).Ok? && records[n].index == n && records[n].previous == Head(hash, records[..n])
  {
    hide Encode, Decode, Recompute, Head;
  }

  /** With a collision-free hash the head commits to the whole journal. */
  lemma {:induction false} HeadCommits(hash: Hash, a: seq<Record>, b: seq<Record>)
    requires Injective(hash) && a != [] && b != []
    requires Derive(hash, a).Ok? && Derive(hash, b).Ok?
    requires Head(hash, a) == Head(hash, b)
    ensures a == b
    decreases |a|
  {
    var n, m := |a| - 1, |b| - 1;
    hide Derive;
    assert a[n] == b[m];
    hide Head;
    LastChained(hash, a);
    LastChained(hash, b);
    if n > 0 {
      HeadCommits(hash, a[..n], b[..m]);
    }
    assert a == a[..n] + [a[n]] && b == b[..m] + [b[m]];
  }
}
