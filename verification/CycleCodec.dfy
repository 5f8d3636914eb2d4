/** The canonical text of a cycle: one line of sorted-key JSON, decoded only if it re-encodes to itself. */
module CycleCodec {
  import opened Common
  import opened Cycle
  import D = Decimal
  import J = Json

  const MAX_RAW := 2048

  /** Digits without leading zeros, at most twenty, at most `maximum`. */
  function Number(s: string, maximum: nat): Option<nat> {
    if 1 <= |s| <= 20 && D.Canonical(s) && D.Value(s) <= maximum then Some(D.Value(s)) else None
  }

  lemma NumberIffText(s: string, maximum: nat, n: nat)
    requires maximum <= MAX_U64
    ensures Number(s, maximum) == Some(n) <==> s == D.Text(n) && n <= maximum
  {
    D.TextIsCanonical(n);
    if D.Canonical(s) { D.ValueIsInverse(s); }
    if n <= maximum {
      assert D.Pow10(20) == 100000000000000000000 by { Pow10Twenty(); }
      D.TextLength(n, 20);
    }
  }

  lemma Pow10Twenty()
    ensures D.Pow10(20) == 100000000000000000000
  {
    assert D.Pow10(5) == 100000;
    assert D.Pow10(10) == 10000000000;
    assert D.Pow10(15) == 1000000000000000;
  }

  function PhaseText(p: Phase): string {
    match p
    case A => "A"
    case Observing => "OBSERVING"
    case Ready => "READY"
    case Failed => "FAILED"
    case Aborted => "ABORTED"
    case BConsumed => "B_CONSUMED"
  }

  function PhaseOf(s: string): Option<Phase> {
    if s == "A" then Some(A)
    else if s == "OBSERVING" then Some(Observing)
    else if s == "READY" then Some(Ready)
    else if s == "FAILED" then Some(Failed)
    else if s == "ABORTED" then Some(Aborted)
    else if s == "B_CONSUMED" then Some(BConsumed)
    else None
  }

  function ReasonText(r: Reason): string {
    match r
    case Order => "ORDER"
    case Terminal => "TERMINAL"
    case Boot => "BOOT"
    case Rollback => "ROLLBACK"
    case Disagreement => "DISAGREEMENT"
    case TotalAge => "TOTAL_AGE"
    case Gap => "GAP"
    case TooEarly => "TOO_EARLY"
  }

  function ReasonOf(s: string): Option<Reason> {
    if s == "ORDER" then Some(Order)
    else if s == "TERMINAL" then Some(Terminal)
    else if s == "BOOT" then Some(Boot)
    else if s == "ROLLBACK" then Some(Rollback)
    else if s == "DISAGREEMENT" then Some(Disagreement)
    else if s == "TOTAL_AGE" then Some(TotalAge)
    else if s == "GAP" then Some(Gap)
    else if s == "TOO_EARLY" then Some(TooEarly)
    else None
  }

  function SampleJson(s: Sample): J.Json {
    J.Obj(J.Field("boot", J.Str(D.Text(s.boot)),
          J.Field("tick_ms", J.Str(D.Text(s.tick)),
          J.Field("utc_100ns", J.Str(D.Text(s.utc)), J.NoField))))
  }

  function FailureJson(c: Cycle): J.Json {
    if c.failure.None? then J.Null else J.Str(ReasonText(c.failure.value))
  }

  /** The three parts of the field list, so that each lookup is near the front of one of them. */
  function TailFields(c: Cycle): J.Fields {
    J.Field("observations", J.Int(c.observations),
    J.Field("phase", J.Str(PhaseText(c.phase)),
    J.Field("version", J.Int(1), J.NoField)))
  }

  function CycleJson(c: Cycle): J.Json {
    J.Obj(J.Field("anchor", SampleJson(c.anchor),
          J.Field("failure", FailureJson(c),
          J.Field("last", SampleJson(c.last),
          TailFields(c)))))
  }

  function Encode(c: Cycle): string { J.Dumps(CycleJson(c)) + "\n" }

  function DecodeText(j: J.Json, maximum: nat): Option<nat> {
    if j.Str? then Number(j.s, maximum) else None
  }

  // The re-encoding check leaves only the sorted key order, so the fields are matched in that order.
  function DecodeSample(j: J.Json): Option<Sample> {
    match j
    case Obj(Field(k0, v0, Field(k1, v1, Field(k2, v2, NoField)))) =>
      var boot, tick, utc := DecodeText(v0, MAX_FILETIME), DecodeText(v1, MAX_U64), DecodeText(v2, MAX_FILETIME);
      if k0 == "boot" && k1 == "tick_ms" && k2 == "utc_100ns"
         && boot.Some? && tick.Some? && utc.Some? && boot.value > 0 && utc.value > 0
      then Some(Sample(boot.value, tick.value, utc.value))
      else None
    case _ => None
  }

  function DecodeFailure(j: J.Json): Option<Option<Reason>> {
    if j.Null? then Some(None)
    else if j.Str? && ReasonOf(j.s).Some? then Some(ReasonOf(j.s))
    else None
  }

  function DecodeTail(fields: J.Fields): Option<(int, Phase)> {
    match fields
    case Field(k3, Int(count), Field(k4, Str(phase), Field(k5, version, NoField))) =>
      if k3 == "observations" && k4 == "phase" && k5 == "version" && version == J.Int(1) && PhaseOf(phase).Some?
      then Some((count, PhaseOf(phase).value))
      else None
    case _ => None
  }

  function DecodeFields(j: J.Json): Option<Cycle> {
    match j
    case Obj(Field(k0, v0, Field(k1, v1, Field(k2, v2, tail)))) =>
      var anchor, failure, last, rest := DecodeSample(v0), DecodeFailure(v1), DecodeSample(v2), DecodeTail(tail);
      if k0 == "anchor" && k1 == "failure" && k2 == "last"
         && anchor.Some? && failure.Some? && last.Some? && rest.Some?
      then Some(Cycle(anchor.value, last.value, rest.value.1, rest.value.0, failure.value))
      else None
    case _ => None
  }

  function Decode(raw: string): Option<Cycle> {
    if !(0 < |raw| <= MAX_RAW) || raw[|raw| - 1] != '\n' then None
    else
      var j := J.Loads(raw[..|raw| - 1]);
      var c := if j.Some? then DecodeFields(j.value) else None;
      if c.Some? && Valid(c.value) && Encode(c.value) == raw then c else None
  }

  // ---------------------------------------------------------------- round trip

  lemma PlainNumber(n: nat)
    requires n <= MAX_U64
    ensures J.PlainText(D.Text(n)) && |D.Text(n)| <= 20
  {
    Pow10Twenty();
    D.TextLength(n, 20);
  }

  lemma KeysPlain()
    ensures J.PlainText("boot") && J.PlainText("tick_ms") && J.PlainText("utc_100ns")
    ensures J.PlainText("observations") && J.PlainText("phase") && J.PlainText("version")
    ensures J.PlainText("anchor") && J.PlainText("failure") && J.PlainText("last")
  {
  }

  lemma SampleDecoded(s: Sample)
    requires ValidSample(s)
    ensures DecodeSample(SampleJson(s)) == Some(s)
  {
    NumberIffText(D.Text(s.boot), MAX_FILETIME, s.boot);
    NumberIffText(D.Text(s.tick), MAX_U64, s.tick);
    NumberIffText(D.Text(s.utc), MAX_FILETIME, s.utc);
    hide Number, D.Text;
  }

  lemma SampleShape(s: Sample)
    requires ValidSample(s)
    ensures J.Plain(SampleJson(s)) && |J.Dumps(SampleJson(s))| <= 120
  {
    KeysPlain();
    PlainNumber(s.boot);
    PlainNumber(s.tick);
    PlainNumber(s.utc);
    hide D.Text, J.PlainText;
    var utc := J.Field("utc_100ns", J.Str(D.Text(s.utc)), J.NoField);
    var tick := J.Field("tick_ms", J.Str(D.Text(s.tick)), utc);
    J.Prepend("utc_100ns", J.Str(D.Text(s.utc)), J.NoField);
    J.Prepend("tick_ms", J.Str(D.Text(s.tick)), utc);
    J.Prepend("boot", J.Str(D.Text(s.boot)), tick);
  }

  lemma PhasePlain(p: Phase)
    ensures J.PlainText(PhaseText(p)) && |PhaseText(p)| <= 20 && PhaseOf(PhaseText(p)) == Some(p)
  {
  }

  lemma TailShape(c: Cycle)
    requires Valid(c)
    ensures J.PlainFields(TailFields(c)) && |J.FieldsText(TailFields(c))| <= 150
    ensures DecodeTail(TailFields(c)) == Some((c.observations, c.phase))
  {
    KeysPlain();
    PhasePlain(c.phase);
    var version := J.Field("version", J.Int(1), J.NoField);
    var phase := J.Field("phase", J.Str(PhaseText(c.phase)), version);
    assert |J.Dumps(J.Int(1))| <= 2 && |J.Dumps(J.Int(c.observations))| <= 2;
    hide PhaseText, PhaseOf, J.PlainText, J.IntText;
    J.Prepend("version", J.Int(1), J.NoField);
    J.Prepend("phase", J.Str(PhaseText(c.phase)), version);
    J.Prepend("observations", J.Int(c.observations), phase);
  }

  lemma FailureShape(c: Cycle)
    ensures J.Plain(FailureJson(c)) && |J.Dumps(FailureJson(c))| <= 20
    ensures DecodeFailure(FailureJson(c)) == Some(c.failure)
  {
    if c.failure.Some? { assert ReasonOf(ReasonText(c.failure.value)) == c.failure; }
  }

  lemma Shape(c: Cycle)
    requires Valid(c)
    ensures J.Plain(CycleJson(c)) && 0 < |Encode(c)| <= MAX_RAW
    ensures DecodeFields(CycleJson(c)) == Some(c)
  {
    TailShape(c);
    FailureShape(c);
    SampleDecoded(c.anchor);
    SampleDecoded(c.last);
    SampleShape(c.anchor);
    SampleShape(c.last);
    KeysPlain();
    hide Valid, J.PlainText, SampleJson, FailureJson, TailFields, DecodeSample, DecodeFailure, DecodeTail;
    var last := J.Field("last", SampleJson(c.last), TailFields(c));
    var failure := J.Field("failure", FailureJson(c), last);
    J.Prepend("last", SampleJson(c.last), TailFields(c));
    J.Prepend("failure", FailureJson(c), last);
    J.Prepend("anchor", SampleJson(c.anchor), failure);
  }

  /** A text decodes exactly when it is the encoding of a valid cycle, and then to that cycle. */
  lemma DecodeIffEncode(raw: string, c: Cycle)
    ensures Decode(raw) == Some(c) <==> Valid(c) && raw == Encode(c)
  {
    if Valid(c) && raw == Encode(c) {
      Shape(c);
      assert raw[..|raw| - 1] == J.Dumps(CycleJson(c));
      J.LoadsIffDumps(raw[..|raw| - 1], CycleJson(c));
    }
  }

  lemma EncodeIsInjective(a: Cycle, b: Cycle)
    requires Valid(a) && Valid(b) && Encode(a) == Encode(b)
    ensures a == b
  {
    DecodeIffEncode(Encode(a), a);
    DecodeIffEncode(Encode(a), b);
  }
}
