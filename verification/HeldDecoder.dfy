/** The parent's decoder of a HELD line, and the round trip with the member's printer. */
module HeldDecoder {
  import opened Common
  import opened Held
  import J = Json
  import T = Text

  // ---------------------------------------------------------------- decoding

  // The parent takes the fields of an object in any order but each exactly once, so a key is first
  // turned into its number and the object is read by number.

  function HeldCode(key: string): nat {
    if key == "phase" then 0
    else if key == "kind" then 1
    else if key == "limits" then 2
    else if key == "vm" then 3
    else if key == "accepted_bytes" then 4
    else if key == "touched_pages" then 5
    else if key == "blocks" then 6
    else if key == "failure" then 7
    else if key == "errno" then 8
    else 9
  }

  function VmCode(key: string): nat {
    if key == "size" then 0
    else if key == "peak" then 1
    else if key == "rss" then 2
    else if key == "threads" then 3
    else 4
  }

  function DecodeVm(j: J.Json): Option<Vm> {
    if !J.ExactlyCoded(j, VmCode, 4) then None
    else
      var size, peak, rss, threads := J.ByCode(j, VmCode, 0), J.ByCode(j, VmCode, 1), J.ByCode(j, VmCode, 2), J.ByCode(j, VmCode, 3);
      if size.Int? && peak.Int? && rss.Int? && threads.Int? && ValidVm(Vm(size.i, peak.i, rss.i, threads.i))
      then Some(Vm(size.i, peak.i, rss.i, threads.i))
      else None
  }

  function DecodeLimits(j: J.Json): Option<Limits> {
    match j
    case Arr(Item(Int(soft), Item(Int(hard), NoItem))) => Some(Limits(soft, hard))
    case _ => None
  }

  function DecodeKind(j: J.Json): Option<Kind> {
    if j == J.Str("private") then Some(Private) else if j == J.Str("shared") then Some(Shared) else None
  }

  function DecodeFailure(j: J.Json): Option<Failure> {
    if j == J.Str("NONE") then Some(NONE)
    else if j == J.Str("MEMORY") then Some(MEMORY)
    else if j == J.Str("ENOMEM") then Some(ENOMEM)
    else if j == J.Str("OTHER") then Some(OTHER)
    else None
  }

  function DecodeErrno(j: J.Json): Option<Option<int>> {
    if j.Null? then Some(None) else if j.Int? then Some(Some(j.i)) else None
  }

  /** The relations between the fields of a report. */
  predicate Coherent(h: Held) {
    && ValidVm(h.vm)
    && 0 <= h.accepted <= TARGET && 0 <= h.blocks <= TARGET / STEP && 0 <= h.pages <= TARGET / PAGE
    && h.accepted % STEP == 0 && h.blocks == h.accepted / STEP && h.pages == h.accepted / PAGE
    && FailureMatches(h.failure, h.errno)
    && (!h.failure.NONE? ==> h.accepted != TARGET)
  }

  function DecodeEvent(j: J.Json): Option<Held> {
    if !J.ExactlyCoded(j, HeldCode, 9) || J.ByCode(j, HeldCode, 0) != J.Str("held") then None
    else
      var kind, limits, vm := DecodeKind(J.ByCode(j, HeldCode, 1)), DecodeLimits(J.ByCode(j, HeldCode, 2)), DecodeVm(J.ByCode(j, HeldCode, 3));
      var accepted, pages, blocks := J.ByCode(j, HeldCode, 4), J.ByCode(j, HeldCode, 5), J.ByCode(j, HeldCode, 6);
      var failure, errno := DecodeFailure(J.ByCode(j, HeldCode, 7)), DecodeErrno(J.ByCode(j, HeldCode, 8));
      if kind.Some? && limits.Some? && vm.Some? && accepted.Int? && pages.Int? && blocks.Int? && failure.Some? && errno.Some?
         && Coherent(Held(kind.value, limits.value, vm.value, accepted.i, pages.i, blocks.i, failure.value, errno.value))
      then Some(Held(kind.value, limits.value, vm.value, accepted.i, pages.i, blocks.i, failure.value, errno.value))
      else None
  }

  /** The whole line: bounded, newline-terminated, canonical, coherent. */
  function DecodeHeld(raw: string): Option<Held> {
    if !(1 <= |raw| <= LINE_MAX) || raw[|raw| - 1] != '\n' then None
    else
      var j := J.Loads(raw[..|raw| - 1]);
      if j.None? then None else DecodeEvent(j.value)
  }

  // ---------------------------------------------------------------- round trip

  function VmFields(vm: Vm): J.Fields {
    J.Field("size", J.Int(vm.size), J.Field("peak", J.Int(vm.peak),
    J.Field("rss", J.Int(vm.rss), J.Field("threads", J.Int(vm.threads), J.NoField))))
  }

  function LimitsJson(limits: Limits): J.Json {
    J.Arr(J.Item(J.Int(limits.soft), J.Item(J.Int(limits.hard), J.NoItem)))
  }

  function KindJson(kind: Kind): J.Json { J.Str(if kind.Private? then "private" else "shared") }

  function FailureJson(failure: Failure): J.Json {
    J.Str(match failure case NONE => "NONE" case MEMORY => "MEMORY" case ENOMEM => "ENOMEM" case OTHER => "OTHER")
  }

  function ErrnoJson(errno: Option<int>): J.Json { if errno.None? then J.Null else J.Int(errno.value) }

  function TailFields(h: Held): J.Fields {
    J.Field("failure", FailureJson(h.failure), J.Field("errno", ErrnoJson(h.errno), J.NoField))
  }

  function CountFields(h: Held): J.Fields {
    J.Field("accepted_bytes", J.Int(h.accepted), J.Field("touched_pages", J.Int(h.pages),
    J.Field("blocks", J.Int(h.blocks), TailFields(h))))
  }

  function HeldJson(h: Held): J.Json {
    J.Obj(J.Field("phase", J.Str("held"), J.Field("kind", KindJson(h.kind),
    J.Field("limits", LimitsJson(h.limits), J.Field("vm", J.Obj(VmFields(h.vm)), CountFields(h))))))
  }

  function Reported(kind: Kind, limits: Limits, vm: Vm, blocks: int, failure: Failure, errno: Option<int>): Held {
    Held(kind, limits, vm, blocks * STEP, blocks * STEP / PAGE, blocks, failure, errno)
  }

  lemma Associative4(a: string, b: string, c: string, d: string)
    ensures a + b + c + d == a + (b + (c + d))
  {
    T.Associative(a, b, c);
    T.Associative(b, c, d);
    T.Associative(a, b + c, d);
  }

  // The printed labels are what json puts between the values.

  lemma VmLabels()
    ensures LabelText(LVm) == "]" + ("," + (J.Quoted("vm") + (":" + "{"))) && LabelText(LSize) == J.Quoted("size") + ":"
    ensures LabelText(LPeak) == "," + (J.Quoted("peak") + ":") && LabelText(LRss) == "," + (J.Quoted("rss") + ":")
    ensures LabelText(LThreads) == "," + (J.Quoted("threads") + ":")
  {
  }

  lemma CountLabels()
    ensures LabelText(LAccepted) == "}" + ("," + (J.Quoted("accepted_bytes") + ":"))
    ensures LabelText(LPages) == "," + (J.Quoted("touched_pages") + ":") && LabelText(LBlocks) == "," + (J.Quoted("blocks") + ":")
  {
  }

  lemma TailLabels()
    ensures LabelText(LFailure) == "," + (J.Quoted("failure") + ":") && LabelText(LErrno) == "," + (J.Quoted("errno") + ":")
    ensures LabelText(LEnd) == "}" + "\n"
  {
  }

  lemma HeadLabels()
    ensures LabelText(LKind) == "{" + (J.Quoted("phase") + (":" + (J.Quoted("held") + ("," + (J.Quoted("kind") + ":")))))
    ensures LabelText(LLimits) == "," + (J.Quoted("limits") + (":" + "[")) && LabelText(LComma) == ","
  {
  }

  /** One more field in the middle of an object. */
  lemma FieldTail(mark: string, key: string, value: J.Json, rest: J.Fields)
    requires mark == "," + (J.Quoted(key) + ":")
    ensures J.FieldsTail(J.Field(key, value, rest)) == mark + (J.Dumps(value) + J.FieldsTail(rest))
  {
    var q, after := J.Quoted(key), J.Dumps(value) + J.FieldsTail(rest);
    T.Associative(",", q + ":", after);
    T.Associative(q, ":", after);
  }

  lemma TailPrinted(h: Held)
    ensures TailText(h.failure, h.errno) == J.FieldsTail(TailFields(h)) + "\n"
  {
    TailLabels();
    assert J.Dumps(FailureJson(h.failure)) == FailureText(h.failure) && J.Dumps(ErrnoJson(h.errno)) == ErrnoText(h.errno);
    hide LabelText, FailureText, ErrnoText, J.Dumps, FailureJson, ErrnoJson, J.Quoted;
    var errno := J.Field("errno", ErrnoJson(h.errno), J.NoField);
    FieldTail(LabelText(LErrno), "errno", ErrnoJson(h.errno), J.NoField);
    FieldTail(LabelText(LFailure), "failure", FailureJson(h.failure), errno);
    var a, b, c, d := LabelText(LFailure), FailureText(h.failure), LabelText(LErrno), ErrnoText(h.errno);
    assert J.FieldsTail(TailFields(h)) == a + (b + (c + (d + "}")));
    Associative4(a, b, c, d);
    T.Associative(a + b + c + d, "}", "\n");
    Associative4(a, b, c, d + "}");
    T.Associative(a + b + c, d, "}");
  }

  lemma CountsPrinted(h: Held)
    requires h == Reported(h.kind, h.limits, h.vm, h.blocks, h.failure, h.errno)
    ensures CountsText(h.blocks) + J.FieldsTail(TailFields(h)) == "}" + J.FieldsTail(CountFields(h))
  {
    CountLabels();
    hide LabelText, J.Quoted, J.IntText, TailFields;
    var tail := TailFields(h);
    var blocks := J.Field("blocks", J.Int(h.blocks), tail);
    var pages := J.Field("touched_pages", J.Int(h.pages), blocks);
    FieldTail(LabelText(LBlocks), "blocks", J.Int(h.blocks), tail);
    FieldTail(LabelText(LPages), "touched_pages", J.Int(h.pages), blocks);
    var mark := "," + (J.Quoted("accepted_bytes") + ":");
    FieldTail(mark, "accepted_bytes", J.Int(h.accepted), pages);
    assert h.pages == h.blocks * (STEP / PAGE);
    var a, b, c := J.IntText(h.accepted), J.IntText(h.pages), J.IntText(h.blocks);
    var lp, lb, rest := LabelText(LPages), LabelText(LBlocks), J.FieldsTail(tail);
    assert J.FieldsTail(CountFields(h)) == mark + (a + (lp + (b + (lb + (c + rest)))));
    assert CountsText(h.blocks) == (("}" + mark) + a) + (lp + b) + (lb + c);
    T.Associative("}" + mark, a, lp + (b + (lb + (c + rest))));
    T.Associative("}", mark, a + (lp + (b + (lb + (c + rest)))));
    T.Associative(lb, c, rest);
    T.Associative(lp, b, (lb + c) + rest);
    T.Associative(("}" + mark) + a, lp + b, (lb + c) + rest);
    T.Associative((("}" + mark) + a) + (lp + b), lb + c, rest);
  }

  lemma VmPrinted(vm: Vm, rest: J.Fields)
    ensures VmText(vm) + ("}" + J.FieldsTail(rest)) == "]" + J.FieldsTail(J.Field("vm", J.Obj(VmFields(vm)), rest))
  {
    VmLabels();
    hide LabelText, J.Quoted, J.IntText;
    var threads := J.Field("threads", J.Int(vm.threads), J.NoField);
    var rss := J.Field("rss", J.Int(vm.rss), threads);
    var peak := J.Field("peak", J.Int(vm.peak), rss);
    FieldTail(LabelText(LThreads), "threads", J.Int(vm.threads), J.NoField);
    FieldTail(LabelText(LRss), "rss", J.Int(vm.rss), threads);
    FieldTail(LabelText(LPeak), "peak", J.Int(vm.peak), rss);
    var after := J.FieldsTail(rest);
    var uses := FieldText(LRss, vm.rss) + FieldText(LThreads, vm.threads);
    UsesPrinted(vm, threads, rss);
    assert J.FieldsTail(rss) == uses + "}";
    SizesPrinted(vm, uses + "}");
    var q := J.Quoted("vm");
    var inner := J.FieldsText(VmFields(vm));
    ObjectField("vm", VmFields(vm), rest);
    SizeFields(vm, peak);
    OpenObject(q, inner, after);
    var sizes := LabelText(LVm) + FieldText(LSize, vm.size) + FieldText(LPeak, vm.peak);
    T.Associative(sizes, uses, "}" + after);
    T.Associative(uses, "}", after);
    T.Associative(sizes, uses + "}", after);
    assert VmText(vm) + ("}" + after) == (sizes + (uses + "}")) + after;
  }

  lemma ObjectField(key: string, inner: J.Fields, rest: J.Fields)
    ensures J.FieldsTail(J.Field(key, J.Obj(inner), rest))
      == "," + (J.Quoted(key) + (":" + (("{" + J.FieldsText(inner)) + J.FieldsTail(rest))))
  {
    var all := J.Field(key, J.Obj(inner), rest);
    assert J.Dumps(J.Obj(inner)) == "{" + J.FieldsText(inner);
    assert J.FieldsText(all) == J.Quoted(key) + (":" + (J.Dumps(J.Obj(inner)) + J.FieldsTail(rest)));
    assert J.FieldsTail(all) == "," + J.FieldsText(all);
  }

  lemma SizeFields(vm: Vm, peak: J.Fields)
    ensures J.FieldsText(J.Field("size", J.Int(vm.size), peak))
      == J.Quoted("size") + (":" + (J.IntText(vm.size) + J.FieldsTail(peak)))
  {
  }

  lemma LimitsDumped(limits: Limits)
    ensures J.Dumps(LimitsJson(limits)) == "[" + (J.IntText(limits.soft) + ("," + (J.IntText(limits.hard) + "]")))
  {
    hide J.IntText;
    var list := J.Item(J.Int(limits.hard), J.NoItem);
    assert J.ItemsText(list) == J.IntText(limits.hard) + "]";
    assert J.ItemsTail(list) == "," + J.ItemsText(list);
    assert J.ItemsText(J.Item(J.Int(limits.soft), list)) == J.IntText(limits.soft) + J.ItemsTail(list);
  }

  lemma ReportDumped(kind: J.Fields)
    ensures J.Dumps(J.Obj(J.Field("phase", J.Str("held"), kind)))
      == "{" + (J.Quoted("phase") + (":" + (J.Quoted("held") + J.FieldsTail(kind))))
  {
    hide J.FieldsTail, J.Quoted;
    assert J.FieldsText(J.Field("phase", J.Str("held"), kind))
      == J.Quoted("phase") + (":" + (J.Dumps(J.Str("held")) + J.FieldsTail(kind)));
  }

  lemma UsesPrinted(vm: Vm, threads: J.Fields, rss: J.Fields)
    requires J.FieldsTail(threads) == LabelText(LThreads) + (J.IntText(vm.threads) + "}")
    requires J.FieldsTail(rss) == LabelText(LRss) + (J.IntText(vm.rss) + J.FieldsTail(threads))
    ensures J.FieldsTail(rss) == (FieldText(LRss, vm.rss) + FieldText(LThreads, vm.threads)) + "}"
  {
    hide LabelText, J.IntText;
    var a, b, c, d := LabelText(LRss), J.IntText(vm.rss), LabelText(LThreads), J.IntText(vm.threads);
    T.Associative(c, d, "}");
    T.Associative(a, b, (c + d) + "}");
    T.Associative(a + b, c + d, "}");
  }

  /** The opening of the vm object, whatever follows its two sizes. */
  lemma SizesPrinted(vm: Vm, tail: string)
    ensures (LabelText(LVm) + FieldText(LSize, vm.size) + FieldText(LPeak, vm.peak)) + tail
      == LabelText(LVm) + (J.Quoted("size") + (":" + (J.IntText(vm.size) + (LabelText(LPeak) + (J.IntText(vm.peak) + tail)))))
  {
    VmLabels();
    hide LabelText, J.Quoted, J.IntText;
    var v, q, a, l, b := LabelText(LVm), J.Quoted("size"), J.IntText(vm.size), LabelText(LPeak), J.IntText(vm.peak);
    T.Associative(q, ":", a + (l + (b + tail)));
    T.Associative(q + ":", a, l + (b + tail));
    T.Associative(l, b, tail);
    T.Associative(v, (q + ":") + a, (l + b) + tail);
    T.Associative(v + ((q + ":") + a), l + b, tail);
  }

  lemma OpenObject(q: string, inner: string, after: string)
    ensures "]" + ("," + (q + (":" + (("{" + inner) + after)))) == (("]" + ("," + (q + (":" + "{")))) + inner) + after
  {
    T.Associative("{", inner, after);
    T.Associative(":", "{", inner + after);
    T.Associative(q, ":" + "{", inner + after);
    T.Associative(",", q + (":" + "{"), inner + after);
    T.Associative("]", "," + (q + (":" + "{")), inner + after);
    T.Associative("]" + ("," + (q + (":" + "{"))), inner, after);
  }

  lemma HeadPrinted(h: Held)
    ensures HeadText(h.kind, h.limits) + ("]" + J.FieldsTail(J.Field("vm", J.Obj(VmFields(h.vm)), CountFields(h)))) == J.Dumps(HeldJson(h))
  {
    HeadLabels();
    assert J.Dumps(KindJson(h.kind)) == KindText(h.kind);
    hide LabelText, J.Quoted, J.IntText, KindText, KindJson, CountFields, VmFields;
    var vm := J.Field("vm", J.Obj(VmFields(h.vm)), CountFields(h));
    var limits := J.Field("limits", LimitsJson(h.limits), vm);
    var kind := J.Field("kind", KindJson(h.kind), limits);
    var rest := J.FieldsTail(vm);
    var a, b, k := J.IntText(h.limits.soft), J.IntText(h.limits.hard), KindText(h.kind);
    FieldTail("," + (J.Quoted("limits") + ":"), "limits", LimitsJson(h.limits), vm);
    FieldTail("," + (J.Quoted("kind") + ":"), "kind", KindJson(h.kind), limits);
    LimitsDumped(h.limits);
    ReportDumped(kind);
    LimitsPrinted(J.Quoted("limits"), a, b, rest);
    assert J.FieldsTail(limits) == LabelText(LLimits) + a + ("," + b) + ("]" + rest);
    var lk, ll := "," + (J.Quoted("kind") + ":"), LabelText(LLimits);
    assert J.FieldsTail(kind) == lk + (k + J.FieldsTail(limits));
    assert HeldJson(h) == J.Obj(J.Field("phase", J.Str("held"), kind));
    OpenReport(J.Quoted("phase"), J.Quoted("held"), lk, k + J.FieldsTail(limits));
    T.Associative(LabelText(LKind), k, J.FieldsTail(limits));
    T.Associative(ll + a, "," + b, "]" + rest);
    T.Associative(LabelText(LKind) + k, ll + a, ("," + b) + ("]" + rest));
    T.Associative((LabelText(LKind) + k) + (ll + a), "," + b, "]" + rest);
  }

  lemma LimitsPrinted(q: string, a: string, b: string, rest: string)
    ensures ("," + (q + ":")) + (("[" + (a + ("," + (b + "]")))) + rest) == ("," + (q + (":" + "["))) + a + ("," + b) + ("]" + rest)
  {
    T.Associative(q, ":", "[");
    T.Associative(",", q + ":", "[");
    T.Associative(",", b, "]");
    T.Associative(a, "," + b, "]");
    T.Associative("[", (a + ("," + b)) + "]", rest);
    T.Associative(a + ("," + b), "]", rest);
    T.Associative("," + (q + ":"), "[", (a + ("," + b)) + ("]" + rest));
    T.Associative("," + (q + (":" + "[")), a + ("," + b), "]" + rest);
    T.Associative("," + (q + (":" + "[")), a, "," + b);
  }

  lemma OpenReport(p: string, held: string, mark: string, rest: string)
    ensures "{" + (p + (":" + (held + (mark + rest)))) == ("{" + (p + (":" + (held + mark)))) + rest
  {
    T.Associative(held, mark, rest);
    T.Associative(":", held + mark, rest);
    T.Associative(p, ":" + (held + mark), rest);
    T.Associative("{", p + (":" + (held + mark)), rest);
  }

  /** The member's text is the canonical JSON of the report. */
  lemma ReportPrinted(h: Held)
    requires h == Reported(h.kind, h.limits, h.vm, h.blocks, h.failure, h.errno)
    ensures HeldText(h.kind, h.limits, h.vm, h.blocks, h.failure, h.errno) == J.Dumps(HeldJson(h)) + "\n"
  {
    hide HeadText, VmText, CountsText, TailText, J.Dumps, HeldJson, TailFields, CountFields, J.FieldsTail;
    TailPrinted(h);
    CountsPrinted(h);
    VmPrinted(h.vm, CountFields(h));
    HeadPrinted(h);
    var a, b, c, tail := HeadText(h.kind, h.limits), VmText(h.vm), CountsText(h.blocks), J.FieldsTail(TailFields(h));
    T.Associative(a + b + c, tail, "\n");
    T.Associative(a + b, c, tail);
    T.Associative(a, b, c + tail);
  }

  lemma VmDecoded(vm: Vm)
    requires ValidVm(vm)
    ensures J.Plain(J.Obj(VmFields(vm))) && DecodeVm(J.Obj(VmFields(vm))) == Some(vm)
  {
    assert VmCode("size") == 0 && VmCode("peak") == 1 && VmCode("rss") == 2 && VmCode("threads") == 3;
    var values := [J.Int(vm.size), J.Int(vm.peak), J.Int(vm.rss), J.Int(vm.threads)];
    assert J.Reads(J.NoField, VmCode, 4, values[4..]);
    hide VmCode, J.Reads;
    var threads := J.Field("threads", J.Int(vm.threads), J.NoField);
    var rss := J.Field("rss", J.Int(vm.rss), threads);
    var peak := J.Field("peak", J.Int(vm.peak), rss);
    J.ReadsAt("threads", J.Int(vm.threads), J.NoField, VmCode, 3, values);
    J.ReadsAt("rss", J.Int(vm.rss), threads, VmCode, 2, values);
    J.ReadsAt("peak", J.Int(vm.peak), rss, VmCode, 1, values);
    J.ReadsAt("size", J.Int(vm.size), peak, VmCode, 0, values);
    assert values[0..] == values;
    J.ReadsMeans(VmFields(vm), VmCode, 0, values);
    ByNumber(VmFields(vm), VmCode, values);
  }

  /** Numbered from zero, the fields are read back by their numbers. */
  lemma ByNumber(fields: J.Fields, code: string -> nat, values: seq<J.Json>)
    requires J.Reads(fields, code, 0, values)
    ensures J.ExactlyCoded(J.Obj(fields), code, |values|)
    ensures forall i :: 0 <= i < |values| ==> J.ByCode(J.Obj(fields), code, i) == values[i]
  {
    J.ReadsMeans(fields, code, 0, values);
    forall i | 0 <= i < |values|
      ensures i in J.Codes(fields, code) && J.ByCode(J.Obj(fields), code, i) == values[i]
    {
      assert J.FieldByCode(fields, code, i) == values[i - 0];
    }
  }

  lemma HeldCodes()
    ensures HeldCode("phase") == 0 && HeldCode("kind") == 1 && HeldCode("limits") == 2 && HeldCode("vm") == 3
    ensures HeldCode("accepted_bytes") == 4 && HeldCode("touched_pages") == 5 && HeldCode("blocks") == 6
    ensures HeldCode("failure") == 7 && HeldCode("errno") == 8
  {
  }

  lemma KindDecoded(kind: Kind)
    ensures J.Plain(KindJson(kind)) && DecodeKind(KindJson(kind)) == Some(kind)
  {
  }

  lemma LimitsDecoded(limits: Limits)
    ensures J.Plain(LimitsJson(limits)) && DecodeLimits(LimitsJson(limits)) == Some(limits)
  {
    assert J.PlainItems(J.NoItem);
    assert J.PlainItems(J.Item(J.Int(limits.hard), J.NoItem));
  }

  lemma FailureDecoded(failure: Failure)
    ensures J.Plain(FailureJson(failure)) && DecodeFailure(FailureJson(failure)) == Some(failure)
  {
    match failure
    case NONE =>
    case MEMORY => assert J.Str("MEMORY").s[0] != J.Str("NONE").s[0];
    case ENOMEM => assert J.Str("ENOMEM").s[0] != J.Str("NONE").s[0] && J.Str("ENOMEM").s[0] != J.Str("MEMORY").s[0];
    case OTHER =>
      assert J.Str("OTHER").s[0] != J.Str("NONE").s[0] && J.Str("OTHER").s[0] != J.Str("MEMORY").s[0]
        && J.Str("OTHER").s[0] != J.Str("ENOMEM").s[0];
  }

  lemma ErrnoDecoded(errno: Option<int>)
    ensures J.Plain(ErrnoJson(errno)) && DecodeErrno(ErrnoJson(errno)) == Some(errno)
  {
  }

  function HeldValues(h: Held): seq<J.Json> {
    [J.Str("held"), KindJson(h.kind), LimitsJson(h.limits), J.Obj(VmFields(h.vm)),
     J.Int(h.accepted), J.Int(h.pages), J.Int(h.blocks), FailureJson(h.failure), ErrnoJson(h.errno)]
  }

  lemma KeysPlain()
    ensures J.PlainText("phase") && J.PlainText("kind") && J.PlainText("limits") && J.PlainText("vm")
    ensures J.PlainText("accepted_bytes") && J.PlainText("touched_pages") && J.PlainText("blocks")
    ensures J.PlainText("failure") && J.PlainText("errno") && J.PlainText("held")
  {
  }

  lemma TailRead(h: Held)
    ensures J.Reads(TailFields(h), HeldCode, 7, HeldValues(h)[7..])
  {
    HeldCodes();
    KeysPlain();
    FailureDecoded(h.failure);
    ErrnoDecoded(h.errno);
    var values := HeldValues(h);
    assert values[9..] == [];
    assert J.Reads(J.NoField, HeldCode, 9, values[9..]);
    hide HeldCode, FailureJson, ErrnoJson, J.Reads, KindJson, LimitsJson, VmFields, J.PlainText;
    var errno := J.Field("errno", ErrnoJson(h.errno), J.NoField);
    J.ReadsAt("errno", ErrnoJson(h.errno), J.NoField, HeldCode, 8, values);
    J.ReadsAt("failure", FailureJson(h.failure), errno, HeldCode, 7, values);
  }

  lemma CountsRead(h: Held)
    ensures J.Reads(CountFields(h), HeldCode, 4, HeldValues(h)[4..])
  {
    HeldCodes();
    KeysPlain();
    TailRead(h);
    var values := HeldValues(h);
    hide HeldCode, FailureJson, ErrnoJson, J.Reads, KindJson, LimitsJson, VmFields, J.PlainText, TailFields;
    var blocks := J.Field("blocks", J.Int(h.blocks), TailFields(h));
    var pages := J.Field("touched_pages", J.Int(h.pages), blocks);
    J.ReadsAt("blocks", J.Int(h.blocks), TailFields(h), HeldCode, 6, values);
    J.ReadsAt("touched_pages", J.Int(h.pages), blocks, HeldCode, 5, values);
    J.ReadsAt("accepted_bytes", J.Int(h.accepted), pages, HeldCode, 4, values);
  }

  lemma ReportReads(h: Held)
    requires ValidVm(h.vm)
    ensures HeldJson(h).Obj? && J.Reads(HeldJson(h).fields, HeldCode, 0, HeldValues(h))
  {
    HeldCodes();
    KeysPlain();
    KindDecoded(h.kind);
    LimitsDecoded(h.limits);
    VmDecoded(h.vm);
    CountsRead(h);
    hide HeldCode, CountFields, VmFields, KindJson, LimitsJson, FailureJson, ErrnoJson, J.Reads, J.PlainText,
      DecodeVm, DecodeKind, DecodeLimits;
    var values := HeldValues(h);
    var vm := J.Field("vm", J.Obj(VmFields(h.vm)), CountFields(h));
    var limits := J.Field("limits", LimitsJson(h.limits), vm);
    var kind := J.Field("kind", KindJson(h.kind), limits);
    J.ReadsAt("vm", J.Obj(VmFields(h.vm)), CountFields(h), HeldCode, 3, values);
    J.ReadsAt("limits", LimitsJson(h.limits), vm, HeldCode, 2, values);
    J.ReadsAt("kind", KindJson(h.kind), limits, HeldCode, 1, values);
    J.ReadsAt("phase", J.Str("held"), kind, HeldCode, 0, values);
    assert values[0..] == values;
  }

  lemma ReportDecoded(h: Held)
    requires Coherent(h)
    ensures J.Plain(HeldJson(h)) && DecodeEvent(HeldJson(h)) == Some(h)
  {
    KindDecoded(h.kind);
    LimitsDecoded(h.limits);
    FailureDecoded(h.failure);
    ErrnoDecoded(h.errno);
    VmDecoded(h.vm);
    ReportReads(h);
    var fields := HeldJson(h).fields;
    J.ReadsMeans(fields, HeldCode, 0, HeldValues(h));
    ByNumber(fields, HeldCode, HeldValues(h));
    hide HeldCode, CountFields, VmFields, KindJson, LimitsJson, DecodeVm, DecodeKind, DecodeLimits, DecodeFailure, DecodeErrno,
      Coherent, FailureJson, ErrnoJson, HeldJson, J.ByCode, J.ExactlyCoded, J.Reads;
  }

  /** Whatever the printer admits, the parent decodes to the same values, with bytes and pages of the blocks. */
  lemma RoundTrip(kind: Kind, limits: Limits, vm: Vm, blocks: int, failure: Failure, errno: Option<int>)
    requires Encodable(limits, vm, blocks, failure, errno)
    ensures DecodeHeld(HeldText(kind, limits, vm, blocks, failure, errno))
      == Some(Held(kind, limits, vm, blocks * STEP, blocks * STEP / PAGE, blocks, failure, errno))
  {
    var h := Reported(kind, limits, vm, blocks, failure, errno);
    var raw := HeldText(kind, limits, vm, blocks, failure, errno);
    ReportPrinted(h);
    ReportSize(kind, limits, vm, blocks, failure, errno);
    ReportCoherent(kind, limits, vm, blocks, failure, errno);
    ReportDecoded(h);
    hide HeldText, DecodeEvent, Coherent, HeldJson, J.Dumps, J.Loads, J.Plain, Encodable;
    assert raw[..|raw| - 1] == J.Dumps(HeldJson(h));
    J.LoadsIffDumps(raw[..|raw| - 1], HeldJson(h));
  }

  lemma ReportCoherent(kind: Kind, limits: Limits, vm: Vm, blocks: int, failure: Failure, errno: Option<int>)
    requires Encodable(limits, vm, blocks, failure, errno)
    ensures Coherent(Reported(kind, limits, vm, blocks, failure, errno))
  {
  }

  lemma ReportSize(kind: Kind, limits: Limits, vm: Vm, blocks: int, failure: Failure, errno: Option<int>)
    requires Encodable(limits, vm, blocks, failure, errno)
    ensures 1 <= |HeldText(kind, limits, vm, blocks, failure, errno)| <= LINE_MAX
  {
    hide J.IntText, LabelText, KindText, FailureText;
    forall l ensures |LabelText(l)| <= 23 { LabelLength(l); }
    forall i | -1 <= i <= LIMIT50 ensures 1 <= |J.IntText(i)| <= 16 { IntTextLength(i); }
    WordLength(kind, failure);
  }

  /** Conversely every accepted line is the canonical text of its own object and is coherent. */
  lemma AcceptedIsCoherent(raw: string)
    requires DecodeHeld(raw).Some?
    ensures Coherent(DecodeHeld(raw).value)
    ensures exists j :: J.Plain(j) && raw == J.Dumps(j) + "\n" && DecodeEvent(j) == DecodeHeld(raw)
  {
    hide DecodeEvent, Coherent, J.Dumps, J.Plain;
    var j := J.Loads(raw[..|raw| - 1]).value;
    J.LoadsIffDumps(raw[..|raw| - 1], j);
    assert raw == raw[..|raw| - 1] + "\n";
    EventIsCoherent(j);
  }

  lemma EventIsCoherent(j: J.Json)
    requires DecodeEvent(j).Some?
    ensures Coherent(DecodeEvent(j).value)
  {
    hide HeldCode, DecodeVm, DecodeKind, DecodeLimits, DecodeFailure, DecodeErrno, Coherent;
  }
}
