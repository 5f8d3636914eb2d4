/** Extra fields of a ZIP header: tagged blocks, back to back (PKWARE APPNOTE.TXT section 4.5.1). */
module Extras {
  import opened Common
  import opened Bytes

  const EXTRA_BYTES := 4096

  datatype Field = Field(kind: nat, data: seq<Byte>)

  /** A block the two length fields can carry, and not the one of ZIP64. */
  predicate Carried(f: Field) { f.kind < 65536 && f.kind != 1 && |f.data| < 65536 }

  function Block(f: Field): seq<Byte> { Little(f.kind, 2) + Little(|f.data|, 2) + f.data }

  function Written(fields: seq<Field>): seq<Byte> {
    if fields == [] then [] else Block(fields[0]) + Written(fields[1..])
  }

  function Parse(raw: seq<Byte>): Option<seq<Field>>
    decreases |raw|
  {
    if raw == [] then Some([])
    else if |raw| < 4 then None
    else
      var kind, length := U16(raw, 0), U16(raw, 2);
      if kind == 1 || 4 + length > |raw| then None
      else
        var rest := Parse(raw[4 + length..]);
        if rest.None? then None else Some([Field(kind, raw[4..4 + length])] + rest.value)
  }

  function ExtraFields(raw: seq<Byte>): Option<seq<Field>> {
    if |raw| > EXTRA_BYTES then None else Parse(raw)
  }

  lemma Base2()
    ensures Base(2) == 65536
  {
    assert Base(1) == 256;
  }

  lemma BlockRead(f: Field, rest: seq<Byte>)
    requires Carried(f)
    ensures var raw := Block(f) + rest;
      && |raw| >= 4 && U16(raw, 0) == f.kind && U16(raw, 2) == |f.data| && 4 + |f.data| <= |raw|
      && raw[4..4 + |f.data|] == f.data && raw[4 + |f.data|..] == rest
  {
    Base2();
    ValueOfLittle(f.kind, 2);
    ValueOfLittle(|f.data|, 2);
    hide Value, Little;
    var raw := Block(f) + rest;
    assert raw[0..2] == Little(f.kind, 2) && raw[2..4] == Little(|f.data|, 2);
  }

  lemma BlockWritten(raw: seq<Byte>)
    requires |raw| >= 4 && U16(raw, 0) != 1 && 4 + U16(raw, 2) <= |raw|
    ensures var f := Field(U16(raw, 0), raw[4..4 + U16(raw, 2)]);
      Carried(f) && raw == Block(f) + raw[4 + U16(raw, 2)..]
  {
    Base2();
    LittleOfValue(raw[0..2]);
    LittleOfValue(raw[2..4]);
    hide Value, Little;
    assert raw == raw[0..2] + raw[2..4] + raw[4..4 + U16(raw, 2)] + raw[4 + U16(raw, 2)..];
  }

  predicate AllCarried(fields: seq<Field>) { forall i :: 0 <= i < |fields| ==> Carried(fields[i]) }

  lemma CarriedMore(f: Field, fields: seq<Field>)
    ensures AllCarried([f] + fields) <==> Carried(f) && AllCarried(fields)
  {
    hide Carried;
    if AllCarried([f] + fields) {
      assert Carried(([f] + fields)[0]);
      forall i | 0 <= i < |fields| ensures Carried(fields[i]) { assert fields[i] == ([f] + fields)[i + 1]; }
    }
  }

  lemma {:induction false} ParsedIsWritten(raw: seq<Byte>, fields: seq<Field>)
    requires Parse(raw) == Some(fields)
    ensures raw == Written(fields) && AllCarried(fields)
    decreases |raw|
  {
    hide Value, Little, Carried, Block, AllCarried;
    if raw == [] {
      NoneCarried();
    } else {
      BlockWritten(raw);
      var rest, f := raw[4 + U16(raw, 2)..], fields[0];
      assert fields == [f] + Parse(rest).value;
      ParsedIsWritten(rest, fields[1..]);
      CarriedMore(f, fields[1..]);
    }
  }

  lemma NoneCarried()
    ensures AllCarried([])
  {
  }

  lemma {:induction false} WrittenIsParsed(fields: seq<Field>)
    requires AllCarried(fields)
    ensures Parse(Written(fields)) == Some(fields)
    decreases |fields|
  {
    hide Value, Little, Block;
    if fields != [] {
      var f, rest := fields[0], Written(fields[1..]);
      assert fields == [f] + fields[1..];
      CarriedMore(f, fields[1..]);
      WrittenIsParsed(fields[1..]);
      BlockRead(f, rest);
    }
  }

  /** Parsing accepts exactly the written blocks, and returns them. */
  lemma ParseIffWritten(raw: seq<Byte>, fields: seq<Field>)
    ensures Parse(raw) == Some(fields) <==> raw == Written(fields) && AllCarried(fields)
  {
    if Parse(raw) == Some(fields) {
      ParsedIsWritten(raw, fields);
    }
    if raw == Written(fields) && AllCarried(fields) {
      WrittenIsParsed(fields);
    }
  }

  /** One block further into the raw bytes. */
  lemma ParseAt(raw: seq<Byte>, offset: nat)
    requires offset < |raw|
    ensures offset + 4 > |raw| ==> Parse(raw[offset..]).None?
    ensures offset + 4 <= |raw| ==>
      var kind, length := U16(raw, offset), U16(raw, offset + 2);
      var next := offset + 4 + length;
      Parse(raw[offset..]) ==
        if kind == 1 || next > |raw| || Parse(raw[next..]).None? then None
        else Some([Field(kind, raw[offset + 4..next])] + Parse(raw[next..]).value)
  {
    hide Value;
    var rest := raw[offset..];
    assert rest == raw[offset..|raw|];
    if offset + 4 <= |raw| {
      Through(raw, offset, |raw|, 0);
      Through(raw, offset, |raw|, 2);
      var next := offset + 4 + U16(raw, offset + 2);
      if next <= |raw| {
        Slice(raw, offset, |raw|, 4, next - offset);
        Slice(raw, offset, |raw|, next - offset, |raw| - offset);
      }
    }
  }

  /** What the rest adds to what was found. */
  function Onto(found: seq<Field>, rest: Option<seq<Field>>): Option<seq<Field>> {
    if rest.None? then None else Some(found + rest.value)
  }

  lemma OntoNothing(rest: Option<seq<Field>>)
    ensures Onto([], rest) == rest
  {
    if rest.Some? {
      assert [] + rest.value == rest.value;
    }
  }

  lemma OntoMore(found: seq<Field>, f: Field, rest: seq<Field>)
    ensures Onto(found, Some([f] + rest)) == Onto(found + [f], Some(rest))
  {
    assert found + ([f] + rest) == (found + [f]) + rest;
  }

  /** The loop over the offsets. */
  method ReadExtraFields(raw: seq<Byte>) returns (fields: Option<seq<Field>>)
    ensures fields == ExtraFields(raw)
  {
    if |raw| > EXTRA_BYTES {
      return None;
    }
    var offset, found := 0, [];
    assert raw[0..] == raw;
    OntoNothing(Parse(raw));
    while offset < |raw|
      invariant 0 <= offset <= |raw| && Parse(raw) == Onto(found, Parse(raw[offset..]))
    {
      hide Value, Parse;
      ParseAt(raw, offset);
      if offset + 4 > |raw| {
        return None;
      }
      var kind, length := U16(raw, offset), U16(raw, offset + 2);
      offset := offset + 4;
      if kind == 1 || offset + length > |raw| {
        return None;
      }
      var field := Field(kind, raw[offset..offset + length]);
      if Parse(raw[offset + length..]).Some? {
        OntoMore(found, field, Parse(raw[offset + length..]).value);
      }
      found := found + [field];
      offset := offset + length;
    }
    assert raw[offset..] == [] && found + [] == found;
    return Some(found);
  }
}
