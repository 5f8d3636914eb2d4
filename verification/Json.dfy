/**
  The compact JSON the fixed-shape printers write: no spaces, no escapes, integers only.
  The parser accepts exactly this language, so a text it accepts is the text that
  re-printing its value gives.
*/
module Json {
  import opened Common
  import D = Decimal

  datatype Json =
    | Null
    | Bool(b: bool)
    | Int(i: int)
    | Str(s: string)
    | Arr(items: Items)
    | Obj(fields: Fields)

  datatype Items = NoItem | Item(head: Json, tail: Items)

  datatype Fields = NoField | Field(key: string, value: Json, rest: Fields)

  /** Characters json prints as themselves inside a string. */
  predicate PlainChar(c: char) { 32 <= c as int <= 126 && c != '"' && c != '\\' }

  predicate PlainText(s: string) { forall i :: 0 <= i < |s| ==> PlainChar(s[i]) }

  predicate Plain(j: Json) {
    match j
    case Null => true
    case Bool(_) => true
    case Int(_) => true
    case Str(s) => PlainText(s)
    case Arr(items) => PlainItems(items)
    case Obj(fields) => PlainFields(fields)
  }

  predicate PlainItems(items: Items) {
    match items
    case NoItem => true
    case Item(head, tail) => Plain(head) && PlainItems(tail)
  }

  predicate PlainFields(fields: Fields) {
    match fields
    case NoField => true
    case Field(key, value, rest) => PlainText(key) && Plain(value) && PlainFields(rest)
  }

  // ---------------------------------------------------------------- printing

  function IntText(i: int): string {
    if i < 0 then "-" + D.Text(-i) else D.Text(i)
  }

  function Quoted(s: string): string { "\"" + s + "\"" }

  function Dumps(j: Json): string
    decreases j, 0
  {
    match j
    case Null => "null"
    case Bool(b) => if b then "true" else "false"
    case Int(i) => IntText(i)
    case Str(s) => Quoted(s)
    case Arr(items) => "[" + ItemsText(items)
    case Obj(fields) => "{" + FieldsText(fields)
  }

  function ItemsText(items: Items): string
    decreases items, 0
  {
    match items
    case NoItem => "]"
    case Item(head, tail) => Dumps(head) + ItemsTail(tail)
  }

  function FieldsText(fields: Fields): string
    decreases fields, 0
  {
    match fields
    case NoField => "}"
    case Field(key, value, rest) => Quoted(key) + (":" + (Dumps(value) + FieldsTail(rest)))
  }

  /** What follows an element: a comma and the others, or the bracket. */
  function ItemsTail(items: Items): string
    decreases items, 1
  {
    match items
    case NoItem => "]"
    case Item(_, _) => "," + ItemsText(items)
  }

  function FieldsTail(fields: Fields): string
    decreases fields, 1
  {
    match fields
    case NoField => "}"
    case Field(_, _, _) => "," + FieldsText(fields)
  }

  // ---------------------------------------------------------------- parsing

  function DigitPrefix(s: string): (n: nat)
    ensures n <= |s|
    ensures D.AllDigits(s[..n])
    ensures n < |s| ==> !D.IsDigit(s[n])
  {
    if s == [] || !D.IsDigit(s[0]) then 0
    else
      var n := DigitPrefix(s[1..]);
      assert s[..n + 1] == [s[0]] + s[1..][..n];
      n + 1
  }

  function ParseNat(s: string): (r: Option<(nat, string)>)
    ensures r.Some? ==> |r.value.1| < |s|
  {
    var n := DigitPrefix(s);
    if D.Canonical(s[..n]) then Some((D.Value(s[..n]), s[n..])) else None
  }

  function ParseInt(s: string): (r: Option<(int, string)>)
    ensures r.Some? ==> |r.value.1| < |s|
  {
    if s != [] && s[0] == '-' then
      var r := ParseNat(s[1..]);
      if r.Some? && r.value.0 > 0 then Some((-(r.value.0 as int), r.value.1)) else None
    else
      var r := ParseNat(s);
      if r.Some? then Some((r.value.0 as int, r.value.1)) else None
  }

  function QuoteAt(s: string): (n: nat)
    ensures n <= |s|
    ensures PlainText(s[..n])
    ensures n < |s| ==> !PlainChar(s[n])
  {
    if s == [] || !PlainChar(s[0]) then 0
    else
      var n := QuoteAt(s[1..]);
      assert s[..n + 1] == [s[0]] + s[1..][..n];
      n + 1
  }

  function ParseString(s: string): (r: Option<(string, string)>)
    ensures r.Some? ==> |r.value.1| < |s|
  {
    if s == [] || s[0] != '"' then None
    else
      var n := QuoteAt(s[1..]);
      if n < |s| - 1 && s[n + 1] == '"' then Some((s[1..][..n], s[n + 2..])) else None
  }

  /** The literal spelled `word`, which the first character has already selected. */
  function ParseWord(s: string, word: string, value: Json): (r: Option<(Json, string)>)
    requires word != []
    ensures r.Some? ==> |r.value.1| < |s|
  {
    if |word| <= |s| && s[..|word|] == word then Some((value, s[|word|..])) else None
  }

  function ParseValue(s: string): (r: Option<(Json, string)>)
    ensures r.Some? ==> |r.value.1| < |s|
    decreases |s|, 1
  {
    if s == [] then None
    else if s[0] == 'n' then ParseWord(s, "null", Null)
    else if s[0] == 't' then ParseWord(s, "true", Bool(true))
    else if s[0] == 'f' then ParseWord(s, "false", Bool(false))
    else if s[0] == '"' then
      var r := ParseString(s);
      if r.Some? then Some((Str(r.value.0), r.value.1)) else None
    else if s[0] == '[' then
      var r := ParseItems(s[1..]);
      if r.Some? then Some((Arr(r.value.0), r.value.1)) else None
    else if s[0] == '{' then
      var r := ParseFields(s[1..]);
      if r.Some? then Some((Obj(r.value.0), r.value.1)) else None
    else
      var r := ParseInt(s);
      if r.Some? then Some((Int(r.value.0), r.value.1)) else None
  }

  function ParseItems(s: string): (r: Option<(Items, string)>)
    ensures r.Some? ==> |r.value.1| < |s|
    decreases |s|, 3
  {
    if s != [] && s[0] == ']' then Some((NoItem, s[1..])) else ParseItem(s)
  }

  function ParseFields(s: string): (r: Option<(Fields, string)>)
    ensures r.Some? ==> |r.value.1| < |s|
    decreases |s|, 3
  {
    if s != [] && s[0] == '}' then Some((NoField, s[1..])) else ParseField(s)
  }

  /** One element and what follows it, up to and including the closing bracket. */
  function ParseItem(s: string): (r: Option<(Items, string)>)
    ensures r.Some? ==> |r.value.1| < |s|
    decreases |s|, 2
  {
    var v := ParseValue(s);
    if v.None? then None
    else
      var t := ParseItemsTail(v.value.1);
      if t.None? then None else Some((Item(v.value.0, t.value.0), t.value.1))
  }

  function ParseItemsTail(s: string): (r: Option<(Items, string)>)
    ensures r.Some? ==> |r.value.1| < |s|
    decreases |s|, 0
  {
    if s == [] then None
    else if s[0] == ']' then Some((NoItem, s[1..]))
    else if s[0] == ',' then ParseItem(s[1..])
    else None
  }

  function ParseField(s: string): (r: Option<(Fields, string)>)
    ensures r.Some? ==> |r.value.1| < |s|
    decreases |s|, 2
  {
    var k := ParseString(s);
    if k.None? || k.value.1 == [] || k.value.1[0] != ':' then None
    else
      var v := ParseValue(k.value.1[1..]);
      if v.None? then None
      else
        var t := ParseFieldsTail(v.value.1);
        if t.None? then None else Some((Field(k.value.0, v.value.0, t.value.0), t.value.1))
  }

  function ParseFieldsTail(s: string): (r: Option<(Fields, string)>)
    ensures r.Some? ==> |r.value.1| < |s|
    decreases |s|, 0
  {
    if s == [] then None
    else if s[0] == '}' then Some((NoField, s[1..]))
    else if s[0] == ',' then ParseField(s[1..])
    else None
  }

  function Loads(s: string): Option<Json> {
    var r := ParseValue(s);
    if r.Some? && r.value.1 == [] then Some(r.value.0) else None
  }

  // ---------------------------------------------------------------- objects read by key number

  function Codes(fields: Fields, code: string -> nat): seq<nat> {
    match fields
    case NoField => []
    case Field(key, _, rest) => [code(key)] + Codes(rest, code)
  }

  /** The object has n fields, numbered 0 to n - 1 in some order. */
  predicate ExactlyCoded(j: Json, code: string -> nat, n: nat) {
    j.Obj? && |Codes(j.fields, code)| == n && forall i :: 0 <= i < n ==> i in Codes(j.fields, code)
  }

  function FieldByCode(fields: Fields, code: string -> nat, i: nat): Json {
    match fields
    case NoField => Null
    case Field(key, value, rest) => if code(key) == i then value else FieldByCode(rest, code, i)
  }

  function ByCode(j: Json, code: string -> nat, i: nat): Json {
    if j.Obj? then FieldByCode(j.fields, code, i) else Null
  }

  /** The fields are numbered from, from + 1, ... in this order and hold these values. */
  predicate Reads(fields: Fields, code: string -> nat, from: nat, values: seq<Json>) {
    match fields
    case NoField => values == []
    case Field(key, value, rest) =>
      values != [] && code(key) == from && PlainText(key) && Plain(value) && value == values[0]
      && Reads(rest, code, from + 1, values[1..])
  }

  lemma {:induction false} ReadsMeans(fields: Fields, code: string -> nat, from: nat, values: seq<Json>)
    requires Reads(fields, code, from, values)
    ensures PlainFields(fields) && |Codes(fields, code)| == |values|
    ensures forall n :: from <= n < from + |values| ==>
      n in Codes(fields, code) && FieldByCode(fields, code, n) == values[n - from]
  {
    if fields.Field? {
      ReadsMeans(fields.rest, code, from + 1, values[1..]);
      assert Codes(fields, code)[0] == from;
      forall n | from < n < from + |values|
        ensures n in Codes(fields, code) && FieldByCode(fields, code, n) == values[n - from]
      {
        assert n in Codes(fields.rest, code) && FieldByCode(fields.rest, code, n) == values[1..][n - (from + 1)];
      }
    }
  }

  /** One more field in front, numbered k, when the rest already reads as values[k + 1..]. */
  lemma ReadsAt(key: string, value: Json, rest: Fields, code: string -> nat, k: nat, values: seq<Json>)
    requires k < |values| && values[k] == value
    requires Reads(rest, code, k + 1, values[k + 1..]) && code(key) == k && PlainText(key) && Plain(value)
    ensures Reads(Field(key, value, rest), code, k, values[k..])
  {
    assert values[k..][1..] == values[k + 1..];
  }

  /** One more field in front: what it adds to the text and to plainness. */
  lemma Prepend(key: string, value: Json, rest: Fields)
    ensures var all := Field(key, value, rest);
      && |FieldsText(all)| <= |key| + 4 + |Dumps(value)| + |FieldsText(rest)|
      && (PlainFields(all) <==> PlainText(key) && Plain(value) && PlainFields(rest))
  {
  }

  // ---------------------------------------------------------------- parse after print

  /** What may follow an integer without changing it. */
  predicate Stops(rest: string) { rest == [] || !D.IsDigit(rest[0]) }

  lemma {:induction false} DigitPrefixOf(a: string, rest: string)
    requires D.AllDigits(a) && Stops(rest)
    ensures DigitPrefix(a + rest) == |a|
  {
    if a == [] {
      assert a + rest == rest;
    } else {
      assert (a + rest)[1..] == a[1..] + rest;
      DigitPrefixOf(a[1..], rest);
    }
  }

  lemma NatParsed(n: nat, rest: string)
    requires Stops(rest)
    ensures ParseNat(D.Text(n) + rest) == Some((n, rest))
  {
    hide D.Text, D.Value, DigitPrefix, D.Canonical;
    D.TextIsCanonical(n);
    DigitPrefixOf(D.Text(n), rest);
    var s := D.Text(n) + rest;
    assert s[..|D.Text(n)|] == D.Text(n) && s[|D.Text(n)|..] == rest;
  }

  lemma IntParsed(i: int, rest: string)
    requires Stops(rest)
    ensures ParseInt(IntText(i) + rest) == Some((i, rest))
  {
    hide D.Text, ParseNat;
    var n: nat := if i < 0 then -i else i;
    NatParsed(n, rest);
    var s := D.Text(n) + rest;
    if i < 0 {
      assert (IntText(i) + rest)[1..] == s;
    } else {
      assert D.IsDigit((IntText(i) + rest)[0]);
    }
  }

  lemma {:induction false} QuoteAtOf(a: string, rest: string)
    requires PlainText(a) && rest != [] && rest[0] == '"'
    ensures QuoteAt(a + rest) == |a|
  {
    if a == [] {
      assert a + rest == rest;
    } else {
      assert (a + rest)[1..] == a[1..] + rest;
      QuoteAtOf(a[1..], rest);
    }
  }

  lemma StringParsed(a: string, rest: string)
    requires PlainText(a)
    ensures ParseString(Quoted(a) + rest) == Some((a, rest))
  {
    var s := Quoted(a) + rest;
    assert s[1..] == a + ("\"" + rest);
    QuoteAtOf(a, "\"" + rest);
    assert s[1..][..|a|] == a;
    assert s[|a| + 1] == '"';
    assert s[|a| + 2..] == rest;
  }

  lemma FirstChar(j: Json)
    ensures Dumps(j) != [] && Dumps(j)[0] != ']'
    ensures j.Int? ==> Dumps(j)[0] == '-' || D.IsDigit(Dumps(j)[0])
  {
    if j.Int? {
      D.TextIsCanonical(if j.i < 0 then -j.i else j.i);
    }
  }

  lemma WordParsed(word: string, value: Json, rest: string)
    requires word != []
    ensures ParseWord(word + rest, word, value) == Some((value, rest))
  {
    assert (word + rest)[..|word|] == word && (word + rest)[|word|..] == rest;
  }

  lemma {:induction false} ValueParsed(j: Json, rest: string)
    requires Plain(j) && (j.Int? ==> Stops(rest))
    ensures ParseValue(Dumps(j) + rest) == Some((j, rest))
    decreases j
  {
    hide ParseString, ParseInt, ParseItem, ParseField, PlainText, QuoteAt, D.Text;
    var s := Dumps(j) + rest;
    FirstChar(j);
    assert s[0] == Dumps(j)[0];
    match j
    case Null => WordParsed("null", j, rest);
    case Bool(b) => WordParsed(if b then "true" else "false", j, rest);
    case Int(i) => IntParsed(i, rest);
    case Str(t) => StringParsed(t, rest);
    case Arr(items) =>
      assert s[1..] == ItemsText(items) + rest;
      if items.Item? { ItemParsed(items, rest); } else { assert s[2..] == rest; }
    case Obj(fields) =>
      assert s[1..] == FieldsText(fields) + rest;
      if fields.Field? { FieldParsed(fields, rest); } else { assert s[2..] == rest; }
  }

  lemma {:induction false} ItemParsed(items: Items, rest: string)
    requires items.Item? && PlainItems(items)
    ensures ParseItem(ItemsText(items) + rest) == Some((items, rest))
    ensures (ItemsText(items) + rest)[0] != ']'
    decreases items, 0
  {
    hide ParseValue, Dumps, PlainText, Plain, ParseItemsTail, Stops;
    var after := ItemsTail(items.tail) + rest;
    ItemsTailParsed(items.tail, rest);
    assert ItemsText(items) + rest == Dumps(items.head) + after;
    FirstChar(items.head);
    ValueParsed(items.head, after);
  }

  lemma {:induction false} ItemsTailParsed(items: Items, rest: string)
    requires PlainItems(items)
    ensures ParseItemsTail(ItemsTail(items) + rest) == Some((items, rest))
    ensures Stops(ItemsTail(items) + rest)
    decreases items, 1
  {
    var after := ItemsTail(items) + rest;
    if items.Item? {
      assert after[1..] == ItemsText(items) + rest;
      ItemParsed(items, rest);
    } else {
      assert after[1..] == rest;
    }
  }

  lemma {:induction false} FieldParsed(fields: Fields, rest: string)
    requires fields.Field? && PlainFields(fields)
    ensures ParseField(FieldsText(fields) + rest) == Some((fields, rest))
    ensures (FieldsText(fields) + rest)[0] == '"'
    decreases fields, 0
  {
    hide ParseValue, ParseString, Dumps, PlainText, Plain;
    var after := FieldsTail(fields.rest) + rest;
    FieldsTailParsed(fields.rest, rest);
    var mid := ":" + (Dumps(fields.value) + after);
    assert FieldsText(fields) + rest == Quoted(fields.key) + mid;
    StringParsed(fields.key, mid);
    assert mid[1..] == Dumps(fields.value) + after;
    ValueParsed(fields.value, after);
  }

  lemma {:induction false} FieldsTailParsed(fields: Fields, rest: string)
    requires PlainFields(fields)
    ensures ParseFieldsTail(FieldsTail(fields) + rest) == Some((fields, rest))
    ensures Stops(FieldsTail(fields) + rest)
    decreases fields, 1
  {
    var after := FieldsTail(fields) + rest;
    if fields.Field? {
      assert after[1..] == FieldsText(fields) + rest;
      FieldParsed(fields, rest);
    } else {
      assert after[1..] == rest;
    }
  }

  // ---------------------------------------------------------------- print after parse

  lemma NatPrinted(s: string)
    requires ParseNat(s).Some?
    ensures s == D.Text(ParseNat(s).value.0) + ParseNat(s).value.1
  {
    var n := DigitPrefix(s);
    D.ValueIsInverse(s[..n]);
    assert s == s[..n] + s[n..];
  }

  lemma IntPrinted(s: string)
    requires ParseInt(s).Some?
    ensures s == IntText(ParseInt(s).value.0) + ParseInt(s).value.1
  {
    if s[0] == '-' {
      NatPrinted(s[1..]);
      assert s == "-" + s[1..];
    } else {
      NatPrinted(s);
    }
  }

  lemma StringPrinted(s: string)
    requires ParseString(s).Some?
    ensures PlainText(ParseString(s).value.0)
    ensures s == Quoted(ParseString(s).value.0) + ParseString(s).value.1
  {
    var n := QuoteAt(s[1..]);
    assert s == "\"" + s[1..][..n] + "\"" + s[n + 2..];
  }

  lemma WordPrinted(s: string, word: string, value: Json)
    requires word != [] && ParseWord(s, word, value).Some?
    ensures s == word + ParseWord(s, word, value).value.1
  {
    assert s == s[..|word|] + s[|word|..];
  }

  lemma {:induction false} ValuePrinted(s: string, j: Json, rest: string)
    requires ParseValue(s) == Some((j, rest))
    ensures Plain(j) && s == Dumps(j) + rest
    decreases |s|, 1
  {
    hide ParseString, ParseInt, ParseItems, ParseFields, PlainText, QuoteAt, D.Text, ItemsText, FieldsText;
    if s[0] == 'n' {
      WordPrinted(s, "null", Null);
    } else if s[0] == 't' {
      WordPrinted(s, "true", Bool(true));
    } else if s[0] == 'f' {
      WordPrinted(s, "false", Bool(false));
    } else if s[0] == '"' {
      StringPrinted(s);
    } else if s[0] == '[' {
      ItemsPrinted(s[1..], j.items, rest);
      assert s == "[" + s[1..];
    } else if s[0] == '{' {
      FieldsPrinted(s[1..], j.fields, rest);
      assert s == "{" + s[1..];
    } else {
      IntPrinted(s);
    }
  }

  lemma {:induction false} ItemsPrinted(s: string, items: Items, rest: string)
    requires ParseItems(s) == Some((items, rest))
    ensures PlainItems(items) && s == ItemsText(items) + rest
    decreases |s|, 3
  {
    if s[0] == ']' {
      assert s == "]" + s[1..];
    } else {
      ItemPrinted(s, items, rest);
    }
  }

  lemma {:induction false} FieldsPrinted(s: string, fields: Fields, rest: string)
    requires ParseFields(s) == Some((fields, rest))
    ensures PlainFields(fields) && s == FieldsText(fields) + rest
    decreases |s|, 3
  {
    if s[0] == '}' {
      assert s == "}" + s[1..];
    } else {
      FieldPrinted(s, fields, rest);
    }
  }

  lemma {:induction false} ItemPrinted(s: string, items: Items, rest: string)
    requires ParseItem(s) == Some((items, rest))
    ensures items.Item? && PlainItems(items) && s == ItemsText(items) + rest
    decreases |s|, 2
  {
    hide ParseValue, Dumps, Plain, ParseItemsTail, ItemsTail;
    var t := ParseValue(s).value.1;
    ValuePrinted(s, items.head, t);
    ItemsTailPrinted(t, items.tail, rest);
  }

  lemma {:induction false} ItemsTailPrinted(t: string, items: Items, rest: string)
    requires ParseItemsTail(t) == Some((items, rest))
    ensures PlainItems(items) && t == ItemsTail(items) + rest
    decreases |t|, 0
  {
    hide ParseItem, ItemsText;
    assert t == t[..1] + t[1..];
    if t[0] == ',' {
      ItemPrinted(t[1..], items, rest);
    }
  }

  lemma {:induction false} FieldPrinted(s: string, fields: Fields, rest: string)
    requires ParseField(s) == Some((fields, rest))
    ensures fields.Field? && PlainFields(fields) && s == FieldsText(fields) + rest
    decreases |s|, 2
  {
    hide ParseValue, ParseString, Dumps, Quoted, PlainText, Plain;
    StringPrinted(s);
    var k := ParseString(s).value.1;
    var t := ParseValue(k[1..]).value.1;
    ValuePrinted(k[1..], fields.value, t);
    FieldsTailPrinted(t, fields.rest, rest);
    assert s == Quoted(fields.key) + (":" + (Dumps(fields.value) + FieldsTail(fields.rest))) + rest;
  }

  lemma {:induction false} FieldsTailPrinted(t: string, fields: Fields, rest: string)
    requires ParseFieldsTail(t) == Some((fields, rest))
    ensures PlainFields(fields) && t == FieldsTail(fields) + rest
    decreases |t|, 0
  {
    hide ParseField, FieldsText;
    assert t == t[..1] + t[1..];
    if t[0] == ',' {
      FieldPrinted(t[1..], fields, rest);
    }
  }

  /** Loading and dumping are inverse on the compact language. */
  lemma LoadsIffDumps(s: string, j: Json)
    ensures Loads(s) == Some(j) <==> Plain(j) && s == Dumps(j)
  {
    if Loads(s) == Some(j) {
      ValuePrinted(s, j, []);
      assert Dumps(j) + [] == Dumps(j);
    }
    if Plain(j) && s == Dumps(j) {
      ValueParsed(j, []);
      assert Dumps(j) + [] == Dumps(j);
    }
  }
}
