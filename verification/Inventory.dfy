/** The one digest of an import inventory that the host and the supervisor both compute. */
module Inventory {
  import opened Common
  import P = Pressure

  const MAX_ROWS := 1500
  const MAX_RAW := 1024 * 1024
  const MAX_TEXT := 768
  const DOMAIN := "loaded-as128-v1\n"

  datatype Triple = Triple(name: string, kind: string, path: string)

  // ---------------------------------------------------------------- order of names

  predicate Less(a: string, b: string) {
    b != "" && (a == "" || a[0] < b[0] || (a[0] == b[0] && Less(a[1..], b[1..])))
  }

  lemma {:induction false} LessTotal(a: string, b: string)
    requires a != b
    ensures Less(a, b) || Less(b, a)
  {
    if a != "" && b != "" && a[0] == b[0] {
      assert a == [a[0]] + a[1..] && b == [b[0]] + b[1..];
      LessTotal(a[1..], b[1..]);
    }
  }

  lemma {:induction false} LessTransitive(a: string, b: string, c: string)
    requires Less(a, b) && Less(b, c)
    ensures Less(a, c)
  {
    if a != "" && a[0] == b[0] && b[0] == c[0] {
      LessTransitive(a[1..], b[1..], c[1..]);
    }
  }

  lemma {:induction false} LessStrict(a: string)
    ensures !Less(a, a)
  {
    if a != "" {
      LessStrict(a[1..]);
    }
  }

  // ---------------------------------------------------------------- sorting

  function Insert(t: Triple, sorted: seq<Triple>): seq<Triple> {
    if sorted == [] || Less(t.name, sorted[0].name) then [t] + sorted else [sorted[0]] + Insert(t, sorted[1..])
  }

  function Sort(triples: seq<Triple>): seq<Triple> {
    if triples == [] then [] else Insert(triples[0], Sort(triples[1..]))
  }

  predicate Increasing(s: seq<Triple>) { forall i, j :: 0 <= i < j < |s| ==> Less(s[i].name, s[j].name) }

  predicate DistinctNames(s: seq<Triple>) { forall i, j :: 0 <= i < j < |s| ==> s[i].name != s[j].name }

  lemma {:induction false} InsertHas(t: Triple, sorted: seq<Triple>, x: Triple)
    ensures x in Insert(t, sorted) <==> x == t || x in sorted
  {
    if sorted != [] && !Less(t.name, sorted[0].name) {
      InsertHas(t, sorted[1..], x);
      assert sorted == [sorted[0]] + sorted[1..];
    }
  }

  lemma {:induction false} SortHas(triples: seq<Triple>, x: Triple)
    ensures x in Sort(triples) <==> x in triples
  {
    if triples != [] {
      SortHas(triples[1..], x);
      InsertHas(triples[0], Sort(triples[1..]), x);
      assert triples == [triples[0]] + triples[1..];
    }
  }

  lemma {:induction false} InsertIncreasing(t: Triple, sorted: seq<Triple>)
    requires Increasing(sorted) && forall x :: x in sorted ==> x.name != t.name
    ensures Increasing(Insert(t, sorted))
  {
    if sorted != [] {
      var head, rest := sorted[0], sorted[1..];
      if Less(t.name, head.name) {
        forall j | 0 <= j < |sorted| ensures Less(t.name, sorted[j].name) {
          if j > 0 { LessTransitive(t.name, head.name, sorted[j].name); }
        }
      } else {
        assert head in sorted;
        LessTotal(t.name, head.name);
        forall x | x in rest ensures x.name != t.name { assert x in sorted; }
        InsertIncreasing(t, rest);
        var more := Insert(t, rest);
        forall j | 0 <= j < |more| ensures Less(head.name, more[j].name) {
          InsertHas(t, rest, more[j]);
          if more[j] != t {
            var i :| 0 <= i < |rest| && rest[i] == more[j];
            assert Less(sorted[0].name, sorted[i + 1].name);
          }
        }
      }
    }
  }

  lemma {:induction false} SortIncreasing(triples: seq<Triple>)
    requires DistinctNames(triples)
    ensures Increasing(Sort(triples))
  {
    if triples != [] {
      var rest := triples[1..];
      SortIncreasing(rest);
      forall x | x in Sort(rest) ensures x.name != triples[0].name {
        SortHas(rest, x);
        var i :| 0 <= i < |rest| && rest[i] == x;
        assert triples[i + 1] == x;
      }
      InsertIncreasing(triples[0], Sort(rest));
    }
  }

  predicate SameTriples(a: seq<Triple>, b: seq<Triple>) { (forall x :: x in a ==> x in b) && (forall x :: x in b ==> x in a) }

  /** There is one increasing list of a set of triples. */
  lemma {:induction false} IncreasingUnique(a: seq<Triple>, b: seq<Triple>)
    requires Increasing(a) && Increasing(b) && SameTriples(a, b)
    ensures a == b
    decreases |a|
  {
    if b != [] {
      NonemptySame(b, a);
    }
    if a != [] {
      NonemptySame(a, b);
      SameFirst(a, b);
      SameRest(a, b);
      IncreasingUnique(a[1..], b[1..]);
      assert a == [a[0]] + a[1..] && b == [b[0]] + b[1..];
    }
  }

  lemma NonemptySame(a: seq<Triple>, b: seq<Triple>)
    requires a != [] && SameTriples(a, b)
    ensures b != []
  {
    assert a[0] in b;
  }

  lemma SameFirst(a: seq<Triple>, b: seq<Triple>)
    requires a != [] && b != [] && Increasing(a) && Increasing(b) && SameTriples(a, b)
    ensures a[0] == b[0]
  {
    assert a[0] in b && b[0] in a;
    var i :| 0 <= i < |b| && b[i] == a[0];
    var j :| 0 <= j < |a| && a[j] == b[0];
    if i > 0 && j > 0 {
      LessTransitive(a[0].name, b[0].name, a[0].name);
      LessStrict(a[0].name);
    }
  }

  lemma SameRest(a: seq<Triple>, b: seq<Triple>)
    requires a != [] && b != [] && Increasing(a) && Increasing(b) && SameTriples(a, b) && a[0] == b[0]
    ensures SameTriples(a[1..], b[1..]) && Increasing(a[1..]) && Increasing(b[1..])
  {
    LessStrict(a[0].name);
    forall x | x in a[1..] ensures x in b[1..] {
      var i :| 0 <= i < |a[1..]| && a[1..][i] == x;
      assert Less(a[0].name, a[i + 1].name) && x in a;
      var j :| 0 <= j < |b| && b[j] == x;
      assert b[1..][j - 1] == x;
    }
    forall x | x in b[1..] ensures x in a[1..] {
      var i :| 0 <= i < |b[1..]| && b[1..][i] == x;
      assert Less(b[0].name, b[i + 1].name) && x in b;
      var j :| 0 <= j < |a| && a[j] == x;
      assert a[1..][j - 1] == x;
    }
  }

  // ---------------------------------------------------------------- the digest

  function Triples(rows: seq<P.Row>): (t: seq<Triple>)
    ensures |t| == |rows|
    ensures forall i :: 0 <= i < |rows| ==> t[i] == Triple(rows[i].name, rows[i].kind, rows[i].path)
  {
    seq(|rows|, i requires 0 <= i < |rows| => Triple(rows[i].name, rows[i].kind, rows[i].path))
  }

  predicate ValidRow(r: P.Row) {
    -1 <= r.stage <= 2 && |r.name| <= MAX_TEXT && |r.kind| <= MAX_TEXT && |r.path| <= MAX_TEXT
  }

  /** Bounded rows with distinct names that the validator takes; then one hash over the domain and the sorted triples. */
  function InventoryDigest(rows: seq<P.Row>, validator: seq<P.Row> -> bool, render: seq<Triple> -> string, hash: string -> string): Option<string> {
    if !(1 <= |rows| <= MAX_ROWS) || !(forall i :: 0 <= i < |rows| ==> ValidRow(rows[i])) || !DistinctNames(Triples(rows)) then None
    else if !validator(rows) then None
    else
      var raw := render(Sort(Triples(rows)));
      if |raw| > MAX_RAW then None else Some(hash(DOMAIN + raw))
  }

  ghost predicate Injective<A(!new), B>(f: A -> B) { forall x, y :: f(x) == f(y) ==> x == y }

  /** Two admitted inventories have one digest exactly when they hold the same triples, in any order and from any stages. */
  lemma DigestIffSameTriples(a: seq<P.Row>, b: seq<P.Row>, validator: seq<P.Row> -> bool, render: seq<Triple> -> string, hash: string -> string)
    requires Injective(render) && Injective(hash)
    requires InventoryDigest(a, validator, render, hash).Some? && InventoryDigest(b, validator, render, hash).Some?
    ensures InventoryDigest(a, validator, render, hash) == InventoryDigest(b, validator, render, hash)
      <==> SameTriples(Triples(a), Triples(b))
  {
    hide Sort, Increasing, DistinctNames, Triples, ValidRow;
    var x, y := Sort(Triples(a)), Sort(Triples(b));
    forall t ensures t in x <==> t in Triples(a) { SortHas(Triples(a), t); }
    forall t ensures t in y <==> t in Triples(b) { SortHas(Triples(b), t); }
    SortIncreasing(Triples(a));
    SortIncreasing(Triples(b));
    if SameTriples(Triples(a), Triples(b)) {
      IncreasingUnique(x, y);
    }
    if InventoryDigest(a, validator, render, hash) == InventoryDigest(b, validator, render, hash) {
      var p, q := render(x), render(y);
      assert DOMAIN + p == DOMAIN + q;
      assert (DOMAIN + p)[|DOMAIN|..] == p && (DOMAIN + q)[|DOMAIN|..] == q;
      assert render(x) == render(y);
      assert x == y;
    }
  }
}
