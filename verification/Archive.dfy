/** Structural admission of a ZIP archive: every byte of the file is accounted for. */
module Archive {
  import opened Common
  import opened Bytes
  import opened Tiling
  import opened Paths
  import E = Extras

  const MAX_ENTRIES := 10000
  const MAX_MEMBER := 64 * 1024 * 1024
  const MAX_WHEEL := 128 * 1024 * 1024
  const MAX_ARCHIVE := 32 * 1024 * 1024
  const TAIL := 65557

  const LOCAL: seq<Byte> := [0x50, 0x4b, 3, 4]
  const DESCRIPTOR: seq<Byte> := [0x50, 0x4b, 7, 8]
  const END: seq<Byte> := [0x50, 0x4b, 5, 6]

  // ---------------------------------------------------------------- the end of central directory record

  datatype Directory = Directory(start: nat, length: nat, total: nat, comment: nat)

  predicate SignedAt(s: seq<Byte>, at: nat) { at + 4 <= |s| && s[at..at + 4] == END }

  predicate LastSigned(s: seq<Byte>, at: nat) {
    SignedAt(s, at) && forall k :: at < k <= |s| - 4 ==> !SignedAt(s, k)
  }

  /** The last place of the end signature. */
  method FindLast(s: seq<Byte>) returns (at: Option<nat>)
    ensures at.Some? ==> LastSigned(s, at.value)
    ensures at.None? ==> forall k :: 0 <= k <= |s| - 4 ==> !SignedAt(s, k)
  {
    var k := |s| - 4;
    while k >= 0
      invariant forall j :: 0 <= j && k < j <= |s| - 4 ==> !SignedAt(s, j)
    {
      if s[k..k + 4] == END {
        return Some(k);
      }
      k := k - 1;
    }
    return None;
  }

  /** The fields of an end record (PKWARE APPNOTE.TXT section 4.3.16). */
  datatype EndFields = EndFields(disk: nat, cdDisk: nat, onDisk: nat, total: nat, length: nat, start: nat, comment: nat)

  function EndAt(s: seq<Byte>, at: nat): EndFields
    requires at + 22 <= |s|
  {
    EndFields(U16(s, at + 4), U16(s, at + 6), U16(s, at + 8), U16(s, at + 10), U32(s, at + 12), U32(s, at + 16), U16(s, at + 20))
  }

  /** One disk, a bounded nonempty directory that ends where the record starts, a comment that ends the file. */
  predicate Ends(e: EndFields, at: nat, size: nat) {
    && e.disk == e.cdDisk == 0 && 0 < e.total == e.onDisk <= MAX_ENTRIES
    && e.comment <= 4096 && at + 22 + e.comment == size
    && 0 < e.length <= 2 * 1024 * 1024 && e.start + e.length == at
  }

  /** What the preflight promises of an archive it lets through. */
  predicate Framed(file: seq<Byte>, d: Directory) {
    var at := d.start + d.length;
    && 22 <= |file| <= MAX_ARCHIVE && file[..4] == LOCAL
    && at + 22 <= |file| && LastSigned(file, at)
    && Ends(EndAt(file, at), at, |file|)
    && d == Directory(EndAt(file, at).start, EndAt(file, at).length, EndAt(file, at).total, EndAt(file, at).comment)
  }

  method CentralPreflight(file: seq<Byte>) returns (r: Option<Directory>)
    ensures r.Some? ==> Framed(file, r.value)
    ensures r.None? ==> forall d :: !Framed(file, d)
  {
    hide EndAt, Ends, SignedAt, LastSigned;
    var size := |file|;
    if !(22 <= size <= MAX_ARCHIVE) {
      return None;
    }
    var from := if size > TAIL then size - TAIL else 0;
    var tail := file[from..];
    var found := FindLast(tail);
    if found.None? {
      forall d ensures !Framed(file, d) { if Framed(file, d) { EndInTail(file, from, d); NotSigned(tail, d.start + d.length - from); assert false; } }
      return None;
    }
    var at := found.value;
    forall d | Framed(file, d) ensures d.start + d.length == from + at {
      EndInTail(file, from, d);
      OneLast(tail, at, d.start + d.length - from);
    }
    if at + 22 > |tail| {
      return None;
    }
    EndThrough(file, from, at);
    LastThrough(file, from, at);
    var e := EndAt(tail, at);
    if !Ends(e, size - |tail| + at, size) || file[..4] != LOCAL {
      return None;
    }
    EndsAt(e, from + at, size);
    return Some(Directory(e.start, e.length, e.total, e.comment));
  }

  lemma EndsAt(e: EndFields, at: nat, size: nat)
    requires Ends(e, at, size)
    ensures e.start + e.length == at && at + 22 <= size <= at + 22 + 4096
  {
  }

  lemma EndThrough(file: seq<Byte>, from: nat, at: nat)
    requires from + at + 22 <= |file|
    ensures EndAt(file[from..], at) == EndAt(file, from + at)
  {
    hide U16, U32;
    assert file[from..] == file[from..|file|];
    Through(file, from, |file|, at + 4);
    Through(file, from, |file|, at + 6);
    Through(file, from, |file|, at + 8);
    Through(file, from, |file|, at + 10);
    Through(file, from, |file|, at + 12);
    Through(file, from, |file|, at + 16);
    Through(file, from, |file|, at + 20);
  }

  lemma SignedThrough(file: seq<Byte>, from: nat, k: nat)
    requires from <= |file|
    ensures SignedAt(file[from..], k) <==> SignedAt(file, from + k)
  {
    if from + k + 4 <= |file| {
      assert file[from..] == file[from..|file|];
      Slice(file, from, |file|, k, k + 4);
    }
  }

  lemma LastThrough(file: seq<Byte>, from: nat, at: nat)
    requires from <= |file|
    ensures LastSigned(file[from..], at) <==> LastSigned(file, from + at)
  {
    hide SignedAt;
    SignedThrough(file, from, at);
    if LastSigned(file[from..], at) {
      forall k | from + at < k <= |file| - 4 ensures !SignedAt(file, k) { SignedThrough(file, from, k - from); }
    }
    if LastSigned(file, from + at) {
      forall k | at < k <= |file| - from - 4 ensures !SignedAt(file[from..], k) { SignedThrough(file, from, k); }
    }
  }

  /** An end record with so short a comment lies in the tail that is searched. */
  lemma EndInTail(file: seq<Byte>, from: nat, d: Directory)
    requires Framed(file, d) && from == (if |file| > TAIL then |file| - TAIL else 0)
    ensures d.start + d.length >= from && LastSigned(file[from..], d.start + d.length - from)
  {
    hide EndAt, LastSigned;
    LastThrough(file, from, d.start + d.length - from);
  }

  lemma OneLast(s: seq<Byte>, a: nat, b: nat)
    requires LastSigned(s, a) && LastSigned(s, b)
    ensures a == b
  {
    hide SignedAt;
    LastFits(s, a);
    LastFits(s, b);
  }

  lemma LastFits(s: seq<Byte>, a: nat)
    requires LastSigned(s, a)
    ensures a <= |s| - 4 && SignedAt(s, a)
  {
  }

  lemma NotSigned(s: seq<Byte>, a: nat)
    requires forall k :: 0 <= k <= |s| - 4 ==> !SignedAt(s, k)
    ensures !LastSigned(s, a)
  {
  }

  // ---------------------------------------------------------------- local records

  datatype Mode = Unset | Regular | Folder | Special

  /** One entry of the central directory as the library hands it over. */
  datatype Info = Info(name: string, original: string, offset: nat, flags: nat, method_: nat, crc: nat, compressed: nat,
                       expanded: nat, extra: seq<Byte>, comment: nat, volume: nat, mode: Mode, privileged: bool)

  datatype Record = Record(start: nat, data: nat, finish: nat)

  /** Bytes to text, in UTF-8 or in code page 437; None where they do not decode. */
  type Decoder = (bool, seq<Byte>) -> Option<string>

  predicate Bit(flags: nat, weight: nat)
    requires weight > 0
  {
    flags / weight % 2 == 1
  }

  /** The fields of a local header (PKWARE APPNOTE.TXT section 4.3.7). */
  datatype Header = Header(signature: seq<Byte>, version: nat, flags: nat, method_: nat,
                           crc: nat, compressed: nat, expanded: nat, names: nat, extras: nat)

  function HeaderAt(s: seq<Byte>, at: nat): Header
    requires at + 30 <= |s|
  {
    Header(s[at..at + 4], U16(s, at + 4), U16(s, at + 6), U16(s, at + 8),
           U32(s, at + 14), U32(s, at + 18), U32(s, at + 22), U16(s, at + 26), U16(s, at + 28))
  }

  /** Descriptor fields may be zero in the header, or already right. */
  predicate Deferred(declared: nat, actual: nat) { declared == 0 || declared == actual }

  predicate SignedDescriptor(s: seq<Byte>) { |s| >= 4 && s[0..4] == DESCRIPTOR }

  predicate Carries(s: seq<Byte>, at: nat, info: Info)
    requires at + 12 <= |s|
  {
    U32(s, at) == info.crc && U32(s, at + 4) == info.compressed && U32(s, at + 8) == info.expanded
  }

  /** The end of a record with a data descriptor, signed or not. */
  function Described(file: seq<Byte>, info: Info, end: nat, cdStart: nat): Option<nat> {
    var descriptor := Read(file, end, 16);
    var width := if SignedDescriptor(descriptor) then 16 else 12;
    if |descriptor| < width || end + width > cdStart || !Carries(descriptor, width - 12, info) then None else Some(end + width)
  }

  function LocalRange(file: seq<Byte>, info: Info, cdStart: nat, decode: Decoder): Option<Record> {
    var raw := Read(file, info.offset, 30);
    if |raw| != 30 then None
    else
      var h := HeaderAt(raw, 0);
      if h.signature != LOCAL || h.version > 45 || h.flags != info.flags || h.method_ != info.method_ then None
      else
        var name := Read(file, info.offset + 30, h.names);
        if h.names > 512 || h.extras > 4096 || decode(Bit(h.flags, 2048), name) != Some(info.original) then None
        else
          var extra := Read(file, info.offset + 30 + |name|, h.extras);
          var begin := info.offset + 30 + |name| + |extra|;
          if E.ExtraFields(extra).None? || begin + info.compressed > cdStart then None
          else
            var finish := Closed(file, info, h, begin + info.compressed, cdStart);
            if finish.None? then None else Some(Record(info.offset, begin, finish.value))
  }

  /** Where the record ends: behind its data, or behind the descriptor of its data. */
  function Closed(file: seq<Byte>, info: Info, h: Header, end: nat, cdStart: nat): Option<nat> {
    if Bit(h.flags, 8) then
      if Deferred(h.crc, info.crc) && Deferred(h.compressed, info.compressed) && Deferred(h.expanded, info.expanded)
      then Described(file, info, end, cdStart)
      else None
    else if h.crc == info.crc && h.compressed == info.compressed && h.expanded == info.expanded then Some(end)
    else None
  }

  /** A descriptor behind the data, signed or not, says the sizes and the checksum of the central directory (section 4.3.9). */
  predicate EndsDescribed(file: seq<Byte>, info: Info, end: nat, finish: nat) {
    && (finish == end + 12 || (finish == end + 16 <= |file| && file[end..end + 4] == DESCRIPTOR))
    && finish <= |file| && Carries(file, finish - 12, info)
  }

  /** Without a descriptor the header says them. */
  predicate EndsPlain(info: Info, h: Header, end: nat, finish: nat) {
    finish == end && h.crc == info.crc && h.compressed == info.compressed && h.expanded == info.expanded
  }

  lemma HeaderThrough(file: seq<Byte>, at: nat)
    requires at + 30 <= |file|
    ensures HeaderAt(file[at..at + 30], 0) == HeaderAt(file, at)
  {
    hide U16, U32;
    Slice(file, at, at + 30, 0, 4);
    Through(file, at, at + 30, 4);
    Through(file, at, at + 30, 6);
    Through(file, at, at + 30, 8);
    Through(file, at, at + 30, 14);
    Through(file, at, at + 30, 18);
    Through(file, at, at + 30, 22);
    Through(file, at, at + 30, 26);
    Through(file, at, at + 30, 28);
  }

  /**
    A record the check accepts is whole: its header, its name and extra fields in full, its data,
    and the sizes of the central directory once more, in the header or right behind the data.
  */
  lemma RecordIsWhole(file: seq<Byte>, info: Info, cdStart: nat, decode: Decoder)
    requires cdStart < |file| && LocalRange(file, info, cdStart, decode).Some?
    ensures var r := LocalRange(file, info, cdStart, decode).value;
      && r.start == info.offset && r.start + 30 <= r.data && r.data + info.compressed <= r.finish <= cdStart
      && var h := HeaderAt(file, r.start);
      && h.signature == LOCAL && h.flags == info.flags && h.method_ == info.method_
      && r.data == r.start + 30 + h.names + h.extras
      && decode(Bit(h.flags, 2048), file[r.start + 30..r.start + 30 + h.names]) == Some(info.original)
      && E.ExtraFields(file[r.start + 30 + h.names..r.data]).Some?
      && if Bit(h.flags, 8) then EndsDescribed(file, info, r.data + info.compressed, r.finish)
         else EndsPlain(info, h, r.data + info.compressed, r.finish)
  {
    hide HeaderAt, E.ExtraFields, Bit, Read, EndsDescribed, EndsPlain, Closed;
    var raw := Read(file, info.offset, 30);
    HeaderThrough(file, info.offset);
    var h := HeaderAt(raw, 0);
    var r := LocalRange(file, info, cdStart, decode).value;
    var name := Read(file, info.offset + 30, h.names);
    var extra := Read(file, info.offset + 30 + |name|, h.extras);
    ClosedWhole(file, info, h, r.data + info.compressed, cdStart);
    assert |name| == h.names && |extra| == h.extras;
    Taken(file, info.offset + 30, h.names);
    Taken(file, info.offset + 30 + |name|, h.extras);
  }

  lemma Taken(file: seq<Byte>, at: nat, n: nat)
    requires |Read(file, at, n)| == n && at <= |file|
    ensures at + n <= |file| && Read(file, at, n) == file[at..at + n]
  {
  }

  lemma ClosedWhole(file: seq<Byte>, info: Info, h: Header, end: nat, cdStart: nat)
    requires Closed(file, info, h, end, cdStart).Some? && end <= cdStart < |file|
    ensures var finish := Closed(file, info, h, end, cdStart).value;
      && end <= finish <= cdStart
      && if Bit(h.flags, 8) then EndsDescribed(file, info, end, finish) else EndsPlain(info, h, end, finish)
  {
    hide EndsDescribed, Described, Bit;
    if Bit(h.flags, 8) {
      DescribedWhole(file, info, end, cdStart);
    }
  }

  lemma DescribedWhole(file: seq<Byte>, info: Info, end: nat, cdStart: nat)
    requires Described(file, info, end, cdStart).Some? && cdStart < |file|
    ensures var finish := Described(file, info, end, cdStart).value;
      end <= finish <= cdStart && EndsDescribed(file, info, end, finish)
  {
    hide U32, Read;
    var at := Described(file, info, end, cdStart).value - end - 12;
    ReadThrough(file, end, 16, at);
    ReadThrough(file, end, 16, at + 4);
    ReadThrough(file, end, 16, at + 8);
    if at == 4 {
      ReadThrough(file, end, 16, 0);
    }
  }

  // ---------------------------------------------------------------- the whole archive

  predicate AllowedFlags(flags: nat) { flags % 2 == 0 && flags / 16 % 128 == 0 && flags / 4096 == 0 }

  predicate IsFolder(name: string) { name != "" && name[|name| - 1] == '/' }

  /** What one entry has to satisfy by itself. */
  predicate Fine(info: Info) {
    && SafeName(info.name) && info.name == info.original
    && (info.method_ == 0 || info.method_ == 8) && AllowedFlags(info.flags)
    && (info.method_ == 8 || info.flags / 2 % 4 == 0)
    && info.comment <= 1024 && E.ExtraFields(info.extra).Some? && info.volume == 0
    && !info.mode.Special? && !info.privileged
    && (info.mode.Folder? ==> IsFolder(info.name)) && (IsFolder(info.name) ==> info.expanded == 0)
    && info.expanded <= MAX_MEMBER
  }

  function Total(infos: seq<Info>): nat {
    if infos == [] then 0 else Total(infos[..|infos| - 1]) + infos[|infos| - 1].expanded
  }

  function Names(infos: seq<Info>): (names: seq<string>)
    ensures |names| == |infos|
    ensures forall i :: 0 <= i < |infos| ==> names[i] == infos[i].name
  {
    seq(|infos|, i requires 0 <= i < |infos| => infos[i].name)
  }

  predicate Located(file: seq<Byte>, infos: seq<Info>, cdStart: nat, decode: Decoder) {
    forall i :: 0 <= i < |infos| ==> LocalRange(file, infos[i], cdStart, decode).Some?
  }

  function Spans(file: seq<Byte>, infos: seq<Info>, cdStart: nat, decode: Decoder): (spans: seq<Range>)
    requires Located(file, infos, cdStart, decode)
    ensures |spans| == |infos|
  {
    seq(|infos|, i requires 0 <= i < |infos| =>
      var r := LocalRange(file, infos[i], cdStart, decode).value; Range(r.start, r.finish))
  }

  /** An entry fine by itself, and with those before it within the bound on the expanded size. */
  predicate FineAt(infos: seq<Info>, i: nat)
    requires i < |infos|
  {
    Fine(infos[i]) && Total(infos[..i + 1]) <= MAX_WHEEL
  }

  predicate AllFine(infos: seq<Info>) {
    forall i :: 0 <= i < |infos| ==> FineAt(infos, i)
  }

  predicate DistinctNames(infos: seq<Info>) {
    forall i, j :: 0 <= i < j < |infos| ==> infos[i].name != infos[j].name
  }

  /** Admission as one condition. */
  predicate Admits(file: seq<Byte>, infos: seq<Info>, d: Directory, decode: Decoder) {
    && |infos| == d.total
    && AllFine(infos) && DistinctNames(infos) && Located(file, infos, d.start, decode)
    && Chains(Sorted(Spans(file, infos, d.start, decode)), 0, d.start)
    && NoConflict(Names(infos))
  }

  /** The central directory and the end record with its comment. */
  function Rest(file: seq<Byte>, d: Directory): seq<Range> {
    [Range(d.start, d.start + d.length), Range(d.start + d.length, |file|)]
  }

  /** Every byte of an admitted file belongs to exactly one local record, the central directory or the end record. */
  lemma EveryByteOnce(file: seq<Byte>, infos: seq<Info>, d: Directory, decode: Decoder)
    requires Framed(file, d) && Admits(file, infos, d, decode)
    ensures Covers(Spans(file, infos, d.start, decode), 0, d.start)
    ensures Covers(Spans(file, infos, d.start, decode) + Rest(file, d), 0, |file|)
  {
    hide LocalRange, Fine, NoConflict, Sorted, Value;
    var spans := Spans(file, infos, d.start, decode);
    SpansNonempty(file, infos, d, decode);
    WalkIffPartition(spans, 0, d.start);
    var rest := Rest(file, d);
    assert rest[1..][1..] == [];
    assert Chains(rest[1..][1..], |file|, |file|);
    assert Chains(rest[1..], d.start + d.length, |file|);
    CoverExtends(spans, rest, 0, d.start, |file|);
  }

  lemma SpansNonempty(file: seq<Byte>, infos: seq<Info>, d: Directory, decode: Decoder)
    requires Framed(file, d) && Located(file, infos, d.start, decode)
    ensures Nonempty(Spans(file, infos, d.start, decode))
  {
    hide LocalRange, Value;
    forall i | 0 <= i < |infos|
      ensures var r := LocalRange(file, infos[i], d.start, decode).value; r.start < r.finish
    {
      RecordIsWhole(file, infos[i], d.start, decode);
    }
  }

  /** Conversely, entries that are fine by themselves are refused only for a real gap, overlap or conflict. */
  lemma AdmitsIffPartition(file: seq<Byte>, infos: seq<Info>, d: Directory, decode: Decoder)
    requires Framed(file, d) && |infos| == d.total && Located(file, infos, d.start, decode)
    requires AllFine(infos)
    ensures Admits(file, infos, d, decode) <==>
      Covers(Spans(file, infos, d.start, decode), 0, d.start) && NoConflict(Names(infos))
  {
    hide LocalRange, Fine, AncestorsClear, Sorted, Strip, Value;
    SpansNonempty(file, infos, d, decode);
    WalkIffPartition(Spans(file, infos, d.start, decode), 0, d.start);
    if DistinctPaths(Names(infos)) {
      forall i, j | 0 <= i < j < |infos| ensures infos[i].name != infos[j].name {
        assert Strip(Names(infos)[i]) != Strip(Names(infos)[j]);
      }
    }
  }

  /** No file member is above another member of an admitted archive. */
  lemma NoFileAboveMember(file: seq<Byte>, infos: seq<Info>, d: Directory, decode: Decoder, i: nat, j: nat)
    requires Admits(file, infos, d, decode) && i < |infos| && j < |infos| && !IsFolder(infos[i].name)
    ensures !Above(infos[i].name, infos[j].name)
  {
    hide LocalRange, Fine, NoConflict, Sorted, Chains, Above, Total;
    assert FineAt(infos, i);
    FineNamed(infos[i]);
    NoFileAbove(Names(infos), i, j);
  }

  lemma FineNamed(info: Info)
    requires Fine(info)
    ensures info.name != ""
  {
  }

  // ---------------------------------------------------------------- the checks as they run

  function StripSet(names: seq<string>): set<string> {
    if names == [] then {} else StripSet(names[..|names| - 1]) + {Strip(names[|names| - 1])}
  }

  lemma {:induction false} StripSetHas(names: seq<string>, s: string)
    ensures s in StripSet(names) <==> exists i :: 0 <= i < |names| && Strip(names[i]) == s
  {
    hide Strip;
    if names != [] {
      var init := names[..|names| - 1];
      StripSetHas(init, s);
      if s in StripSet(init) {
        var i :| 0 <= i < |init| && Strip(init[i]) == s;
        assert Strip(names[i]) == s;
      }
      if i :| 0 <= i < |names| && Strip(names[i]) == s {
        assert i < |init| ==> Strip(init[i]) == s;
      }
    }
  }

  /** Counting the stripped names finds out whether two of them are the same. */
  lemma {:induction false} StripSetSize(names: seq<string>)
    ensures |StripSet(names)| <= |names|
    ensures |StripSet(names)| == |names| <==> DistinctPaths(names)
  {
    hide Strip;
    if names != [] {
      var init, last := names[..|names| - 1], |names| - 1;
      var s := Strip(names[last]);
      StripSetSize(init);
      StripSetHas(init, s);
      hide StripSet;
      DistinctMore(names, init, s);
      StripSetLast(names, init, s);
    }
  }

  lemma StripSetLast(names: seq<string>, init: seq<string>, s: string)
    requires names != [] && init == names[..|names| - 1] && s == Strip(names[|names| - 1])
    ensures |StripSet(names)| == |StripSet(init)| + if s in StripSet(init) then 0 else 1
  {
    hide Strip;
    assert s in StripSet(init) ==> StripSet(names) == StripSet(init);
  }

  lemma DistinctMore(names: seq<string>, init: seq<string>, s: string)
    requires names != [] && init == names[..|names| - 1] && s == Strip(names[|names| - 1])
    ensures DistinctPaths(names) <==> DistinctPaths(init) && !exists i :: 0 <= i < |init| && Strip(init[i]) == s
  {
    hide Strip;
    assert forall i :: 0 <= i < |init| ==> names[i] == init[i];
  }

  method ClearAncestors(name: string, seen: set<string>) returns (ok: bool)
    ensures ok <==> AncestorsClear(name, seen)
  {
    var parts := Split(Strip(name));
    var k := 1;
    while k < |parts|
      invariant 1 <= k <= |parts|
      invariant forall j :: 1 <= j < k ==> Join(parts[..j]) !in seen
    {
      if Join(parts[..k]) in seen {
        return false;
      }
      k := k + 1;
    }
    return true;
  }

  function NameSet(infos: seq<Info>): set<string> { set n | n in Names(infos) }

  predicate Passed(file: seq<Byte>, infos: seq<Info>, d: Directory, decode: Decoder) {
    AllFine(infos) && DistinctNames(infos) && Located(file, infos, d.start, decode)
  }

  lemma PassedStep(file: seq<Byte>, infos: seq<Info>, d: Directory, decode: Decoder, k: nat)
    requires k < |infos|
    ensures Passed(file, infos[..k + 1], d, decode) <==>
      Passed(file, infos[..k], d, decode) && Fine(infos[k]) && Total(infos[..k + 1]) <= MAX_WHEEL
      && infos[k].name !in NameSet(infos[..k]) && LocalRange(file, infos[k], d.start, decode).Some?
  {
    FineStep(infos, k);
    DistinctStep(infos, k);
    LocatedStep(file, infos, d, decode, k);
    hide Fine, LocalRange, AllFine, DistinctNames, Located, NameSet, Total;
  }

  lemma FineStep(infos: seq<Info>, k: nat)
    requires k < |infos|
    ensures AllFine(infos[..k + 1]) <==> AllFine(infos[..k]) && Fine(infos[k]) && Total(infos[..k + 1]) <= MAX_WHEEL
  {
    hide Fine, Total, FineAt;
    var less, more := infos[..k], infos[..k + 1];
    forall i: nat | i < k ensures FineAt(less, i) <==> FineAt(more, i) { FineTwice(infos, k, i); }
    FineLast(infos, k);
    if AllFine(more) {
      forall i | 0 <= i < k ensures FineAt(less, i) { assert FineAt(more, i); }
      assert FineAt(more, k);
    }
    if AllFine(less) && FineAt(more, k) {
      forall i | 0 <= i < k + 1 ensures FineAt(more, i) {
        if i < k { assert FineAt(less, i); }
      }
    }
  }

  lemma FineTwice(infos: seq<Info>, k: nat, i: nat)
    requires i < k < |infos|
    ensures FineAt(infos[..k], i) <==> FineAt(infos[..k + 1], i)
  {
    hide Fine, Total;
    assert infos[..k][..i + 1] == infos[..k + 1][..i + 1];
  }

  lemma FineLast(infos: seq<Info>, k: nat)
    requires k < |infos|
    ensures FineAt(infos[..k + 1], k) <==> Fine(infos[k]) && Total(infos[..k + 1]) <= MAX_WHEEL
  {
    hide Fine, Total;
    assert infos[..k + 1][..k + 1] == infos[..k + 1];
  }

  lemma DistinctStep(infos: seq<Info>, k: nat)
    requires k < |infos|
    ensures DistinctNames(infos[..k + 1]) <==> DistinctNames(infos[..k]) && infos[k].name !in NameSet(infos[..k])
  {
    var less, more := infos[..k], infos[..k + 1];
    assert forall i :: 0 <= i < k ==> less[i] == more[i] == infos[i];
    NameSetHas(less, infos[k].name);
    hide NameSet;
    assert more[k] == infos[k];
  }

  lemma NameSetHas(infos: seq<Info>, n: string)
    ensures n in NameSet(infos) <==> exists i :: 0 <= i < |infos| && infos[i].name == n
  {
    if i :| 0 <= i < |infos| && infos[i].name == n {
      assert Names(infos)[i] == n;
    }
    if n in Names(infos) {
      var i :| 0 <= i < |infos| && Names(infos)[i] == n;
      assert infos[i].name == n;
    }
  }

  lemma LocatedStep(file: seq<Byte>, infos: seq<Info>, d: Directory, decode: Decoder, k: nat)
    requires k < |infos|
    ensures Located(file, infos[..k + 1], d.start, decode) <==>
      Located(file, infos[..k], d.start, decode) && LocalRange(file, infos[k], d.start, decode).Some?
  {
    hide LocalRange;
    var less, more := infos[..k], infos[..k + 1];
    assert forall i :: 0 <= i < k ==> less[i] == more[i];
    assert more[k] == infos[k];
  }

  lemma SpansStep(file: seq<Byte>, infos: seq<Info>, d: Directory, decode: Decoder, k: nat)
    requires k < |infos| && Located(file, infos[..k + 1], d.start, decode) && Located(file, infos[..k], d.start, decode)
    requires LocalRange(file, infos[k], d.start, decode).Some?
    ensures var r := LocalRange(file, infos[k], d.start, decode).value;
      Spans(file, infos[..k + 1], d.start, decode) == Spans(file, infos[..k], d.start, decode) + [Range(r.start, r.finish)]
  {
    hide LocalRange;
  }

  /** What the first entries fail, all of them fail. */
  lemma PassedPrefix(file: seq<Byte>, infos: seq<Info>, d: Directory, decode: Decoder, k: nat)
    requires k <= |infos| && Passed(file, infos, d, decode)
    ensures Passed(file, infos[..k], d, decode)
  {
    hide Fine, LocalRange, Total;
    forall i: nat | i < k ensures FineAt(infos[..k], i) {
      assert FineAt(infos, i) && infos[..k][..i + 1] == infos[..i + 1];
    }
  }

  lemma NamesStep(infos: seq<Info>, k: nat)
    requires k < |infos|
    ensures NameSet(infos[..k + 1]) == NameSet(infos[..k]) + {infos[k].name}
    ensures StripSet(Names(infos[..k + 1])) == StripSet(Names(infos[..k])) + {Strip(infos[k].name)}
    ensures Total(infos[..k + 1]) == Total(infos[..k]) + infos[k].expanded
  {
    hide Strip;
    assert Names(infos[..k + 1]) == Names(infos[..k]) + [infos[k].name];
    assert Names(infos[..k + 1])[..k] == Names(infos[..k]);
    assert infos[..k + 1][..k] == infos[..k];
  }

  /** One pass over the entries; None at the first that does not pass. */
  method Pass(file: seq<Byte>, infos: seq<Info>, d: Directory, decode: Decoder)
    returns (ok: bool, seen: set<string>, stripped: set<string>, ranges: seq<Range>)
    ensures ok <==> Passed(file, infos, d, decode)
    ensures ok ==> ranges == Spans(file, infos, d.start, decode) && seen == NameSet(infos) && stripped == StripSet(Names(infos))
  {
    NothingPassed(file, infos, d, decode);
    hide LocalRange, Fine, Passed, NameSet, StripSet, Names, Total, Strip, Spans;
    seen, stripped, ranges := {}, {}, [];
    var total, k := 0, 0;
    while k < |infos|
      invariant 0 <= k <= |infos| && Passed(file, infos[..k], d, decode) && Located(file, infos[..k], d.start, decode)
      invariant seen == NameSet(infos[..k]) && stripped == StripSet(Names(infos[..k])) && total == Total(infos[..k])
      invariant ranges == Spans(file, infos[..k], d.start, decode)
    {
      var info := infos[k];
      PassedStep(file, infos, d, decode, k);
      NamesStep(infos, k);
      LocatedStep(file, infos, d, decode, k);
      var r := LocalRange(file, info, d.start, decode);
      if !Fine(info) || info.name in seen || total + info.expanded > MAX_WHEEL || r.None? {
        if Passed(file, infos, d, decode) {
          PassedPrefix(file, infos, d, decode, k + 1);
          assert false;
        }
        return false, seen, stripped, ranges;
      }
      SpansStep(file, infos, d, decode, k);
      seen, stripped, total := seen + {info.name}, stripped + {Strip(info.name)}, total + info.expanded;
      ranges := ranges + [Range(r.value.start, r.value.finish)];
      k := k + 1;
    }
    assert infos[..k] == infos;
    ok := true;
  }

  lemma NothingPassed(file: seq<Byte>, infos: seq<Info>, d: Directory, decode: Decoder)
    ensures Passed(file, infos[..0], d, decode) && Spans(file, infos[..0], d.start, decode) == []
    ensures NameSet(infos[..0]) == {} && StripSet(Names(infos[..0])) == {} && Total(infos[..0]) == 0
  {
    hide LocalRange, Fine;
  }

  /** The entries, then the walk over their ranges, then the names. */
  method Inspect(file: seq<Byte>, infos: seq<Info>, d: Directory, decode: Decoder) returns (ok: bool)
    ensures ok <==> Admits(file, infos, d, decode)
  {
    hide LocalRange, AllFine, DistinctNames, AncestorsClear, Sorted, Chains, StripSet, DistinctPaths, Spans;
    if |infos| != d.total {
      return false;
    }
    var passed, seen, stripped, ranges := Pass(file, infos, d, decode);
    if !passed {
      return false;
    }
    var tiled := Walk(ranges, d.start);
    if !tiled {
      return false;
    }
    StripSetSize(Names(infos));
    if |stripped| != |infos| {
      return false;
    }
    var k := 0;
    while k < |infos|
      invariant 0 <= k <= |infos|
      invariant forall i :: 0 <= i < k ==> AncestorsClear(Names(infos)[i], seen)
    {
      var clear := ClearAncestors(infos[k].name, seen);
      if !clear {
        assert !AncestorsClear(Names(infos)[k], seen);
        return false;
      }
      k := k + 1;
    }
    return true;
  }
}
