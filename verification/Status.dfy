/** The member's reader of its own proc status text, in a reused scratch buffer. */
module Status {
  import opened Common
  import D = Decimal
  import H = Held
  import J = Json
  import T = Text

  const STATUS_MAX := 65536

  datatype Key = Size | Peak | Rss | Threads

  const KEYS := [Size, Peak, Rss, Threads]

  function Label(key: Key): string {
    match key
    case Size => "VmSize:"
    case Peak => "VmPeak:"
    case Rss => "VmRSS:"
    case Threads => "Threads:"
  }

  function Suffix(key: Key): string { if key.Threads? then "" else "kB" }

  predicate Blank(c: char) { c == '\t' || c == ' ' }

  predicate AllBlank(s: string) { forall i :: 0 <= i < |s| ==> Blank(s[i]) }

  function Field(vm: H.Vm, key: Key): int {
    match key
    case Size => vm.size
    case Peak => vm.peak
    case Rss => vm.rss
    case Threads => vm.threads
  }

  // ---------------------------------------------------------------- the specification, line by line

  /** The lines of a text, without their newlines. */
  function Lines(s: string): seq<string>
    decreases |s|
  {
    if s == [] then []
    else
      var n := T.Find(s, '\n');
      [s[..n]] + Lines(if n < |s| then s[n + 1..] else [])
  }

  predicate Labelled(line: string, key: Key) { Label(key) <= line }

  /** What the lines of one key say after their label, in order. */
  function Said(lines: seq<string>, key: Key): seq<string> {
    if lines == [] then []
    else (if Labelled(lines[0], key) then [lines[0][|Label(key)|..]] else []) + Said(lines[1..], key)
  }

  /** The sizes are said in kilobytes. */
  function Scaled(key: Key, number: int): int { if key.Threads? then number else number * 1024 }

  /** blanks digits blanks suffix, at most 16 digits and at most 2^50. */
  predicate Measures(body: string, key: Key, value: int, before: string, digits: string, after: string) {
    && AllBlank(before) && D.AllDigits(digits) && AllBlank(after)
    && body == before + digits + after + Suffix(key)
    && 1 <= |digits| <= 16 && D.Value(digits) <= H.LIMIT50 && value == Scaled(key, D.Value(digits))
  }

  /** Exactly one line has the key's label, and what follows measures this value. */
  ghost predicate SaysOnce(lines: seq<string>, key: Key, value: int) {
    && |Said(lines, key)| == 1
    && exists before, digits, after :: Measures(Said(lines, key)[0], key, value, before, digits, after)
  }

  /** The text says so of all four keys, and the numbers are a possible sample. */
  ghost predicate Says(text: string, vm: H.Vm) {
    H.ValidVm(vm) && forall key :: SaysOnce(Lines(text), key, Field(vm, key))
  }

  // ---------------------------------------------------------------- the same, computed

  function BlankPrefix(s: string): (n: nat)
    ensures n <= |s| && AllBlank(s[..n])
    ensures n < |s| ==> !Blank(s[n])
  {
    if s == [] || !Blank(s[0]) then 0
    else
      assert s[..BlankPrefix(s[1..]) + 1] == [s[0]] + s[1..][..BlankPrefix(s[1..])];
      BlankPrefix(s[1..]) + 1
  }

  function Amount(body: string, key: Key): Option<int> { NumberIn(body[BlankPrefix(body)..], key) }

  function NumberIn(rest: string, key: Key): Option<int> {
    EndsIn(rest[..J.DigitPrefix(rest)], rest[J.DigitPrefix(rest)..], key)
  }

  function EndsIn(digits: string, tail: string, key: Key): Option<int>
    requires D.AllDigits(digits)
  {
    if 1 <= |digits| <= 16 && D.Value(digits) <= H.LIMIT50 && tail[BlankPrefix(tail)..] == Suffix(key)
    then Some(Scaled(key, D.Value(digits)))
    else None
  }

  function KeyOf(line: string): Option<Key> {
    if Labelled(line, Size) then Some(Size)
    else if Labelled(line, Peak) then Some(Peak)
    else if Labelled(line, Rss) then Some(Rss)
    else if Labelled(line, Threads) then Some(Threads)
    else None
  }

  /** One line added to what was found: a repeated key or a malformed amount is a fault. */
  function Take(found: map<Key, int>, line: string): Option<map<Key, int>> {
    if KeyOf(line).None? then Some(found)
    else
      var key := KeyOf(line).value;
      if key in found then None
      else
        var amount := Amount(line[|Label(key)|..], key);
        if amount.None? then None else Some(found[key := amount.value])
  }

  function Gather(found: map<Key, int>, lines: seq<string>): Option<map<Key, int>>
    decreases |lines|
  {
    if lines == [] then Some(found)
    else
      var next := Take(found, lines[0]);
      if next.None? then None else Gather(next.value, lines[1..])
  }

  /** The final check: all four keys, and a possible sample. */
  function Finish(found: map<Key, int>): Option<H.Vm> {
    if Size in found && Peak in found && Rss in found && Threads in found
       && H.ValidVm(H.Vm(found[Size], found[Peak], found[Rss], found[Threads]))
    then Some(H.Vm(found[Size], found[Peak], found[Rss], found[Threads]))
    else None
  }

  function Parsed(text: string): Option<H.Vm> {
    var found := Gather(map[], Lines(text));
    if found.None? then None else Finish(found.value)
  }

  // ---------------------------------------------------------------- computed is specified

  lemma {:induction false} BlankPrefixOf(b: string, rest: string)
    requires AllBlank(b) && (rest == [] || !Blank(rest[0]))
    ensures BlankPrefix(b + rest) == |b|
  {
    if b == [] {
      assert b + rest == rest;
    } else {
      assert (b + rest)[1..] == b[1..] + rest;
      BlankPrefixOf(b[1..], rest);
    }
  }

  /** The amount of a body is the value of its only reading. */
  lemma AmountOf(body: string, key: Key, value: int, before: string, digits: string, after: string)
    requires Measures(body, key, value, before, digits, after)
    ensures Amount(body, key) == Some(value)
  {
    hide D.Value, BlankPrefix, J.DigitPrefix;
    var suffix := Suffix(key);
    var tail := after + suffix;
    assert suffix == [] || suffix[0] == 'k';
    assert body == before + (digits + tail);
    BlankPrefixOf(before, digits + tail);
    assert body[|before|..] == digits + tail;
    J.DigitPrefixOf(digits, tail);
    assert (digits + tail)[..|digits|] == digits && (digits + tail)[|digits|..] == tail;
    BlankPrefixOf(after, suffix);
    assert tail[|after|..] == suffix;
  }

  lemma AmountMeans(body: string, key: Key)
    requires Amount(body, key).Some?
    ensures exists before, digits, after :: Measures(body, key, Amount(body, key).value, before, digits, after)
  {
    hide D.Value, BlankPrefix, J.DigitPrefix;
    var n := BlankPrefix(body);
    var rest := body[n..];
    var m := J.DigitPrefix(rest);
    var tail := rest[m..];
    var k := BlankPrefix(tail);
    assert body == body[..n] + rest[..m] + tail[..k] + tail[k..];
    assert Measures(body, key, Amount(body, key).value, body[..n], rest[..m], tail[..k]);
  }

  /** No line carries two labels. */
  lemma OneLabel(line: string, key: Key)
    ensures Labelled(line, key) <==> KeyOf(line) == Some(key)
  {
    if Labelled(line, key) {
      assert |Label(key)| >= 6 && line[2] == Label(key)[2] && line[3] == Label(key)[3];
      assert Label(Size)[2] == 'S' && Label(Peak)[2] == 'P' && Label(Rss)[2] == 'R' && Label(Threads)[2] == 'r';
    }
  }

  /** What one key went through: kept if it was there, read from its only line if not. */
  ghost predicate Gathered(found: map<Key, int>, said: seq<string>, key: Key, all: map<Key, int>) {
    if key in found then said == [] && key in all && all[key] == found[key]
    else if key in all then |said| == 1 && Amount(said[0], key) == Some(all[key])
    else said == []
  }

  ghost predicate AllGathered(found: map<Key, int>, lines: seq<string>, all: map<Key, int>) {
    forall key :: Gathered(found, Said(lines, key), key, all)
  }

  lemma {:induction false} GatherIff(found: map<Key, int>, lines: seq<string>, all: map<Key, int>)
    ensures Gather(found, lines) == Some(all) <==> AllGathered(found, lines, all)
    decreases |lines|
  {
    hide Label, KeyOf, Amount;
    if lines == [] {
      if AllGathered(found, lines, all) {
        forall key ensures (key in found <==> key in all) && (key in found ==> found[key] == all[key]) {
          assert Gathered(found, Said(lines, key), key, all);
        }
        assert found == all;
      }
    } else {
      var next := Take(found, lines[0]);
      if next.Some? {
        GatherIff(next.value, lines[1..], all);
        forall key
          ensures Gathered(found, Said(lines, key), key, all) <==> Gathered(next.value, Said(lines[1..], key), key, all)
        {
          TakeGathered(found, lines, key, all);
        }
        if AllGathered(next.value, lines[1..], all) {
          forall key ensures Gathered(found, Said(lines, key), key, all) {
            assert Gathered(next.value, Said(lines[1..], key), key, all);
          }
        }
      } else {
        var key := KeyOf(lines[0]).value;
        OneLabel(lines[0], key);
        assert |Said(lines, key)| >= 1 && Said(lines, key)[0] == lines[0][|Label(key)|..];
        assert !Gathered(found, Said(lines, key), key, all);
      }
    }
  }

  lemma TakeGathered(found: map<Key, int>, lines: seq<string>, key: Key, all: map<Key, int>)
    requires lines != [] && Take(found, lines[0]).Some?
    ensures Gathered(found, Said(lines, key), key, all)
      <==> Gathered(Take(found, lines[0]).value, Said(lines[1..], key), key, all)
  {
    OneLabel(lines[0], key);
    hide Label, KeyOf, Amount;
    var rest := Said(lines[1..], key);
    if Labelled(lines[0], key) {
      assert Said(lines, key) == [lines[0][|Label(key)|..]] + rest;
    } else {
      assert Said(lines, key) == rest;
    }
  }

  /** Parsing accepts exactly what the text says. */
  lemma ParsedIffSays(text: string, vm: H.Vm)
    ensures Parsed(text) == Some(vm) <==> Says(text, vm)
  {
    hide Lines, Said, Gather, Amount, Label;
    var lines := Lines(text);
    if Parsed(text) == Some(vm) {
      var all := Gather(map[], lines).value;
      GatherIff(map[], lines, all);
      forall key ensures SaysOnce(lines, key, Field(vm, key)) {
        assert (key.Size? || key.Peak? || key.Rss? || key.Threads?) && key in all && all[key] == Field(vm, key);
        assert Gathered(map[], Said(lines, key), key, all);
        AmountMeans(Said(lines, key)[0], key);
      }
    }
    if Says(text, vm) {
      var all := map[Size := vm.size, Peak := vm.peak, Rss := vm.rss, Threads := vm.threads];
      forall key ensures Gathered(map[], Said(lines, key), key, all) {
        assert (key.Size? || key.Peak? || key.Rss? || key.Threads?) && key in all && all[key] == Field(vm, key) && SaysOnce(lines, key, Field(vm, key));
        var before, digits, after :| Measures(Said(lines, key)[0], key, Field(vm, key), before, digits, after);
        AmountOf(Said(lines, key)[0], key, Field(vm, key), before, digits, after);
      }
      GatherIff(map[], lines, all);
    }
  }

  // ---------------------------------------------------------------- the loops over the scratch buffer

  lemma DropSlice(s: string, a: nat, b: nat, k: nat)
    requires a <= b <= |s| && k <= b - a
    ensures s[a..b][k..] == s[a + k..b]
  {
  }

  /** The amount between two indices of the scratch, which holds text: blanks, then the number. */
  method ReadAmount(scratch: array<char>, ghost text: string, start: nat, end: nat, key: Key) returns (amount: Option<int>)
    requires start <= end <= scratch.Length && text == scratch[..]
    ensures amount == Amount(text[start..end], key)
  {
    hide BlankPrefix, NumberIn;
    var index := SkipBlanks(scratch, text, start, end);
    DropSlice(text, start, end, index - start);
    amount := ReadNumber(scratch, text, index, end, key);
  }

  /** Digits with an early bound, blanks, suffix. */
  method ReadNumber(scratch: array<char>, ghost text: string, start: nat, end: nat, key: Key) returns (amount: Option<int>)
    requires start <= end <= scratch.Length && text == scratch[..]
    ensures amount == NumberIn(text[start..end], key)
  {
    hide D.Value, BlankPrefix, J.DigitPrefix, Suffix, Scaled, D.IsDigit, Blank;
    var index, number, digits := ReadDigits(scratch, text, start, end);
    if digits > 16 || number > H.LIMIT50 {
      return None;
    }
    ghost var tail := text[index..end];
    DropSlice(text, start, end, index - start);
    ghost var from := index;
    index := SkipBlanks(scratch, text, index, end);
    DropSlice(text, from, end, index - from);
    assert scratch[index..end] == text[index..end];
    if digits == 0 || scratch[index..end] != Suffix(key) {
      return None;
    }
    return Some(Scaled(key, number));
  }

  /** Reads digits until they stop or are already too long or too large. */
  method ReadDigits(scratch: array<char>, ghost text: string, start: nat, end: nat) returns (index: nat, number: int, digits: nat)
    requires start <= end <= scratch.Length && text == scratch[..]
    ensures var rest := text[start..end];
      && start <= index <= end
      && (digits > 16 || number > H.LIMIT50 <==> J.DigitPrefix(rest) > 16 || D.Value(rest[..J.DigitPrefix(rest)]) > H.LIMIT50)
      && (digits <= 16 && number <= H.LIMIT50 ==>
          digits == index - start == J.DigitPrefix(rest) && number == D.Value(rest[..digits]))
  {
    hide D.Value, J.DigitPrefix;
    ghost var rest := text[start..end];
    index, number, digits := start, 0, 0;
    assert rest[..0] == [];
    NoDigits();
    while index < end && D.IsDigit(scratch[index])
      invariant start <= index <= end && digits == index - start <= 16
      invariant D.AllDigits(rest[..digits]) && number == D.Value(rest[..digits]) <= H.LIMIT50
    {
      assert rest[digits] == scratch[index];
      OneMoreDigit(rest, digits);
      number, digits := number * 10 + D.DigitValue(scratch[index]), digits + 1;
      if digits > 16 || number > H.LIMIT50 {
        TooLong(rest, digits);
        return;
      }
      index := index + 1;
    }
    assert rest == rest[..digits] + rest[digits..];
    J.DigitPrefixOf(rest[..digits], rest[digits..]);
  }

  method SkipBlanks(scratch: array<char>, ghost text: string, start: nat, end: nat) returns (index: nat)
    requires start <= end <= scratch.Length && text == scratch[..]
    ensures start <= index <= end && index - start == BlankPrefix(text[start..end])
  {
    hide BlankPrefix;
    index := start;
    ghost var body := text[start..end];
    while index < end && Blank(scratch[index])
      invariant start <= index <= end && AllBlank(body[..index - start])
    {
      assert body[index - start] == scratch[index];
      index := index + 1;
    }
    assert body == body[..index - start] + body[index - start..];
    BlankPrefixOf(body[..index - start], body[index - start..]);
  }

  lemma NoDigits()
    ensures D.Value([]) == 0
  {
  }

  lemma OneMoreDigit(s: string, n: nat)
    requires n < |s| && D.AllDigits(s[..n]) && D.IsDigit(s[n])
    ensures D.AllDigits(s[..n + 1]) && D.Value(s[..n + 1]) == D.Value(s[..n]) * 10 + D.DigitValue(s[n])
  {
    assert s[..n + 1][..n] == s[..n];
  }

  /** Stopping early is right: more digits only make the number longer and larger. */
  lemma TooLong(s: string, n: nat)
    requires n <= |s| && D.AllDigits(s[..n]) && (n > 16 || D.Value(s[..n]) > H.LIMIT50)
    ensures n <= J.DigitPrefix(s)
    ensures J.DigitPrefix(s) > 16 || D.Value(s[..J.DigitPrefix(s)]) > H.LIMIT50
  {
    PrefixCovers(s, n);
    Grows(s[..J.DigitPrefix(s)], n);
    assert s[..J.DigitPrefix(s)][..n] == s[..n];
  }

  lemma PrefixCovers(s: string, n: nat)
    requires n <= |s| && D.AllDigits(s[..n])
    ensures n <= J.DigitPrefix(s)
  {
    forall i | 0 <= i < n ensures D.IsDigit(s[i]) { assert s[..n][i] == s[i]; }
  }

  lemma {:induction false} Grows(s: string, n: nat)
    requires n <= |s| && D.AllDigits(s)
    ensures D.AllDigits(s[..n]) && D.Value(s[..n]) <= D.Value(s)
  {
    if n == |s| {
      assert s[..n] == s;
    } else {
      Grows(s[..|s| - 1], n);
      assert s[..|s| - 1][..n] == s[..n];
    }
  }

  /** A label holds no newline, so comparing it at the start of a line never sees past the line. */
  lemma LabelInLine(all: string, start: nat, end: nat, key: Key)
    requires start <= end < |all| && all[end] == '\n'
    ensures all[start..Min(start + |Label(key)|, |all|)] == Label(key) <==> Labelled(all[start..end], key)
  {
    var text := Label(key);
    assert '\n' !in text;
    var stop := Min(start + |text|, |all|);
    if all[start..stop] == text {
      forall i | start <= i < stop ensures all[i] != '\n' { assert all[start..stop][i - start] == all[i]; }
    }
    if Labelled(all[start..end], key) {
      assert all[start..end][..|text|] == all[start..start + |text|];
    }
  }

  /** One line of the scratch: which label it carries, if any, and what that adds. */
  method TakeLine(scratch: array<char>, start: nat, end: nat, found: map<Key, int>) returns (next: Option<map<Key, int>>)
    requires start <= end < scratch.Length && scratch[end] == '\n'
    ensures next == Take(found, scratch[start..end])
  {
    hide Label, Amount, KeyOf;
    ghost var line := scratch[start..end];
    var result := found;
    ghost var seen := false;
    var k := 0;
    while k < |KEYS|
      invariant 0 <= k <= |KEYS|
      invariant !seen ==> result == found && forall i :: 0 <= i < k ==> KeyOf(line) != Some(KEYS[i])
      invariant seen ==> Take(found, line) == Some(result) && exists i :: 0 <= i < k && KeyOf(line) == Some(KEYS[i])
    {
      var key := KEYS[k];
      var text := Label(key);
      var stop := Min(start + |text|, scratch.Length);
      assert scratch[..][start..end] == line && scratch[..][start..stop] == scratch[start..stop];
      LabelInLine(scratch[..], start, end, key);
      OneLabel(line, key);
      if scratch[start..stop] == text {
        assert !seen;
        if key in result {
          return None;
        }
        ghost var all := scratch[..];
        assert all[start..end] == line;
        DropSlice(all, start, end, |text|);
        var amount := ReadAmount(scratch, all, start + |text|, end, key);
        if amount.None? {
          return None;
        }
        result, seen := result[key := amount.value], true;
      }
      k := k + 1;
    }
    if KeyOf(line).Some? {
      var key := KeyOf(line).value;
      assert key == KEYS[0] || key == KEYS[1] || key == KEYS[2] || key == KEYS[3];
    }
    return Some(result);
  }

  /**
    The whole parse. The result is what the first length characters say, whatever an earlier,
    longer read left behind them in the scratch.
  */
  method ParseStatus(scratch: array<char>, length: int) returns (vm: Option<H.Vm>)
    ensures !(1 <= length <= STATUS_MAX && length <= scratch.Length && scratch[length - 1] == '\n') ==> vm.None?
    ensures 1 <= length <= STATUS_MAX && length <= scratch.Length && scratch[length - 1] == '\n' ==>
      vm == Parsed(scratch[..length])
  {
    hide Lines, Gather, Take, Finish, T.Find;
    if !(1 <= length <= STATUS_MAX && length <= scratch.Length && scratch[length - 1] == '\n') {
      return None;
    }
    ghost var text := scratch[..length];
    var found: map<Key, int> := map[];
    var start := 0;
    assert text[0..] == text;
    while start < length
      invariant 0 <= start <= length
      invariant Gather(map[], Lines(text)) == Gather(found, Lines(text[start..]))
    {
      var end := start;
      while end < length && scratch[end] != '\n'
        invariant start <= end < length
        invariant '\n' !in scratch[start..end]
      {
        end := end + 1;
      }
      ghost var line := scratch[start..end];
      assert text[start..] == line + "\n" + text[end + 1..];
      NextLine(found, line, text[end + 1..]);
      var next := TakeLine(scratch, start, end, found);
      if next.None? {
        return None;
      }
      found := next.value;
      start := end + 1;
    }
    AllRead(found);
    assert text[start..] == [];
    return Finish(found);
  }

  lemma NextLine(found: map<Key, int>, line: string, rest: string)
    requires '\n' !in line
    ensures Gather(found, Lines(line + "\n" + rest))
      == (if Take(found, line).None? then None else Gather(Take(found, line).value, Lines(rest)))
  {
    hide Take;
    T.FindOf(line, "\n", rest);
    var s := line + "\n" + rest;
    assert s[..|line|] == line && s[|line| + 1..] == rest;
    assert Lines(s) == [line] + Lines(rest);
    assert Lines(s)[1..] == Lines(rest);
  }

  lemma AllRead(found: map<Key, int>)
    ensures Gather(found, Lines([])) == Some(found)
  {
  }
}
