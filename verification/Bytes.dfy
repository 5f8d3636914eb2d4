/** Bytes and little-endian numbers. */
module Bytes {
  import opened Common

  type Byte = x: int | 0 <= x < 256

  function Base(k: nat): (b: nat)
    ensures b >= 1
  {
    if k == 0 then 1 else 256 * Base(k - 1)
  }

  /** The number these bytes hold, lowest first. */
  function Value(s: seq<Byte>): nat {
    if s == [] then 0 else s[0] + 256 * Value(s[1..])
  }

  /** The k bytes of a number. */
  function Little(n: nat, k: nat): (s: seq<Byte>)
    ensures |s| == k
  {
    if k == 0 then [] else [n % 256] + Little(n / 256, k - 1)
  }

  lemma {:induction false} ValueOfLittle(n: nat, k: nat)
    requires n < Base(k)
    ensures Value(Little(n, k)) == n
  {
    if k > 0 {
      ValueOfLittle(n / 256, k - 1);
      assert Little(n, k)[1..] == Little(n / 256, k - 1);
    }
  }

  lemma {:induction false} LittleOfValue(s: seq<Byte>)
    ensures Value(s) < Base(|s|) && Little(Value(s), |s|) == s
  {
    if s != [] {
      LittleOfValue(s[1..]);
      assert Value(s) % 256 == s[0] && Value(s) / 256 == Value(s[1..]);
    }
  }

  /** A read of up to n bytes at a position, cut at the end of the file. */
  function Read(file: seq<Byte>, at: nat, n: nat): (s: seq<Byte>)
    ensures |s| <= n
    ensures at + n <= |file| ==> |s| == n && s == file[at..at + n]
    ensures |s| < n ==> at + |s| >= |file|
    ensures |s| > 0 ==> at + |s| <= |file| && s == file[at..at + |s|]
  {
    file[Min(at, |file|)..Min(at + n, |file|)]
  }

  function U16(s: seq<Byte>, at: nat): nat
    requires at + 2 <= |s|
  {
    Value(s[at..at + 2])
  }

  function U32(s: seq<Byte>, at: nat): nat
    requires at + 4 <= |s|
  {
    Value(s[at..at + 4])
  }

  /** A slice of a slice. */
  lemma Slice<T>(s: seq<T>, a: nat, b: nat, c: nat, d: nat)
    requires a <= b <= |s| && c <= d <= b - a
    ensures s[a..b][c..d] == s[a + c..a + d]
  {
    forall i | 0 <= i < d - c ensures s[a..b][c..d][i] == s[a + c..a + d][i] {
      assert s[a..b][c..d][i] == s[a..b][c + i];
    }
  }

  /** Numbers read through a slice. */
  lemma Through(s: seq<Byte>, a: nat, b: nat, at: nat)
    requires a <= b <= |s|
    ensures at + 2 <= b - a ==> U16(s[a..b], at) == U16(s, a + at)
    ensures at + 4 <= b - a ==> U32(s[a..b], at) == U32(s, a + at)
  {
    hide Value;
    if at + 2 <= b - a { Slice(s, a, b, at, at + 2); }
    if at + 4 <= b - a { Slice(s, a, b, at, at + 4); }
  }

  /** Four bytes of what was read are four bytes of the file. */
  lemma ReadThrough(file: seq<Byte>, at: nat, n: nat, k: nat)
    requires k + 4 <= |Read(file, at, n)|
    ensures at + k + 4 <= |file| && U32(Read(file, at, n), k) == U32(file, at + k)
    ensures Read(file, at, n)[k..k + 4] == file[at + k..at + k + 4]
  {
    hide Value, Read;
    var s := Read(file, at, n);
    Through(file, at, at + |s|, k);
    Slice(file, at, at + |s|, k, k + 4);
  }
}
