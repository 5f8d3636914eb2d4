/** Where a character first stands in a text. */
module Text {
  function Find(s: string, c: char): (n: nat)
    ensures n <= |s| && c !in s[..n]
    ensures n < |s| ==> s[n] == c
  {
    if s == [] || s[0] == c then 0
    else
      assert s[..Find(s[1..], c) + 1] == [s[0]] + s[1..][..Find(s[1..], c)];
      Find(s[1..], c) + 1
  }

  lemma FindOf(head: string, mark: string, rest: string)
    requires |mark| == 1 && mark[0] !in head
    ensures Find(head + mark + rest, mark[0]) == |head|
  {
    var s, c := head + mark + rest, mark[0];
    var n := Find(s, c);
    forall i | 0 <= i < |head| ensures s[i] != c { assert s[i] == head[i]; }
    forall i | 0 <= i < n ensures s[i] != c { assert s[..n][i] == s[i]; }
    assert s[|head|] == c;
  }

  /** What follows a text does not move its first hit. */
  lemma {:induction false} FindEarly(s: string, later: string, c: char)
    requires Find(s, c) < |s|
    ensures Find(s + later, c) == Find(s, c)
  {
    if s[0] != c {
      FindEarly(s[1..], later, c);
      assert (s + later)[1..] == s[1..] + later;
    }
  }

  lemma CutEarly(s: string, later: string, k: nat)
    requires k <= |s|
    ensures (s + later)[..k] == s[..k] && (s + later)[k..] == s[k..] + later
  {
  }

  lemma Associative(a: string, b: string, c: string)
    ensures a + (b + c) == (a + b) + c
  {
  }
}
