/** Member names of an archive and the rule that no file stands where another member has a directory. */
module Paths {
  import T = Text

  function Split(s: string): (parts: seq<string>)
    ensures parts != []
    decreases |s|
  {
    var n := T.Find(s, '/');
    if n == |s| then [s] else [s[..n]] + Split(s[n + 1..])
  }

  function Join(parts: seq<string>): string {
    if parts == [] then "" else if |parts| == 1 then parts[0] else parts[0] + "/" + Join(parts[1..])
  }

  /** Without the slashes it ends with. */
  function Strip(s: string): (t: string)
    ensures t <= s
    ensures t != [] ==> t[|t| - 1] != '/'
  {
    if s != [] && s[|s| - 1] == '/' then Strip(s[..|s| - 1]) else s
  }

  predicate Plain(c: char) { 32 <= c as int != 127 && c != '\\' && c != ':' }

  predicate SafeName(name: string) {
    && 0 < |name| <= 512 && (forall i :: 0 <= i < |name| ==> Plain(name[i])) && name[0] != '/'
    && forall k :: 0 <= k < |Split(Strip(name))| ==> Split(Strip(name))[k] != "" && Split(Strip(name))[k] != "." && Split(Strip(name))[k] != ".."
  }

  /** The names a member has above it, longest last: every proper initial part of its split. */
  predicate AncestorsClear(name: string, seen: set<string>) {
    var parts := Split(Strip(name));
    forall k :: 1 <= k < |parts| ==> Join(parts[..k]) !in seen
  }

  lemma SplitAtSlash(s: string)
    requires T.Find(s, '/') < |s|
    ensures var n := T.Find(s, '/'); Split(s) == [s[..n]] + Split(s[n + 1..])
  {
    hide T.Find;
  }

  lemma SplitNothing(s: string)
    requires T.Find(s, '/') == |s|
    ensures |Split(s)| == 1
  {
    hide T.Find;
  }

  lemma HeadTail(parts: seq<string>, head: string, tail: seq<string>)
    requires parts == [head] + tail
    ensures |parts| == 1 + |tail| && parts[0] == head && parts[1..] == tail
  {
  }

  lemma JoinUnfolds(parts: seq<string>, k: nat)
    requires 1 <= k <= |parts|
    ensures Join(parts[..k]) == if k == 1 then parts[0] else parts[0] + "/" + Join(parts[1..][..k - 1])
  {
    assert k > 1 ==> parts[..k][1..] == parts[1..][..k - 1];
  }

  lemma CutFurther(s: string, n: nat, q: nat)
    requires n < |s| && s[n] == '/' && n + 1 + q <= |s|
    ensures s[..n + 1 + q] == s[..n] + "/" + s[n + 1..][..q]
  {
  }

  lemma {:induction false} PartsAreCuts(s: string, k: nat) returns (p: nat)
    requires 1 <= k < |Split(s)|
    ensures p < |s| && s[p] == '/' && s[..p] == Join(Split(s)[..k])
    decreases k
  {
    hide Split, Join, T.Find;
    var n := T.Find(s, '/');
    if n == |s| {
      SplitNothing(s);
      assert false;
    } else {
      var rest := s[n + 1..];
      SplitAtSlash(s);
      HeadTail(Split(s), s[..n], Split(rest));
      JoinUnfolds(Split(s), k);
      if k == 1 {
        p := n;
      } else {
        var q := PartsAreCuts(rest, k - 1);
        CutFurther(s, n, q);
        p := n + 1 + q;
      }
    }
  }

  lemma SlashBefore(s: string, p: nat)
    requires p < |s| && s[p] == '/'
    ensures T.Find(s, '/') <= p
  {
    assert forall i :: 0 <= i < T.Find(s, '/') ==> s[..T.Find(s, '/')][i] == s[i];
  }

  lemma {:induction false} CutsAreParts(s: string, p: nat) returns (k: nat)
    requires p < |s| && s[p] == '/'
    ensures 1 <= k < |Split(s)| && Join(Split(s)[..k]) == s[..p]
    decreases |s|
  {
    hide Split, Join, T.Find;
    var n := T.Find(s, '/');
    SlashBefore(s, p);
    var rest := s[n + 1..];
    SplitAtSlash(s);
    HeadTail(Split(s), s[..n], Split(rest));
    assert |Split(rest)| >= 1;
    if p == n {
      k := 1;
      JoinUnfolds(Split(s), 1);
    } else {
      var q := CutsAreParts(rest, p - n - 1);
      CutFurther(s, n, p - n - 1);
      k := q + 1;
      JoinUnfolds(Split(s), k);
    }
  }

  /** No cut of this path is a seen name. */
  predicate CutsClear(path: string, seen: set<string>) {
    forall p :: 0 <= p < |path| && path[p] == '/' ==> path[..p] !in seen
  }

  /** The check looks at exactly the places where the name goes down into a directory. */
  lemma AncestorsIff(name: string, seen: set<string>)
    ensures AncestorsClear(name, seen) <==> CutsClear(Strip(name), seen)
  {
    hide Split, Join, Strip;
    var s := Strip(name);
    if AncestorsClear(name, seen) {
      forall p | 0 <= p < |s| && s[p] == '/' ensures s[..p] !in seen {
        var k := CutsAreParts(s, p);
      }
    }
    if CutsClear(s, seen) {
      forall k | 1 <= k < |Split(s)| ensures Join(Split(s)[..k]) !in seen {
        var p := PartsAreCuts(s, k);
      }
    }
  }

  /** Names that stay different without their final slashes. */
  predicate DistinctPaths(names: seq<string>) {
    forall i, j :: 0 <= i < j < |names| ==> Strip(names[i]) != Strip(names[j])
  }

  predicate NoConflict(names: seq<string>) {
    && DistinctPaths(names)
    && forall i :: 0 <= i < |names| ==> AncestorsClear(names[i], set n | n in names)
  }

  /** The path above: the file's name and a slash begin the other member's name. */
  predicate Above(file: string, name: string) { file + "/" <= name }

  /** In an accepted archive no file is above another member, whether that is a file or a directory. */
  lemma NoFileAbove(names: seq<string>, i: nat, j: nat)
    requires NoConflict(names) && i < |names| && j < |names|
    requires names[i] != "" && names[i][|names[i]| - 1] != '/'
    ensures !Above(names[i], names[j])
  {
    hide AncestorsClear, Strip;
    var f, n := names[i], names[j];
    var seen := set x | x in names;
    AncestorsIff(n, seen);
    StripPlain(f);
    assert f in seen;
    if Above(f, n) {
      AboveCuts(f, n);
      assert false;
    }
  }

  /** Being above is a cut of the path, or the path itself. */
  lemma AboveCuts(f: string, n: string)
    requires f != "" && f[|f| - 1] != '/' && Above(f, n)
    ensures var s := Strip(n); (|f| < |s| && s[|f|] == '/' && s[..|f|] == f) || s == f
  {
    assert n[|f|] == '/' && n[..|f|] == f && n[|f| - 1] == f[|f| - 1];
    if |Strip(n)| <= |f| {
      StripFrom(n, |f|);
    }
  }

  lemma StripPlain(s: string)
    requires s != "" && s[|s| - 1] != '/'
    ensures Strip(s) == s
  {
  }

  /** If stripping reaches down to a position behind a non-slash, it stops exactly there. */
  lemma {:induction false} StripFrom(s: string, p: nat)
    requires 0 < p <= |s| && |Strip(s)| <= p && s[p - 1] != '/'
    ensures Strip(s) == s[..p]
  {
    if s[|s| - 1] == '/' {
      StripFrom(s[..|s| - 1], p);
      assert s[..|s| - 1][..p] == s[..p];
    } else {
      assert s[..p] == s;
    }
  }
}
