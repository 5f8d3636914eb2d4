/** Byte ranges laid end to end. */
module Tiling {
  /** From start up to, not including, finish. */
  datatype Range = Range(start: int, finish: int)

  predicate In(r: Range, b: int) { r.start <= b < r.finish }

  /** How many of the ranges hold a position. */
  function Holders(ranges: seq<Range>, b: int): nat {
    if ranges == [] then 0 else (if In(ranges[0], b) then 1 else 0) + Holders(ranges[1..], b)
  }

  /** Every position from low to high is held once, and no other. */
  ghost predicate Covers(ranges: seq<Range>, low: int, high: int) {
    forall b :: Holders(ranges, b) == if low <= b < high then 1 else 0
  }

  predicate Nonempty(ranges: seq<Range>) { forall i :: 0 <= i < |ranges| ==> ranges[i].start < ranges[i].finish }

  predicate Ordered(ranges: seq<Range>) { forall i, j :: 0 <= i < j < |ranges| ==> ranges[i].start <= ranges[j].start }

  // ---------------------------------------------------------------- sorting by start

  function Insert(r: Range, sorted: seq<Range>): seq<Range> {
    if sorted == [] || r.start <= sorted[0].start then [r] + sorted else [sorted[0]] + Insert(r, sorted[1..])
  }

  function Sorted(ranges: seq<Range>): seq<Range> {
    if ranges == [] then [] else Insert(ranges[0], Sorted(ranges[1..]))
  }

  lemma {:induction false} InsertHolders(r: Range, sorted: seq<Range>, b: int)
    ensures Holders(Insert(r, sorted), b) == (if In(r, b) then 1 else 0) + Holders(sorted, b)
  {
    if sorted == [] || r.start <= sorted[0].start {
      assert ([r] + sorted)[1..] == sorted;
    } else {
      InsertHolders(r, sorted[1..], b);
      assert Insert(r, sorted)[1..] == Insert(r, sorted[1..]);
    }
  }

  lemma {:induction false} SortedHolders(ranges: seq<Range>, b: int)
    ensures Holders(Sorted(ranges), b) == Holders(ranges, b)
  {
    if ranges != [] {
      SortedHolders(ranges[1..], b);
      InsertHolders(ranges[0], Sorted(ranges[1..]), b);
    }
  }

  lemma {:induction false} InsertOrdered(r: Range, sorted: seq<Range>)
    requires Ordered(sorted)
    ensures Ordered(Insert(r, sorted))
    ensures forall x :: x in Insert(r, sorted) ==> x == r || x in sorted
    ensures |Insert(r, sorted)| == |sorted| + 1
  {
    if sorted != [] && r.start > sorted[0].start {
      InsertOrdered(r, sorted[1..]);
      var rest := Insert(r, sorted[1..]);
      forall j | 0 <= j < |rest| ensures sorted[0].start <= rest[j].start {
        assert rest[j] in rest;
      }
    }
  }

  lemma {:induction false} SortedOrdered(ranges: seq<Range>)
    ensures Ordered(Sorted(ranges))
    ensures forall x :: x in Sorted(ranges) ==> x in ranges
  {
    if ranges != [] {
      SortedOrdered(ranges[1..]);
      InsertOrdered(ranges[0], Sorted(ranges[1..]));
    }
  }

  // ---------------------------------------------------------------- the walk over sorted ranges

  /** Each range starts where the one before ended, and the last ends at high. */
  predicate Chains(ranges: seq<Range>, low: int, high: int) {
    if ranges == [] then low == high
    else ranges[0].start == low && ranges[0].finish >= low && Chains(ranges[1..], ranges[0].finish, high)
  }

  lemma {:induction false} HeldInside(ranges: seq<Range>, b: int)
    ensures Holders(ranges, b) > 0 <==> exists i :: 0 <= i < |ranges| && In(ranges[i], b)
  {
    if ranges != [] {
      HeldInside(ranges[1..], b);
      if Holders(ranges[1..], b) > 0 {
        var i :| 0 <= i < |ranges[1..]| && In(ranges[1..][i], b);
        assert In(ranges[i + 1], b);
      }
      if i :| 0 <= i < |ranges| && In(ranges[i], b) {
        if i > 0 { assert In(ranges[1..][i - 1], b); }
      }
    }
  }

  lemma {:induction false} ChainCovers(ranges: seq<Range>, low: int, high: int)
    requires Chains(ranges, low, high)
    ensures low <= high && Covers(ranges, low, high)
  {
    if ranges != [] {
      ChainCovers(ranges[1..], ranges[0].finish, high);
      forall b ensures Holders(ranges, b) == if low <= b < high then 1 else 0 {
        assert Holders(ranges[1..], b) == if ranges[0].finish <= b < high then 1 else 0;
      }
    }
  }

  lemma {:induction false} CoverChains(ranges: seq<Range>, low: int, high: int)
    requires Ordered(ranges) && Nonempty(ranges) && low <= high && Covers(ranges, low, high)
    ensures Chains(ranges, low, high)
  {
    if ranges == [] {
      assert Holders(ranges, low) == 0;
    } else {
      var r := ranges[0];
      FirstStarts(ranges, low, high);
      HeldInside(ranges, r.finish - 1);
      assert In(ranges[0], r.finish - 1);
      assert Holders(ranges, r.finish - 1) > 0;
      forall b ensures Holders(ranges[1..], b) == if r.finish <= b < high then 1 else 0 {
        assert Holders(ranges, b) == if low <= b < high then 1 else 0;
      }
      CoverChains(ranges[1..], r.finish, high);
    }
  }

  /** The least start of a cover is its low end. */
  lemma FirstStarts(ranges: seq<Range>, low: int, high: int)
    requires ranges != [] && Ordered(ranges) && Nonempty(ranges) && Covers(ranges, low, high)
    ensures ranges[0].start == low
  {
    var r := ranges[0];
    HeldInside(ranges, r.start);
    assert In(ranges[0], r.start);
    assert Holders(ranges, r.start) > 0;
    HeldInside(ranges, low);
    assert Holders(ranges, low) == if low <= low < high then 1 else 0;
  }

  /** For ranges that hold something, the walk over them sorted succeeds exactly on a partition. */
  lemma WalkIffPartition(ranges: seq<Range>, low: int, high: int)
    requires Nonempty(ranges) && low <= high
    ensures Chains(Sorted(ranges), low, high) <==> Covers(ranges, low, high)
  {
    hide Sorted, Chains, Holders;
    SortedOrdered(ranges);
    assert Nonempty(Sorted(ranges)) by {
      forall i | 0 <= i < |Sorted(ranges)| ensures Sorted(ranges)[i].start < Sorted(ranges)[i].finish {
        assert Sorted(ranges)[i] in Sorted(ranges);
      }
    }
    forall b ensures Holders(Sorted(ranges), b) == Holders(ranges, b) { SortedHolders(ranges, b); }
    if Chains(Sorted(ranges), low, high) {
      ChainCovers(Sorted(ranges), low, high);
      forall b ensures Holders(ranges, b) == if low <= b < high then 1 else 0 {
        assert Holders(Sorted(ranges), b) == if low <= b < high then 1 else 0;
      }
    }
    if Covers(ranges, low, high) {
      forall b ensures Holders(Sorted(ranges), b) == if low <= b < high then 1 else 0 {
        assert Holders(ranges, b) == if low <= b < high then 1 else 0;
      }
      CoverChains(Sorted(ranges), low, high);
    }
  }

  /** More ranges right behind a cover extend it. */
  lemma CoverExtends(ranges: seq<Range>, more: seq<Range>, low: int, mid: int, high: int)
    requires Covers(ranges, low, mid) && Chains(more, mid, high) && low <= mid
    ensures Covers(ranges + more, low, high)
  {
    ChainCovers(more, mid, high);
    forall b ensures Holders(ranges + more, b) == if low <= b < high then 1 else 0 {
      HoldersJoined(ranges, more, b);
      assert Holders(ranges, b) == if low <= b < mid then 1 else 0;
      assert Holders(more, b) == if mid <= b < high then 1 else 0;
    }
  }

  lemma {:induction false} HoldersJoined(a: seq<Range>, c: seq<Range>, b: int)
    ensures Holders(a + c, b) == Holders(a, b) + Holders(c, b)
  {
    if a == [] {
      assert a + c == c;
    } else {
      HoldersJoined(a[1..], c, b);
      assert (a + c)[1..] == a[1..] + c;
    }
  }

  /** The walk itself. */
  method Walk(ranges: seq<Range>, high: int) returns (ok: bool)
    ensures ok <==> Chains(Sorted(ranges), 0, high)
  {
    hide Sorted;
    var ordered, end, k := Sorted(ranges), 0, 0;
    assert ordered[0..] == ordered;
    while k < |ordered|
      invariant 0 <= k <= |ordered|
      invariant Chains(ordered, 0, high) <==> Chains(ordered[k..], end, high)
    {
      assert ordered[k..][1..] == ordered[k + 1..];
      if ordered[k].start != end || ordered[k].finish < ordered[k].start {
        return false;
      }
      end := ordered[k].finish;
      k := k + 1;
    }
    return end == high;
  }
}
