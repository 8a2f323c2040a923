/** Idle gaps between task intervals: exactly what the intervals leave uncovered inside their hull. */
module IdleGaps {
  datatype Interval = Interval(start: real, end: real)

  predicate Ordered(a: Interval, b: Interval) { a.start < b.start || (a.start == b.start && a.end <= b.end) }

  // ----- sorting

  function Insert(x: Interval, sorted: seq<Interval>): (r: seq<Interval>)
    ensures multiset(r) == multiset(sorted) + multiset{x}
  {
    if sorted == [] then [x]
    else if Ordered(x, sorted[0]) then
      assert sorted == [sorted[0]] + sorted[1..];
      [x] + sorted
    else
      assert sorted == [sorted[0]] + sorted[1..];
      [sorted[0]] + Insert(x, sorted[1..])
  }

  function Sorted(intervals: seq<Interval>): (r: seq<Interval>)
    ensures multiset(r) == multiset(intervals)
  {
    if intervals == [] then []
    else
      assert intervals == [intervals[0]] + intervals[1..];
      Insert(intervals[0], Sorted(intervals[1..]))
  }

  predicate StartsOrdered(s: seq<Interval>) { forall i, j :: 0 <= i < j < |s| ==> s[i].start <= s[j].start }

  lemma {:induction false} InsertOrdered(x: Interval, sorted: seq<Interval>)
    requires StartsOrdered(sorted)
    ensures StartsOrdered(Insert(x, sorted))
  {
    if sorted != [] && !Ordered(x, sorted[0]) {
      InsertOrdered(x, sorted[1..]);
      var r := Insert(x, sorted[1..]);
      forall y | y in r
        ensures sorted[0].start <= y.start
      {
        assert y in multiset(r);
        assert y in multiset(sorted[1..]) || y == x;
      }
    }
  }

  lemma {:induction false} SortedOrdered(intervals: seq<Interval>)
    ensures StartsOrdered(Sorted(intervals))
  {
    if intervals != [] {
      SortedOrdered(intervals[1..]);
      InsertOrdered(intervals[0], Sorted(intervals[1..]));
    }
  }

  // ----- pieces

  function Max(a: real, b: real): real { if a >= b then a else b }

  /** Take one more interval: a new piece behind a gap, or an extension of the last one. */
  function MergeLast(before: seq<Interval>, x: Interval): (p: seq<Interval>)
    requires before != []
    ensures p != []
  {
    var last := before[|before| - 1];
    if x.start > last.end then before + [Interval(x.start, Max(last.end, x.end))]
    else before[..|before| - 1] + [Interval(last.start, Max(last.end, x.end))]
  }

  /** Merge intervals that touch, taken in order of their starts. */
  function Pieces(ordered: seq<Interval>): (p: seq<Interval>)
    ensures p == [] <==> ordered == []
  {
    if |ordered| <= 1 then ordered
    else MergeLast(Pieces(ordered[..|ordered| - 1]), ordered[|ordered| - 1])
  }

  lemma PiecesNext(ordered: seq<Interval>, n: nat)
    requires 1 <= n < |ordered|
    ensures Pieces(ordered[..n + 1]) == MergeLast(Pieces(ordered[..n]), ordered[n])
  {
    assert ordered[..n + 1][..n] == ordered[..n];
  }

  function Gap(pieces: seq<Interval>, i: nat): real
    requires i + 1 < |pieces|
  {
    pieces[i + 1].start - pieces[i].end
  }

  function GapsOf(pieces: seq<Interval>): seq<real> {
    if |pieces| <= 1 then [] else seq(|pieces| - 1, i requires 0 <= i < |pieces| - 1 => Gap(pieces, i))
  }

  lemma AppendedGap(pieces: seq<Interval>, x: Interval)
    requires pieces != []
    ensures GapsOf(pieces + [x]) == GapsOf(pieces) + [x.start - pieces[|pieces| - 1].end]
  {
    assert forall i: nat | i + 1 < |pieces| :: Gap(pieces + [x], i) == Gap(pieces, i);
  }

  /** Moving the last end changes no gap. */
  lemma ExtendedGaps(pieces: seq<Interval>, last: Interval)
    requires pieces != [] && last.start == pieces[|pieces| - 1].start
    ensures GapsOf(pieces[..|pieces| - 1] + [last]) == GapsOf(pieces)
  {
    var moved := pieces[..|pieces| - 1] + [last];
    assert forall i: nat | i + 1 < |pieces| :: Gap(moved, i) == Gap(pieces, i);
  }

  lemma MergeNext(pieces: seq<Interval>, x: Interval)
    requires pieces != []
    ensures var end, merged := pieces[|pieces| - 1].end, MergeLast(pieces, x);
            && merged[|merged| - 1].end == Max(end, x.end)
            && GapsOf(merged) == if x.start > end then GapsOf(pieces) + [x.start - end] else GapsOf(pieces)
  {
    var last := pieces[|pieces| - 1];
    if x.start > last.end {
      AppendedGap(pieces, Interval(x.start, Max(last.end, x.end)));
    } else {
      ExtendedGaps(pieces, Interval(last.start, Max(last.end, x.end)));
    }
  }

  /** The loop over the sorted intervals. */
  method MergeOrdered(ordered: seq<Interval>) returns (gaps: seq<real>)
    requires ordered != []
    ensures gaps == GapsOf(Pieces(ordered))
  {
    var mergedEnd := ordered[0].end;
    gaps := [];
    ghost var pieces := [ordered[0]];
    assert ordered[..1] == pieces;
    for n := 1 to |ordered|
      invariant pieces == Pieces(ordered[..n]) && pieces != []
      invariant gaps == GapsOf(pieces) && mergedEnd == pieces[|pieces| - 1].end
    {
      var x := ordered[n];
      PiecesNext(ordered, n);
      MergeNext(pieces, x);
      pieces := MergeLast(pieces, x);
      if x.start > mergedEnd { gaps := gaps + [x.start - mergedEnd]; }
      mergedEnd := Max(mergedEnd, x.end);
    }
    assert ordered[..|ordered|] == ordered;
  }

  /** `_merged_idle_gaps` */
  method MergedIdleGaps(intervals: seq<Interval>) returns (gaps: seq<real>)
    ensures gaps == GapsOf(Pieces(Sorted(intervals)))
  {
    if intervals == [] { return []; }
    assert |multiset(Sorted(intervals))| == |multiset(intervals)|;
    gaps := MergeOrdered(Sorted(intervals));
  }

  lemma SortedNonNegative(intervals: seq<Interval>)
    requires NonNegative(intervals)
    ensures NonNegative(Sorted(intervals)) && |Sorted(intervals)| == |intervals|
  {
    var s := Sorted(intervals);
    assert |multiset(s)| == |multiset(intervals)|;
    forall i | 0 <= i < |s|
      ensures s[i].start <= s[i].end
    {
      assert s[i] in multiset(s) && s[i] in multiset(intervals);
    }
  }

  ghost predicate NonNegative(intervals: seq<Interval>) { forall i :: 0 <= i < |intervals| ==> intervals[i].start <= intervals[i].end }

  // ----- what the gaps are

  predicate Contains(i: Interval, x: real) { i.start <= x <= i.end }

  ghost predicate Covered(intervals: seq<Interval>, x: real) { exists i :: 0 <= i < |intervals| && Contains(intervals[i], x) }

  /** Non-empty stretches, in order, with something between any two neighbours. */
  ghost predicate Separated(pieces: seq<Interval>) {
    && (forall i :: 0 <= i < |pieces| ==> pieces[i].start <= pieces[i].end)
    && (forall i, j :: 0 <= i < j < |pieces| ==> pieces[i].end < pieces[j].start)
  }

  /** Both lists cover the same points. */
  ghost predicate SameCover(a: seq<Interval>, b: seq<Interval>) { forall x: real :: Covered(a, x) <==> Covered(b, x) }

  lemma CoveredAppend(a: seq<Interval>, b: Interval, x: real)
    ensures Covered(a + [b], x) <==> Covered(a, x) || Contains(b, x)
  {
    if i :| 0 <= i < |a| && Contains(a[i], x) { assert (a + [b])[i] == a[i]; }
    if Contains(b, x) { assert (a + [b])[|a|] == b; }
    if i :| 0 <= i < |a + [b]| && Contains((a + [b])[i], x) {
      if i < |a| { assert Contains(a[i], x); }
    }
  }

  /** Merging an interval that touches the last piece covers what both cover. */
  lemma MergeCovers(before: seq<Interval>, last: Interval, x: Interval, y: real)
    requires last.start <= last.end && x.start <= x.end && last.start <= x.start <= last.end
    ensures Covered(before + [Interval(last.start, Max(last.end, x.end))], y) <==> Covered(before + [last], y) || Contains(x, y)
  {
    CoveredAppend(before, Interval(last.start, Max(last.end, x.end)), y);
    CoveredAppend(before, last, y);
  }

  /** No piece starts behind this point. */
  ghost predicate StartsBefore(pieces: seq<Interval>, bound: real) { forall i :: 0 <= i < |pieces| ==> pieces[i].start <= bound }

  lemma CoverStep(covered: seq<Interval>, before: seq<Interval>, last: Interval, x: Interval, y: real)
    requires SameCover(covered, before + [last]) && last.start <= last.end && x.start <= x.end && last.start <= x.start
    ensures Covered(covered + [x], y) <==>
            if x.start > last.end then Covered(before + [last] + [x], y)
            else Covered(before + [Interval(last.start, Max(last.end, x.end))], y)
  {
    CoveredAppend(covered, x, y);
    if x.start > last.end {
      CoveredAppend(before + [last], x, y);
    } else {
      MergeCovers(before, last, x, y);
    }
  }

  lemma CoverSteps(covered: seq<Interval>, before: seq<Interval>, last: Interval, x: Interval)
    requires SameCover(covered, before + [last]) && last.start <= last.end && x.start <= x.end && last.start <= x.start
    ensures SameCover(covered + [x], if x.start > last.end then before + [last] + [x]
                                     else before + [Interval(last.start, Max(last.end, x.end))])
  {
    forall y: real
      ensures Covered(covered + [x], y) <==>
              Covered(if x.start > last.end then before + [last] + [x] else before + [Interval(last.start, Max(last.end, x.end))], y)
    {
      CoverStep(covered, before, last, x, y);
    }
  }

  lemma SeparatedStep(before: seq<Interval>, last: Interval, x: Interval)
    requires Separated(before + [last]) && x.start <= x.end && last.start <= x.start
    ensures x.start > last.end ==> Separated(before + [last] + [x])
    ensures x.start <= last.end ==> Separated(before + [Interval(last.start, Max(last.end, x.end))])
  {
    var all := before + [last];
    assert all[|before|] == last;
    if x.start > last.end {
      forall i | 0 <= i < |all|
        ensures all[i].end < x.start
      {
        if i < |before| { assert all[i].end < all[|before|].start; }
      }
    } else {
      var moved := before + [Interval(last.start, Max(last.end, x.end))];
      forall i, j | 0 <= i < j < |moved|
        ensures moved[i].end < moved[j].start
      {
        assert all[i].end < all[j].start;
      }
      forall i | 0 <= i < |moved|
        ensures moved[i].start <= moved[i].end
      {
        assert all[i].start <= all[i].end;
      }
    }
  }

  lemma MergeKeeps(covered: seq<Interval>, pieces: seq<Interval>, x: Interval)
    requires pieces != [] && Separated(pieces) && SameCover(covered, pieces) && x.start <= x.end && StartsBefore(pieces, x.start)
    ensures Separated(MergeLast(pieces, x)) && SameCover(covered + [x], MergeLast(pieces, x)) && StartsBefore(MergeLast(pieces, x), x.start)
  {
    var last, before := pieces[|pieces| - 1], pieces[..|pieces| - 1];
    assert pieces == before + [last];
    SeparatedStep(before, last, x);
    CoverSteps(covered, before, last, x);
  }

  /** The pieces cover exactly what the intervals cover, and are separated. */
  lemma {:induction false} PiecesCover(ordered: seq<Interval>)
    requires StartsOrdered(ordered) && NonNegative(ordered)
    ensures Separated(Pieces(ordered)) && SameCover(ordered, Pieces(ordered))
    ensures ordered != [] ==> StartsBefore(Pieces(ordered), ordered[|ordered| - 1].start)
    decreases |ordered|
  {
    if |ordered| > 1 {
      var n := |ordered| - 1;
      PiecesCover(ordered[..n]);
      assert ordered[n - 1].start <= ordered[n].start;
      MergeKeeps(ordered[..n], Pieces(ordered[..n]), ordered[n]);
      assert ordered == ordered[..n] + [ordered[n]];
    }
  }

  // ----- the pieces, and so the gaps, depend on the covered points alone

  /** What is uncovered between two neighbours, and right behind the last piece. */
  lemma BehindPiece(pieces: seq<Interval>, x: real)
    requires Separated(pieces) && pieces != [] && pieces[0].end < x && (|pieces| > 1 ==> x < pieces[1].start)
    ensures !Covered(pieces, x)
  {
    forall i | 0 <= i < |pieces|
      ensures !Contains(pieces[i], x)
    {
      if i > 1 { assert pieces[1].end < pieces[i].start; }
    }
  }

  lemma FirstStart(a: seq<Interval>, b: seq<Interval>)
    requires Separated(a) && Separated(b) && SameCover(a, b) && a != []
    ensures b != [] && b[0].start <= a[0].start
  {
    assert Contains(a[0], a[0].start) && Covered(a, a[0].start);
    assert Covered(b, a[0].start);
    var i :| 0 <= i < |b| && Contains(b[i], a[0].start);
    if i > 0 { assert b[0].end < b[i].start; }
  }

  lemma FirstEnd(a: seq<Interval>, b: seq<Interval>)
    requires Separated(a) && Separated(b) && SameCover(a, b) && a != [] && b != [] && a[0].start == b[0].start
    ensures b[0].end <= a[0].end
  {
    if b[0].end > a[0].end {
      var bound := if |a| > 1 && a[1].start < b[0].end then a[1].start else b[0].end;
      var x := (a[0].end + bound) / 2.0;
      assert a[0].end < bound by { if |a| > 1 { assert a[0].end < a[1].start; } }
      assert Contains(b[0], x) && Covered(b, x) && Covered(a, x);
      BehindPiece(a, x);
      assert false;
    }
  }

  lemma RestCover(a: seq<Interval>, x: real)
    requires Separated(a) && a != []
    ensures Covered(a[1..], x) <==> Covered(a, x) && x > a[0].end
  {
    if i :| 0 <= i < |a[1..]| && Contains(a[1..][i], x) {
      assert Contains(a[i + 1], x) && a[0].end < a[i + 1].start;
    }
    if Covered(a, x) && x > a[0].end {
      var i :| 0 <= i < |a| && Contains(a[i], x);
      assert a[1..][i - 1] == a[i];
    }
  }

  /** Separated pieces are determined by the points they cover. */
  lemma {:induction false} PiecesUnique(a: seq<Interval>, b: seq<Interval>)
    requires Separated(a) && Separated(b) && SameCover(a, b)
    ensures a == b
    decreases |a|
  {
    if a != [] {
      FirstStart(a, b);
      FirstStart(b, a);
      FirstEnd(a, b);
      FirstEnd(b, a);
      forall x: real
        ensures Covered(a[1..], x) <==> Covered(b[1..], x)
      {
        RestCover(a, x);
        RestCover(b, x);
      }
      PiecesUnique(a[1..], b[1..]);
      assert a == [a[0]] + a[1..] && b == [b[0]] + b[1..];
    } else if b != [] {
      FirstStart(b, a);
    }
  }

  /** The gaps depend on nothing but the points covered: not on the order of the intervals, nor on how they overlap. */
  lemma GapsUnique(a: seq<Interval>, b: seq<Interval>)
    requires NonNegative(a) && NonNegative(b) && SameCover(a, b)
    ensures GapsOf(Pieces(Sorted(a))) == GapsOf(Pieces(Sorted(b)))
  {
    SortedCover(a);
    SortedCover(b);
    SortedOrdered(a);
    SortedOrdered(b);
    SortedNonNegative(a);
    SortedNonNegative(b);
    PiecesCover(Sorted(a));
    PiecesCover(Sorted(b));
    PiecesUnique(Pieces(Sorted(a)), Pieces(Sorted(b)));
  }

  lemma SortedCover(intervals: seq<Interval>)
    ensures SameCover(intervals, Sorted(intervals))
  {
    var s := Sorted(intervals);
    forall x: real
      ensures Covered(intervals, x) <==> Covered(s, x)
    {
      if i :| 0 <= i < |intervals| && Contains(intervals[i], x) {
        assert intervals[i] in multiset(intervals) && intervals[i] in multiset(s);
        var j :| 0 <= j < |s| && s[j] == intervals[i];
      }
      if j :| 0 <= j < |s| && Contains(s[j], x) {
        assert s[j] in multiset(s) && s[j] in multiset(intervals);
        var i :| 0 <= i < |intervals| && intervals[i] == s[j];
      }
    }
  }

  // ----- sums

  function Total(xs: seq<real>): real { if xs == [] then 0.0 else Total(xs[..|xs| - 1]) + xs[|xs| - 1] }

  function Measure(pieces: seq<Interval>): real {
    if pieces == [] then 0.0
    else Measure(pieces[..|pieces| - 1]) + (pieces[|pieces| - 1].end - pieces[|pieces| - 1].start)
  }

  /** The gaps make up the hull less what is covered. */
  lemma {:induction false} GapsTotal(pieces: seq<Interval>)
    requires pieces != []
    ensures Total(GapsOf(pieces)) == pieces[|pieces| - 1].end - pieces[0].start - Measure(pieces)
    decreases |pieces|
  {
    var n := |pieces| - 1;
    if n > 0 {
      GapsTotal(pieces[..n]);
      AppendedGap(pieces[..n], pieces[n]);
      assert pieces[..n] + [pieces[n]] == pieces;
      var g := GapsOf(pieces[..n]);
      assert (g + [pieces[n].start - pieces[n - 1].end])[..|g|] == g;
    }
  }

  /** Gap `i` is a maximal uncovered stretch: open between two covered points, with nothing covered inside. */
  lemma GapIsMaximal(pieces: seq<Interval>, i: nat, x: real)
    requires Separated(pieces) && i + 1 < |pieces|
    ensures Gap(pieces, i) > 0.0 && Covered(pieces, pieces[i].end) && Covered(pieces, pieces[i + 1].start)
    ensures pieces[i].end < x < pieces[i + 1].start ==> !Covered(pieces, x)
  {
    assert Contains(pieces[i], pieces[i].end) && Contains(pieces[i + 1], pieces[i + 1].start);
    if pieces[i].end < x < pieces[i + 1].start {
      forall k | 0 <= k < |pieces|
        ensures !Contains(pieces[k], x)
      {
        if k < i { assert pieces[k].end < pieces[i].start; }
        if k > i + 1 { assert pieces[i + 1].end < pieces[k].start; }
      }
    }
  }

  /** The pieces start where the first interval does and end where the last one does. */
  lemma HullOfPieces(intervals: seq<Interval>, pieces: seq<Interval>)
    requires NonNegative(intervals) && Separated(pieces) && SameCover(intervals, pieces) && pieces != []
    ensures forall x | x in intervals :: pieces[0].start <= x.start && x.end <= pieces[|pieces| - 1].end
    ensures Covered(intervals, pieces[0].start) && Covered(intervals, pieces[|pieces| - 1].end)
  {
    assert Contains(pieces[0], pieces[0].start) && Contains(pieces[|pieces| - 1], pieces[|pieces| - 1].end);
    assert Covered(pieces, pieces[0].start) && Covered(pieces, pieces[|pieces| - 1].end);
    forall x | x in intervals
      ensures pieces[0].start <= x.start && x.end <= pieces[|pieces| - 1].end
    {
      var i :| 0 <= i < |intervals| && intervals[i] == x;
      assert Contains(intervals[i], x.start) && Contains(intervals[i], x.end);
      assert Covered(pieces, x.start) && Covered(pieces, x.end);
      InsideHull(pieces, x.start);
      InsideHull(pieces, x.end);
    }
  }

  lemma InsideHull(pieces: seq<Interval>, x: real)
    requires Separated(pieces) && Covered(pieces, x)
    ensures pieces != [] && pieces[0].start <= x <= pieces[|pieces| - 1].end
  {
    var i :| 0 <= i < |pieces| && Contains(pieces[i], x);
  }

  /** Any input order: the merged gaps are those between the separated pieces the intervals cover; their number is
      the number of pieces less one and their sum the hull less the measure of the pieces. */
  lemma IdleGapsAreTheComplement(intervals: seq<Interval>)
    requires NonNegative(intervals) && intervals != []
    ensures var pieces := Pieces(Sorted(intervals));
            && pieces != [] && Separated(pieces) && SameCover(intervals, pieces)
            && (forall x | x in intervals :: pieces[0].start <= x.start && x.end <= pieces[|pieces| - 1].end)
            && Covered(intervals, pieces[0].start) && Covered(intervals, pieces[|pieces| - 1].end)
            && |GapsOf(pieces)| == |pieces| - 1
            && Total(GapsOf(pieces)) == pieces[|pieces| - 1].end - pieces[0].start - Measure(pieces)
  {
    SortedCover(intervals);
    SortedOrdered(intervals);
    SortedNonNegative(intervals);
    PiecesCover(Sorted(intervals));
    GapsTotal(Pieces(Sorted(intervals)));
    HullOfPieces(intervals, Pieces(Sorted(intervals)));
  }
}
