/** Ranges of structured layout (tables, figures, equations) that windows must not cut. */
module ProtectedRanges {
  import opened Text
  import opened Sorting

  datatype Range = Range(start: int, end: int)

  ghost predicate InAny(ranges: seq<Range>, pos: int) {
    exists r :: r in ranges && r.start <= pos < r.end
  }

  predicate IsValid(r: Range) { r.start >= 0 && r.end > r.start }

  function FilterValid(ranges: seq<Range>): (r: seq<Range>)
    ensures forall x :: x in r <==> x in ranges && IsValid(x)
  {
    if ranges == [] then []
    else (if IsValid(ranges[0]) then [ranges[0]] else []) + FilterValid(ranges[1..])
  }

  // ---- The sort by start ----

  predicate StartsFirst(a: Range, b: Range) { a.start <= b.start }

  ghost predicate Sorted(rs: seq<Range>) {
    forall i, j :: 0 <= i < j < |rs| ==> rs[i].start <= rs[j].start
  }

  function SortByStart(rs: seq<Range>): (s: seq<Range>)
    ensures multiset(s) == multiset(rs) && Sorted(s)
  {
    SortSorts(StartsFirst, rs);
    Sort(StartsFirst, rs)
  }

  // ---- mergeProtectedRanges ----

  function MergeOne(merged: seq<Range>, r: Range): seq<Range> {
    if merged == [] || r.start > merged[|merged| - 1].end then merged + [r]
    else
      var previous := merged[|merged| - 1];
      merged[..|merged| - 1] + [Range(previous.start, Max(previous.end, r.end))]
  }

  function MergeFrom(merged: seq<Range>, sorted: seq<Range>): seq<Range>
    decreases |sorted|
  {
    if sorted == [] then merged else MergeFrom(MergeOne(merged, sorted[0]), sorted[1..])
  }

  function MergedRanges(ranges: seq<Range>): seq<Range> {
    MergeFrom([], SortByStart(FilterValid(ranges)))
  }

  method MergeProtectedRanges(ranges: seq<Range>) returns (merged: seq<Range>)
    ensures merged == MergedRanges(ranges)
  {
    var sorted := SortByStart(FilterValid(ranges));
    merged := [];
    for i := 0 to |sorted|
      invariant MergeFrom(merged, sorted[i..]) == MergeFrom([], sorted)
    {
      var range := sorted[i];
      assert sorted[i..][1..] == sorted[i + 1..];
      if merged == [] || range.start > merged[|merged| - 1].end {
        merged := merged + [range];
      } else {
        var previous := merged[|merged| - 1];
        merged := merged[..|merged| - 1] + [Range(previous.start, Max(previous.end, range.end))];
      }
    }
  }

  /** Valid ranges in order that neither overlap nor touch. */
  ghost predicate Separated(rs: seq<Range>) {
    && (forall i :: 0 <= i < |rs| ==> IsValid(rs[i]))
    && (forall i, j :: 0 <= i < j < |rs| ==> rs[i].end < rs[j].start)
  }

  lemma MergeOneKeeps(merged: seq<Range>, r: Range)
    requires Separated(merged) && IsValid(r)
    requires merged != [] ==> merged[|merged| - 1].start <= r.start
    ensures var next := MergeOne(merged, r);
      && Separated(next)
      && next != [] && next[|next| - 1].start <= r.start
  {
  }

  lemma MergeOneCovers(merged: seq<Range>, r: Range, pos: int)
    requires IsValid(r)
    requires merged != [] ==> merged[|merged| - 1].start <= r.start
    ensures InAny(MergeOne(merged, r), pos) <==> InAny(merged, pos) || r.start <= pos < r.end
  {
    var next := MergeOne(merged, r);
    if merged == [] || r.start > merged[|merged| - 1].end {
      assert forall x :: x in next <==> x in merged || x == r;
      assert r in next;
    } else {
      var previous := merged[|merged| - 1];
      var last := next[|next| - 1];
      assert merged == merged[..|merged| - 1] + [previous];
      assert forall x :: x in next <==> x in merged[..|merged| - 1] || x == last;
      assert last in next && previous in merged;
    }
  }

  lemma {:induction false} MergeFromKeeps(merged: seq<Range>, sorted: seq<Range>)
    requires Separated(merged) && Sorted(sorted) && forall r :: r in sorted ==> IsValid(r)
    requires merged != [] && sorted != [] ==> merged[|merged| - 1].start <= sorted[0].start
    ensures Separated(MergeFrom(merged, sorted))
    ensures forall pos :: InAny(MergeFrom(merged, sorted), pos) <==> InAny(merged, pos) || InAny(sorted, pos)
    decreases |sorted|
  {
    if sorted != [] {
      var r := sorted[0];
      assert r in sorted;
      MergeOneKeeps(merged, r);
      MergeFromKeeps(MergeOne(merged, r), sorted[1..]);
      forall pos
        ensures InAny(MergeFrom(merged, sorted), pos) <==> InAny(merged, pos) || InAny(sorted, pos)
      {
        MergeOneCovers(merged, r, pos);
        assert sorted == [r] + sorted[1..];
        assert forall x :: x in sorted <==> x == r || x in sorted[1..];
      }
    } else {
      assert forall pos :: !InAny(sorted, pos);
    }
  }

  /** The merged ranges are in order, neither overlap nor touch, and cover exactly the positions of
      the valid input ranges. */
  lemma MergedRangesCorrect(ranges: seq<Range>)
    ensures Separated(MergedRanges(ranges))
    ensures forall pos :: InAny(MergedRanges(ranges), pos) <==> InAny(FilterValid(ranges), pos)
  {
    var valid := FilterValid(ranges);
    var sorted := SortByStart(valid);
    SameElements(sorted, valid);
    hide MergeFrom;
    MergeFromKeeps([], sorted);
    assert forall pos :: InAny(sorted, pos) <==> InAny(valid, pos);
  }

  /** A bound on every input range bounds every merged range. */
  lemma MergedRangesWithin(ranges: seq<Range>, n: int)
    requires forall r :: r in ranges ==> r.end <= n
    ensures forall r :: r in MergedRanges(ranges) ==> 0 <= r.start < r.end <= n
  {
    MergedRangesCorrect(ranges);
    var merged := MergedRanges(ranges);
    forall r | r in merged ensures 0 <= r.start < r.end <= n {
      var i :| 0 <= i < |merged| && merged[i] == r;
      assert IsValid(merged[i]);
      assert InAny(merged, r.end - 1);
    }
  }

  lemma SeparatedEnd(rs: seq<Range>, m: Range)
    requires Separated(rs) && m in rs
    ensures !InAny(rs, m.end)
  {
    var i :| 0 <= i < |rs| && rs[i] == m;
    forall x | x in rs ensures !(x.start <= m.end < x.end) {
      var j :| 0 <= j < |rs| && rs[j] == x;
    }
  }

  /** Each valid input range lies inside one merged range. */
  lemma InOneMergedRange(ranges: seq<Range>, r: Range) returns (m: Range)
    requires r in ranges && IsValid(r)
    ensures m in MergedRanges(ranges) && m.start <= r.start < r.end <= m.end
  {
    hide MergedRanges, FilterValid;
    var merged := MergedRanges(ranges);
    MergedRangesCorrect(ranges);
    assert forall pos :: r.start <= pos < r.end ==> InAny(FilterValid(ranges), pos);
    assert InAny(merged, r.start);
    m :| m in merged && m.start <= r.start < m.end;
    SeparatedEnd(merged, m);
  }

  /** No other valid range overlaps or touches this one. */
  predicate StandsAlone(ranges: seq<Range>, r: Range) {
    forall x :: x in ranges && IsValid(x) ==> x == r || x.end < r.start || r.end < x.start
  }

  lemma LoneEnds(ranges: seq<Range>, r: Range)
    requires r in ranges && IsValid(r) && StandsAlone(ranges, r)
    ensures !InAny(FilterValid(ranges), r.start - 1) && !InAny(FilterValid(ranges), r.end)
  {
    hide FilterValid;
  }

  /** A valid range that stands alone is a merged range of its own. */
  lemma LoneRangeIsMerged(ranges: seq<Range>, r: Range)
    requires r in ranges && IsValid(r) && StandsAlone(ranges, r)
    ensures r in MergedRanges(ranges)
  {
    hide MergedRanges, FilterValid, StandsAlone;
    var m := InOneMergedRange(ranges, r);
    MergedRangesCorrect(ranges);
    LoneEnds(ranges, r);
    assert m.start < r.start ==> InAny(MergedRanges(ranges), r.start - 1);
    assert r.end < m.end ==> InAny(MergedRanges(ranges), r.end);
  }

  lemma TwoInOrder(x: Range, y: Range)
    requires IsValid(x) && IsValid(y) && x.start <= y.start
    ensures SortByStart(FilterValid([x, y])) == [x, y]
  {
    assert [x, y][1..] == [y] && [y][1..] == [];
    assert FilterValid([y]) == [y];
    assert FilterValid([x, y]) == [x, y];
    assert Sort(StartsFirst, [y]) == [y];
    assert Sort(StartsFirst, [x, y]) == Insert(StartsFirst, x, [y]) == [x, y];
  }

  lemma MergeStep(merged: seq<Range>, r: Range, rest: seq<Range>)
    ensures MergeFrom(merged, [r] + rest) == MergeFrom(MergeOne(merged, r), rest)
    ensures MergeFrom(MergeOne(merged, r), []) == MergeOne(merged, r)
  {
    hide MergeOne;
    assert ([r] + rest)[1..] == rest;
  }

  lemma MergeOneTouching(a: nat, b: nat, c: nat)
    requires a < b < c
    ensures MergeOne([], Range(a, b)) == [Range(a, b)]
    ensures MergeOne([Range(a, b)], Range(b, c)) == [Range(a, c)]
  {
    assert [Range(a, b)][..0] == [];
  }

  /** Ranges that touch become one, which can be longer than a window although each of the two fits. */
  lemma TouchingRangesMerge(a: nat, b: nat, c: nat)
    requires a < b < c
    ensures MergedRanges([Range(a, b), Range(b, c)]) == [Range(a, c)]
  {
    hide SortByStart, FilterValid, MergeFrom, MergeOne;
    var x, y, none := Range(a, b), Range(b, c), [];
    TwoInOrder(x, y);
    MergeOneTouching(a, b, c);
    MergeStep(none, x, [y]);
    MergeStep([x], y, none);
    assert [x] + [y] == [x, y] && [y] + none == [y];
  }
}
