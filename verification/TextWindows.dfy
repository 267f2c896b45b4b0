/** From a body and its protected ranges to raw windows, before furniture is dropped. */
module TextWindows {
  import opened Text
  import opened ChunkPolicy
  import opened Windows
  import opened SeparatorWindows
  import opened WindowProofs
  import opened ProtectedRanges

  // ---- Text without protected ranges ----

  /** Windows of a whole text under the boundary strategy. */
  function StrategyWindows(t: TextRules, p: ChunkingPolicy, body: string): seq<TextWindow>
    requires Sized(p)
  {
    if |body| <= p.maxCharacters then WindowOf(t, p, body, Span(0, |body|), 0, false)
    else match p.boundaryStrategy
      case Line => SeparatorWindowsOf(t, p, body, "\n")
      case Paragraph => SeparatorWindowsOf(t, p, body, "\n\n")
      case _ => CharacterWindowsOf(t, p, body, 0)
  }

  method CreateUnprotectedTextWindows(t: TextRules, p: ChunkingPolicy, body: string, offset: nat)
    returns (windows: seq<TextWindow>)
    requires Sized(p)
    ensures windows == ShiftAll(StrategyWindows(t, p, body), offset)
  {
    hide WindowOf, WindowsOf, SeparatorWindowsOf, CharacterWindowsFrom;
    if |body| <= p.maxCharacters {
      windows := MakeWindow(t, p, body, 0, |body|, offset, false);
      WindowOfShift(t, p, body, Span(0, |body|), offset);
    } else if p.boundaryStrategy == Line {
      var cut := WindowsFromSeparator(t, p, body, "\n");
      windows := ShiftAll(cut, offset);
    } else if p.boundaryStrategy == Paragraph {
      var cut := WindowsFromSeparator(t, p, body, "\n\n");
      windows := ShiftAll(cut, offset);
    } else {
      windows := CharacterWindows(t, p, body, offset);
      CharacterWindowsOfShift(t, p, body, offset);
    }
  }

  lemma CharacterWindowsOfShift(t: TextRules, p: ChunkingPolicy, body: string, offset: nat)
    requires Sized(p)
    ensures CharacterWindowsOf(t, p, body, offset) == ShiftAll(CharacterWindowsOf(t, p, body, 0), offset)
  {
    hide WindowsOf;
    WindowsOfShift(t, p, body, CharacterSpans(p, |body|, 0), offset);
  }

  /** Under every boundary strategy no text is missed and no window exceeds the limit. */
  lemma StrategyWindowsGood(t: TextRules, p: ChunkingPolicy, body: string)
    requires Sized(p)
    ensures var ws := StrategyWindows(t, p, body);
      Good(t, p, body, ws, 0, |body|) && AtMost(ws, p.maxCharacters)
  {
    hide WindowOf, WindowsOf, SeparatorWindowsOf, CharacterWindowsOf, Good, AtMost;
    if |body| <= p.maxCharacters {
      WindowOfGood(t, p, body, Span(0, |body|), false);
      ShortSpanAtMost(t, p, body, Span(0, |body|), false);
    } else {
      SeparatorWindowsGood(t, p, body, "\n");
      SeparatorWindowsGood(t, p, body, "\n\n");
      CharacterWindowsGood(t, p, body);
    }
  }

  lemma ShortSpanAtMost(t: TextRules, p: ChunkingPolicy, body: string, s: Span, isProtected: bool)
    requires s.start <= s.end <= |body| && s.end - s.start <= p.maxCharacters
    ensures AtMost(WindowOf(t, p, body, s, 0, isProtected), p.maxCharacters)
  {
  }

  /** The windows of body[a..b], at their place in the whole body. */
  function PartWindows(t: TextRules, p: ChunkingPolicy, body: string, a: nat, b: nat): seq<TextWindow>
    requires Sized(p) && a <= b <= |body|
  {
    ShiftAll(StrategyWindows(t, p, body[a..b]), a)
  }

  lemma PartWindowsGood(t: TextRules, p: ChunkingPolicy, body: string, a: nat, b: nat)
    requires Sized(p) && a <= b <= |body|
    ensures var ws := PartWindows(t, p, body, a, b);
      Good(t, p, body, ws, a, b) && AtMost(ws, p.maxCharacters)
  {
    hide StrategyWindows, Good;
    StrategyWindowsGood(t, p, body[a..b]);
    GoodShift(t, p, body, StrategyWindows(t, p, body[a..b]), a, b);
  }

  // ---- Text with protected ranges ----

  function MarkProtected(ws: seq<TextWindow>): (r: seq<TextWindow>)
    ensures |r| == |ws| && forall i :: 0 <= i < |ws| ==> r[i] == ws[i].(isProtected := true)
  {
    seq(|ws|, i requires 0 <= i < |ws| => ws[i].(isProtected := true))
  }

  lemma MarkProtectedGood(t: TextRules, p: ChunkingPolicy, body: string, ws: seq<TextWindow>, a: nat, b: nat)
    requires b <= |body| && Good(t, p, body, ws, a, b)
    ensures Good(t, p, body, MarkProtected(ws), a, b)
  {
    var out := MarkProtected(ws);
    hide Placed;
    forall i | 0 <= i < |out| ensures Placed(t, p, body, out[i]) && a <= out[i].start && out[i].end <= b {
      PlacedIgnoresProtection(t, p, body, ws[i], true);
    }
    forall pos | a <= pos < b && !t.isSpace(body[pos]) ensures InSome(out, pos) {
      assert InSome(ws, pos);
      var i :| 0 <= i < |ws| && ws[i].start <= pos < ws[i].end;
      assert out[i].start <= pos < out[i].end;
    }
  }

  /** One window when the range fits, otherwise the ordinary cuts, all marked as protected. */
  function ProtectedWindows(t: TextRules, p: ChunkingPolicy, body: string, r: Range): seq<TextWindow>
    requires Sized(p) && 0 <= r.start <= r.end <= |body|
  {
    if r.end - r.start <= p.maxCharacters then WindowOf(t, p, body, Span(r.start, r.end), 0, true)
    else MarkProtected(PartWindows(t, p, body, r.start, r.end))
  }

  method ProtectedTextWindows(t: TextRules, p: ChunkingPolicy, body: string, r: Range)
    returns (windows: seq<TextWindow>)
    requires Sized(p) && 0 <= r.start <= r.end <= |body|
    ensures windows == ProtectedWindows(t, p, body, r)
  {
    hide WindowOf, StrategyWindows;
    if r.end - r.start <= p.maxCharacters {
      windows := MakeWindow(t, p, body, r.start, r.end, 0, true);
    } else {
      var cut := CreateUnprotectedTextWindows(t, p, body[r.start..r.end], r.start);
      windows := MarkProtected(cut);
    }
  }

  lemma ProtectedWindowsGood(t: TextRules, p: ChunkingPolicy, body: string, r: Range)
    requires Sized(p) && 0 <= r.start <= r.end <= |body|
    ensures var ws := ProtectedWindows(t, p, body, r);
      Good(t, p, body, ws, r.start, r.end) && AtMost(ws, p.maxCharacters)
  {
    hide WindowOf, PartWindows, Good;
    if r.end - r.start <= p.maxCharacters {
      WindowOfGood(t, p, body, Span(r.start, r.end), true);
      ShortSpanAtMost(t, p, body, Span(r.start, r.end), true);
    } else {
      PartWindowsGood(t, p, body, r.start, r.end);
      MarkProtectedGood(t, p, body, PartWindows(t, p, body, r.start, r.end), r.start, r.end);
    }
  }

  /** Ranges in order, inside body[cursor..]. */
  ghost predicate RangesFrom(ranges: seq<Range>, cursor: nat, n: nat)
    decreases |ranges|
  {
    if ranges == [] then cursor <= n
    else cursor <= ranges[0].start < ranges[0].end <= n && RangesFrom(ranges[1..], ranges[0].end, n)
  }

  lemma {:induction false} SeparatedRangesFrom(ranges: seq<Range>, cursor: nat, n: nat)
    requires Separated(ranges) && cursor <= n
    requires ranges != [] ==> cursor <= ranges[0].start
    requires forall r :: r in ranges ==> r.end <= n
    ensures RangesFrom(ranges, cursor, n)
  {
    if ranges != [] {
      assert ranges[0] in ranges && IsValid(ranges[0]);
      SeparatedRangesFrom(ranges[1..], ranges[0].end, n);
    }
  }

  function GapWindows(t: TextRules, p: ChunkingPolicy, body: string, a: nat, b: nat): seq<TextWindow>
    requires Sized(p) && a <= b <= |body|
  {
    if a < b then PartWindows(t, p, body, a, b) else []
  }

  lemma GapWindowsGood(t: TextRules, p: ChunkingPolicy, body: string, a: nat, b: nat)
    requires Sized(p) && a <= b <= |body|
    ensures var ws := GapWindows(t, p, body, a, b);
      Good(t, p, body, ws, a, b) && AtMost(ws, p.maxCharacters)
  {
    hide PartWindows;
    if a < b {
      hide Good, AtMost;
      PartWindowsGood(t, p, body, a, b);
    }
  }

  function RangedWindows(t: TextRules, p: ChunkingPolicy, body: string, ranges: seq<Range>, cursor: nat): seq<TextWindow>
    requires Sized(p) && RangesFrom(ranges, cursor, |body|)
    decreases |ranges|
  {
    if ranges == [] then GapWindows(t, p, body, cursor, |body|)
    else
      var r := ranges[0];
      GapWindows(t, p, body, cursor, r.start)
      + (ProtectedWindows(t, p, body, r) + RangedWindows(t, p, body, ranges[1..], r.end))
  }

  method WindowsWithProtectedRanges(t: TextRules, p: ChunkingPolicy, body: string, ranges: seq<Range>)
    returns (windows: seq<TextWindow>)
    requires Sized(p) && RangesFrom(ranges, 0, |body|)
    ensures windows == RangedWindows(t, p, body, ranges, 0)
  {
    hide RangedWindows, ProtectedWindows, StrategyWindows;
    windows := [];
    var cursor: nat := 0;
    for k := 0 to |ranges|
      invariant RangesFrom(ranges[k..], cursor, |body|)
      invariant windows + RangedWindows(t, p, body, ranges[k..], cursor) == RangedWindows(t, p, body, ranges, 0)
    {
      var range := ranges[k];
      RangedStep(t, p, body, ranges, k, cursor);
      ghost var before := windows;
      ghost var rest := RangedWindows(t, p, body, ranges[k + 1..], range.end);
      if cursor < range.start {
        var gap := CreateUnprotectedTextWindows(t, p, body[cursor..range.start], cursor);
        windows := windows + gap;
      }
      var kept := ProtectedTextWindows(t, p, body, range);
      ConcatAssoc(before, GapWindows(t, p, body, cursor, range.start), kept + rest);
      ConcatAssoc(windows, kept, rest);
      windows := windows + kept;
      cursor := range.end;
    }
    RangedEnd(t, p, body, ranges[|ranges|..], cursor);
    if cursor < |body| {
      var gap := CreateUnprotectedTextWindows(t, p, body[cursor..|body|], cursor);
      windows := windows + gap;
    }
  }

  lemma RangedStep(t: TextRules, p: ChunkingPolicy, body: string, ranges: seq<Range>, k: nat, cursor: nat)
    requires Sized(p) && k < |ranges| && RangesFrom(ranges[k..], cursor, |body|)
    ensures var r := ranges[k];
      && cursor <= r.start < r.end <= |body|
      && RangesFrom(ranges[k + 1..], r.end, |body|)
      && RangedWindows(t, p, body, ranges[k..], cursor)
         == GapWindows(t, p, body, cursor, r.start)
          + (ProtectedWindows(t, p, body, r) + RangedWindows(t, p, body, ranges[k + 1..], r.end))
  {
    hide ProtectedWindows, GapWindows;
    assert ranges[k..][1..] == ranges[k + 1..];
  }

  lemma RangedEnd(t: TextRules, p: ChunkingPolicy, body: string, ranges: seq<Range>, cursor: nat)
    requires Sized(p) && ranges == [] && RangesFrom(ranges, cursor, |body|)
    ensures RangedWindows(t, p, body, ranges, cursor) == GapWindows(t, p, body, cursor, |body|)
  {
  }

  lemma {:induction false} RangedWindowsGood(t: TextRules, p: ChunkingPolicy, body: string, ranges: seq<Range>, cursor: nat)
    requires Sized(p) && RangesFrom(ranges, cursor, |body|)
    ensures var ws := RangedWindows(t, p, body, ranges, cursor);
      Good(t, p, body, ws, cursor, |body|) && AtMost(ws, p.maxCharacters)
    decreases |ranges|
  {
    hide ProtectedWindows, GapWindows, Good, AtMost;
    if ranges == [] {
      GapWindowsGood(t, p, body, cursor, |body|);
    } else {
      var r := ranges[0];
      var gap := GapWindows(t, p, body, cursor, r.start);
      var kept := ProtectedWindows(t, p, body, r);
      var rest := RangedWindows(t, p, body, ranges[1..], r.end);
      GapWindowsGood(t, p, body, cursor, r.start);
      ProtectedWindowsGood(t, p, body, r);
      RangedWindowsGood(t, p, body, ranges[1..], r.end);
      GoodConcat(t, p, body, kept, rest, r.start, r.end, |body|);
      GoodConcat(t, p, body, gap, kept + rest, cursor, r.start, |body|);
      AtMostConcat(kept, rest, p.maxCharacters);
      AtMostConcat(gap, kept + rest, p.maxCharacters);
    }
  }

  // ---- Protected text is not cut ----

  /** The window holds all of the range's text, or lies wholly before or after the range. */
  ghost predicate Respects(t: TextRules, body: string, w: TextWindow, r: Range)
    requires 0 <= r.start <= r.end <= |body|
  {
    || w.end <= r.start
    || r.end <= w.start
    || forall pos :: r.start <= pos < r.end && !t.isSpace(body[pos]) ==> w.start <= pos < w.end
  }

  ghost predicate AllRespect(t: TextRules, body: string, ws: seq<TextWindow>, r: Range)
    requires 0 <= r.start <= r.end <= |body|
  {
    forall i :: 0 <= i < |ws| ==> Respects(t, body, ws[i], r)
  }

  lemma AllRespectConcat(t: TextRules, body: string, us: seq<TextWindow>, vs: seq<TextWindow>, r: Range)
    requires 0 <= r.start <= r.end <= |body| && AllRespect(t, body, us, r) && AllRespect(t, body, vs, r)
    ensures AllRespect(t, body, us + vs, r)
  {
    hide Respects;
  }

  lemma OutsideRespects(t: TextRules, p: ChunkingPolicy, body: string, ws: seq<TextWindow>, a: nat, b: nat, r: Range)
    requires 0 <= r.start <= r.end <= |body| && b <= |body| && Good(t, p, body, ws, a, b)
    requires b <= r.start || r.end <= a
    ensures AllRespect(t, body, ws, r)
  {
    hide Placed, Covers;
  }

  lemma OwnWindowRespects(t: TextRules, p: ChunkingPolicy, body: string, r: Range)
    requires Sized(p) && 0 <= r.start <= r.end <= |body| && r.end - r.start <= p.maxCharacters
    ensures AllRespect(t, body, ProtectedWindows(t, p, body, r), r)
  {
    hide WindowOf, Placed;
    var ws := ProtectedWindows(t, p, body, r);
    WindowOfGood(t, p, body, Span(r.start, r.end), true);
    forall i | 0 <= i < |ws| ensures Respects(t, body, ws[i], r) {
      forall pos | r.start <= pos < r.end && !t.isSpace(body[pos]) ensures ws[i].start <= pos < ws[i].end {
        assert InSome(ws, pos);
      }
    }
  }

  /** Every raw window respects every protected range that fits in one window. */
  lemma {:induction false} RangedWindowsRespect(t: TextRules, p: ChunkingPolicy, body: string, ranges: seq<Range>, cursor: nat, r: Range)
    requires Sized(p) && RangesFrom(ranges, cursor, |body|)
    requires 0 <= r.start <= r.end <= |body| && r.end - r.start <= p.maxCharacters
    requires r in ranges || r.end <= cursor
    ensures AllRespect(t, body, RangedWindows(t, p, body, ranges, cursor), r)
    decreases |ranges|
  {
    hide ProtectedWindows, GapWindows, Good, AllRespect;
    if ranges == [] {
      GapWindowsGood(t, p, body, cursor, |body|);
      OutsideRespects(t, p, body, GapWindows(t, p, body, cursor, |body|), cursor, |body|, r);
    } else {
      var head := ranges[0];
      var gap := GapWindows(t, p, body, cursor, head.start);
      var kept := ProtectedWindows(t, p, body, head);
      var rest := RangedWindows(t, p, body, ranges[1..], head.end);
      GapWindowsGood(t, p, body, cursor, head.start);
      ProtectedWindowsGood(t, p, body, head);
      if r in ranges[1..] {
        RangesFromBound(ranges[1..], head.end, |body|, r);
      }
      OutsideRespects(t, p, body, gap, cursor, head.start, r);
      if r == head {
        OwnWindowRespects(t, p, body, r);
      } else {
        assert ranges == [head] + ranges[1..];
        OutsideRespects(t, p, body, kept, head.start, head.end, r);
      }
      RangedWindowsRespect(t, p, body, ranges[1..], head.end, r);
      AllRespectConcat(t, body, kept, rest, r);
      AllRespectConcat(t, body, gap, kept + rest, r);
    }
  }

  lemma {:induction false} RangesFromBound(ranges: seq<Range>, cursor: nat, n: nat, r: Range)
    requires RangesFrom(ranges, cursor, n) && r in ranges
    ensures cursor <= r.start < r.end <= n
  {
    if r != ranges[0] {
      assert ranges == [ranges[0]] + ranges[1..];
      RangesFromBound(ranges[1..], ranges[0].end, n, r);
    }
  }
}
