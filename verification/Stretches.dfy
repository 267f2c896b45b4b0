/** One list of stretches behind every way of cutting: the windows of a part of the body are its
    stretches, trimmed. */
module Stretches {
  import opened Text
  import opened ChunkPolicy
  import opened Windows
  import opened SeparatorWindows
  import opened TextWindows

  // ---- Spans of a part, at their place in the whole body ----

  function MoveSpan(s: Span, a: nat): Span { Span(a + s.start, a + s.end) }

  function Moved(spans: seq<Span>, a: nat): (r: seq<Span>)
    ensures |r| == |spans| && forall i :: 0 <= i < |r| ==> r[i] == MoveSpan(spans[i], a)
  {
    seq(|spans|, i requires 0 <= i < |spans| => MoveSpan(spans[i], a))
  }

  lemma MovedWithin(spans: seq<Span>, a: nat, b: nat, n: nat)
    requires a <= b <= n && SpansWithin(spans, b - a)
    ensures SpansWithin(Moved(spans, a), n)
  {
    forall s | s in Moved(spans, a) ensures s.start <= s.end <= n {
      var i :| 0 <= i < |spans| && s == MoveSpan(spans[i], a);
    }
  }

  lemma {:induction false} SkipSpaceMoved(t: TextRules, body: string, a: nat, b: nat, i: nat, j: nat)
    requires a <= b <= |body| && i <= j <= b - a
    ensures a + SkipSpace(t, body[a..b], i, j) == SkipSpace(t, body, a + i, a + j)
    decreases j - i
  {
    if i < j {
      assert body[a..b][i] == body[a + i];
      SkipSpaceMoved(t, body, a, b, i + 1, j);
    }
  }

  lemma {:induction false} SkipSpaceBackMoved(t: TextRules, body: string, a: nat, b: nat, i: nat, j: nat)
    requires a <= b <= |body| && i <= j <= b - a
    ensures a + SkipSpaceBack(t, body[a..b], i, j) == SkipSpaceBack(t, body, a + i, a + j)
    decreases j - i
  {
    if i < j {
      assert body[a..b][j - 1] == body[a + j - 1];
      SkipSpaceBackMoved(t, body, a, b, i, j - 1);
    }
  }

  /** Trimming does not depend on what lies around a span. */
  lemma TrimmedMoved(t: TextRules, p: ChunkingPolicy, body: string, a: nat, b: nat, s: Span)
    requires a <= b <= |body| && s.start <= s.end <= b - a
    ensures TrimmedSpan(t, p, body, MoveSpan(s, a)) == MoveSpan(TrimmedSpan(t, p, body[a..b], s), a)
  {
    SkipSpaceMoved(t, body, a, b, s.start, s.end);
    SkipSpaceBackMoved(t, body, a, b, SkipSpace(t, body[a..b], s.start, s.end), s.end);
  }

  lemma WindowOfMoved(t: TextRules, p: ChunkingPolicy, body: string, a: nat, b: nat, s: Span)
    requires a <= b <= |body| && s.start <= s.end <= b - a
    ensures WindowOf(t, p, body[a..b], s, a, false) == WindowOf(t, p, body, MoveSpan(s, a), 0, false)
  {
    hide TrimmedSpan, IsBlank;
    TrimmedMoved(t, p, body, a, b, s);
    var r := TrimmedSpan(t, p, body[a..b], s);
    SliceWithin(body, a, b, r.start, r.end);
  }

  lemma {:induction false} WindowsOfMoved(t: TextRules, p: ChunkingPolicy, body: string, a: nat, b: nat, spans: seq<Span>)
    requires a <= b <= |body| && SpansWithin(spans, b - a)
    ensures SpansWithin(Moved(spans, a), |body|)
    ensures WindowsOf(t, p, body[a..b], spans, a) == WindowsOf(t, p, body, Moved(spans, a), 0)
  {
    hide WindowOf;
    MovedWithin(spans, a, b, |body|);
    if spans != [] {
      WindowOfMoved(t, p, body, a, b, spans[0]);
      WindowsOfMoved(t, p, body, a, b, spans[1..]);
      assert Moved(spans, a)[1..] == Moved(spans[1..], a);
    }
  }

  // ---- The stretches ----

  /** A flushed span, cut again by fixed steps when what is left of it after trimming is too long. */
  function RecutOne(t: TextRules, p: ChunkingPolicy, body: string, s: Span): (spans: seq<Span>)
    requires Sized(p) && s.start <= s.end <= |body|
    ensures SpansWithin(spans, |body|)
  {
    var c := TrimmedSpan(t, p, body, s);
    if c.end - c.start > p.maxCharacters && !IsBlank(t, body[c.start..c.end]) then
      MovedWithin(CharacterSpans(p, c.end - c.start, 0), c.start, c.end, |body|);
      Moved(CharacterSpans(p, c.end - c.start, 0), c.start)
    else [s]
  }

  function Recut(t: TextRules, p: ChunkingPolicy, body: string, spans: seq<Span>): (r: seq<Span>)
    requires Sized(p) && SpansWithin(spans, |body|)
    ensures SpansWithin(r, |body|)
  {
    if spans == [] then [] else RecutOne(t, p, body, spans[0]) + Recut(t, p, body, spans[1..])
  }

  function SeparatorStretches(t: TextRules, p: ChunkingPolicy, body: string, a: nat, b: nat, separator: string): (r: seq<Span>)
    requires Sized(p) && a <= b <= |body| && separator != ""
    ensures SpansWithin(r, |body|)
  {
    SeparatorSpansChain(p, body[a..b], separator);
    MovedWithin(SeparatorSpans(p, body[a..b], separator), a, b, |body|);
    Recut(t, p, body, Moved(SeparatorSpans(p, body[a..b], separator), a))
  }

  /** Where body[a..b] is cut, before trimming. */
  function StretchesOf(t: TextRules, p: ChunkingPolicy, body: string, a: nat, b: nat): (r: seq<Span>)
    requires Sized(p) && a <= b <= |body|
    ensures SpansWithin(r, |body|)
  {
    if b - a <= p.maxCharacters then [Span(a, b)]
    else match p.boundaryStrategy
      case Line => SeparatorStretches(t, p, body, a, b, "\n")
      case Paragraph => SeparatorStretches(t, p, body, a, b, "\n\n")
      case _ =>
        MovedWithin(CharacterSpans(p, b - a, 0), a, b, |body|);
        Moved(CharacterSpans(p, b - a, 0), a)
  }

  lemma {:induction false} WindowsOfConcat(t: TextRules, p: ChunkingPolicy, body: string, xs: seq<Span>, ys: seq<Span>)
    requires SpansWithin(xs, |body|) && SpansWithin(ys, |body|)
    ensures SpansWithin(xs + ys, |body|)
    ensures WindowsOf(t, p, body, xs + ys, 0) == WindowsOf(t, p, body, xs, 0) + WindowsOf(t, p, body, ys, 0)
  {
    hide WindowOf;
    if xs == [] {
      assert xs + ys == ys;
    } else {
      assert (xs + ys)[1..] == xs[1..] + ys;
      WindowsOfConcat(t, p, body, xs[1..], ys);
      ConcatAssoc(WindowOf(t, p, body, xs[0], 0, false), WindowsOf(t, p, body, xs[1..], 0), WindowsOf(t, p, body, ys, 0));
    }
  }

  lemma OneWindow(t: TextRules, p: ChunkingPolicy, body: string, s: Span)
    requires s.start <= s.end <= |body|
    ensures WindowsOf(t, p, body, [s], 0) == WindowOf(t, p, body, s, 0, false)
  {
    hide WindowOf;
    assert [s][1..] == [];
  }

  /** The one window of a span that is not blank. */
  function Trimmed(t: TextRules, p: ChunkingPolicy, body: string, s: Span): TextWindow
    requires s.start <= s.end <= |body|
  {
    var c := TrimmedSpan(t, p, body, s);
    TextWindow(body[c.start..c.end], c.start, c.end, false)
  }

  lemma TrimmedIsWindow(t: TextRules, p: ChunkingPolicy, body: string, s: Span)
    requires s.start <= s.end <= |body|
    ensures var w := Trimmed(t, p, body, s);
      && WindowOf(t, p, body, s, 0, false) == (if IsBlank(t, w.text) then [] else [w])
      && s.start <= w.start <= w.end <= s.end && w.text == body[w.start..w.end]
  {
    hide TrimmedSpan, IsBlank;
  }

  lemma LongWindowRecut(t: TextRules, p: ChunkingPolicy, body: string, w: TextWindow)
    requires Sized(p) && w.start <= w.end <= |body| && w.text == body[w.start..w.end] && |w.text| > p.maxCharacters
    ensures var spans := CharacterSpans(p, w.end - w.start, 0);
      && SpansWithin(Moved(spans, w.start), |body|)
      && CutOne(t, p, w) == WindowsOf(t, p, body, Moved(spans, w.start), 0)
  {
    hide WindowsOf, CharacterSpans;
    WindowsOfMoved(t, p, body, w.start, w.end, CharacterSpans(p, |w.text|, 0));
  }

  lemma RecutOneMakes(t: TextRules, p: ChunkingPolicy, body: string, s: Span)
    requires Sized(p) && s.start <= s.end <= |body|
    ensures WindowsOf(t, p, body, RecutOne(t, p, body, s), 0) == CutOversized(t, p, WindowOf(t, p, body, s, 0, false))
  {
    hide TrimmedSpan, CharacterSpans, WindowsOf, IsBlank, WindowOf, CutOversized;
    var w := Trimmed(t, p, body, s);
    TrimmedIsWindow(t, p, body, s);
    OneWindow(t, p, body, s);
    OneCut(t, p, w);
    if !IsBlank(t, w.text) && |w.text| > p.maxCharacters {
      LongWindowRecut(t, p, body, w);
    }
  }

  lemma OneCut(t: TextRules, p: ChunkingPolicy, w: TextWindow)
    requires Sized(p)
    ensures CutOversized(t, p, [w]) == CutOne(t, p, w) && CutOversized(t, p, []) == []
  {
    assert [w][1..] == [];
    assert CutOversized(t, p, []) == [];
    hide CutOne;
  }

  lemma {:induction false} CutOversizedConcat(t: TextRules, p: ChunkingPolicy, us: seq<TextWindow>, vs: seq<TextWindow>)
    requires Sized(p)
    ensures CutOversized(t, p, us + vs) == CutOversized(t, p, us) + CutOversized(t, p, vs)
  {
    hide CutOne;
    if us == [] {
      assert us + vs == vs;
    } else {
      assert (us + vs)[1..] == us[1..] + vs;
      CutOversizedConcat(t, p, us[1..], vs);
      ConcatAssoc(CutOne(t, p, us[0]), CutOversized(t, p, us[1..]), CutOversized(t, p, vs));
    }
  }

  lemma {:induction false} RecutMakes(t: TextRules, p: ChunkingPolicy, body: string, spans: seq<Span>)
    requires Sized(p) && SpansWithin(spans, |body|)
    ensures WindowsOf(t, p, body, Recut(t, p, body, spans), 0) == CutOversized(t, p, WindowsOf(t, p, body, spans, 0))
  {
    hide RecutOne, WindowOf;
    if spans == [] {
      assert CutOversized(t, p, []) == [];
    } else {
      RecutOneMakes(t, p, body, spans[0]);
      RecutMakes(t, p, body, spans[1..]);
      WindowsOfConcat(t, p, body, RecutOne(t, p, body, spans[0]), Recut(t, p, body, spans[1..]));
      CutOversizedConcat(t, p, WindowOf(t, p, body, spans[0], 0, false), WindowsOf(t, p, body, spans[1..], 0));
    }
  }

  lemma ShiftAsOffset(t: TextRules, p: ChunkingPolicy, body: string, a: nat, b: nat, spans: seq<Span>)
    requires a <= b <= |body| && SpansWithin(spans, b - a)
    ensures SpansWithin(Moved(spans, a), |body|)
    ensures ShiftAll(WindowsOf(t, p, body[a..b], spans, 0), a) == WindowsOf(t, p, body, Moved(spans, a), 0)
  {
    hide WindowsOf;
    WindowsOfShift(t, p, body[a..b], spans, a);
    WindowsOfMoved(t, p, body, a, b, spans);
  }

  lemma {:induction false} CutOversizedShift(t: TextRules, p: ChunkingPolicy, ws: seq<TextWindow>, a: nat)
    requires Sized(p)
    ensures ShiftAll(CutOversized(t, p, ws), a) == CutOversized(t, p, ShiftAll(ws, a))
  {
    if ws != [] {
      CutOneShift(t, p, ws[0], a);
      CutOversizedShift(t, p, ws[1..], a);
      ShiftAllConcat(CutOne(t, p, ws[0]), CutOversized(t, p, ws[1..]), a);
      assert ShiftAll(ws, a)[1..] == ShiftAll(ws[1..], a);
      hide CutOne;
    }
  }

  lemma CutOneShift(t: TextRules, p: ChunkingPolicy, w: TextWindow, a: nat)
    requires Sized(p)
    ensures ShiftAll(CutOne(t, p, w), a) == CutOne(t, p, Shift(w, a))
  {
    hide WindowsOf, CharacterSpans;
    if |w.text| > p.maxCharacters {
      var spans := CharacterSpans(p, |w.text|, 0);
      WindowsOfShift(t, p, w.text, spans, w.start);
      WindowsOfShift(t, p, w.text, spans, w.start + a);
      ShiftTwice(WindowsOf(t, p, w.text, spans, 0), w.start, a);
    }
  }

  lemma ShiftTwice(ws: seq<TextWindow>, a: nat, b: nat)
    ensures ShiftAll(ShiftAll(ws, a), b) == ShiftAll(ws, a + b)
  {
  }

  lemma SeparatorStretchesMake(t: TextRules, p: ChunkingPolicy, body: string, a: nat, b: nat, separator: string)
    requires Sized(p) && a <= b <= |body| && separator != ""
    ensures ShiftAll(SeparatorWindowsOf(t, p, body[a..b], separator), a)
         == WindowsOf(t, p, body, SeparatorStretches(t, p, body, a, b, separator), 0)
  {
    hide WindowsOf, CutOversized, Recut, SeparatorSpans;
    SeparatorSpansChain(p, body[a..b], separator);
    var spans := SeparatorSpans(p, body[a..b], separator);
    ShiftAsOffset(t, p, body, a, b, spans);
    CutOversizedShift(t, p, WindowsOf(t, p, body[a..b], spans, 0), a);
    RecutMakes(t, p, body, Moved(spans, a));
  }

  /** Under every boundary strategy the windows of a part are made from its stretches, one by one. */
  lemma StretchesMakeWindows(t: TextRules, p: ChunkingPolicy, body: string, a: nat, b: nat)
    requires Sized(p) && a <= b <= |body|
    ensures PartWindows(t, p, body, a, b) == WindowsOf(t, p, body, StretchesOf(t, p, body, a, b), 0)
  {
    hide WindowsOf, SeparatorStretches, SeparatorWindowsOf, CharacterSpans, WindowOf;
    if b - a <= p.maxCharacters {
      var whole := Span(0, b - a);
      WindowOfShift(t, p, body[a..b], whole, a);
      WindowOfMoved(t, p, body, a, b, whole);
      OneWindow(t, p, body, Span(a, b));
    } else {
      SeparatorStretchesMake(t, p, body, a, b, "\n");
      SeparatorStretchesMake(t, p, body, a, b, "\n\n");
      ShiftAsOffset(t, p, body, a, b, CharacterSpans(p, b - a, 0));
    }
  }

  lemma {:induction false} WindowOfStretch(t: TextRules, p: ChunkingPolicy, body: string, spans: seq<Span>, w: TextWindow)
    requires SpansWithin(spans, |body|)
    ensures w in WindowsOf(t, p, body, spans, 0) <==> exists s :: s in spans && w in WindowOf(t, p, body, s, 0, false)
  {
    hide WindowOf;
    if spans != [] {
      WindowOfStretch(t, p, body, spans[1..], w);
      assert spans == [spans[0]] + spans[1..];
    }
  }
}
