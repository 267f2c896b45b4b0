/** Cutting text into windows: trimming, fixed steps and separators. */
module Windows {
  import opened Text
  import opened ChunkPolicy

  datatype TextWindow = TextWindow(text: string, start: nat, end: nat, isProtected: bool)

  /** A half-open stretch of text before trimming. */
  datatype Span = Span(start: nat, end: nat)

  // ---- What a list of windows over body[a..b] must satisfy ----

  /** The window records exactly the text at its offsets, is not blank and, when whitespace is not
      preserved, neither starts nor ends with whitespace. */
  ghost predicate Placed(t: TextRules, p: ChunkingPolicy, body: string, w: TextWindow) {
    && w.start < w.end <= |body|
    && w.text == body[w.start..w.end]
    && !IsBlank(t, w.text)
    && (!p.preserveWhitespace ==> !t.isSpace(body[w.start]) && !t.isSpace(body[w.end - 1]))
  }

  ghost predicate Inside(t: TextRules, p: ChunkingPolicy, body: string, ws: seq<TextWindow>, a: int, b: int) {
    forall i :: 0 <= i < |ws| ==> Placed(t, p, body, ws[i]) && a <= ws[i].start && ws[i].end <= b
  }

  /** Windows appear in document order; their starts may repeat. */
  ghost predicate Ordered(ws: seq<TextWindow>) {
    forall i, j :: 0 <= i < j < |ws| ==> ws[i].start <= ws[j].start
  }

  ghost predicate InSome(ws: seq<TextWindow>, pos: int) {
    exists i :: 0 <= i < |ws| && ws[i].start <= pos < ws[i].end
  }

  /** No position of body[a..b] that carries text is missed. */
  ghost predicate Covers(t: TextRules, body: string, ws: seq<TextWindow>, a: nat, b: nat)
    requires b <= |body|
  {
    forall pos :: a <= pos < b && !t.isSpace(body[pos]) ==> InSome(ws, pos)
  }

  ghost predicate AtMost(ws: seq<TextWindow>, limit: int) {
    forall i :: 0 <= i < |ws| ==> |ws[i].text| <= limit
  }

  ghost predicate Good(t: TextRules, p: ChunkingPolicy, body: string, ws: seq<TextWindow>, a: nat, b: nat)
    requires b <= |body|
  {
    Inside(t, p, body, ws, a, b) && Ordered(ws) && Covers(t, body, ws, a, b)
  }

  lemma CoversJoin(t: TextRules, body: string, us: seq<TextWindow>, vs: seq<TextWindow>, a: nat, b0: nat, b: nat, c: nat)
    requires b0 <= b <= c <= |body|
    requires Covers(t, body, us, a, b) && Covers(t, body, vs, b0, c)
    ensures Covers(t, body, us + vs, a, c)
  {
    forall pos | a <= pos < c && !t.isSpace(body[pos]) ensures InSome(us + vs, pos) {
      InSomeConcat(us, vs, pos);
      if pos < b {
        assert InSome(us, pos);
      } else {
        assert InSome(vs, pos);
      }
    }
  }

  lemma InSomeConcat(us: seq<TextWindow>, vs: seq<TextWindow>, pos: int)
    ensures InSome(us + vs, pos) <==> InSome(us, pos) || InSome(vs, pos)
  {
    var ws := us + vs;
    if InSome(us, pos) {
      var i :| 0 <= i < |us| && us[i].start <= pos < us[i].end;
      assert ws[i] == us[i];
    }
    if InSome(vs, pos) {
      var i :| 0 <= i < |vs| && vs[i].start <= pos < vs[i].end;
      assert ws[|us| + i] == vs[i];
    }
    if InSome(ws, pos) {
      var i :| 0 <= i < |ws| && ws[i].start <= pos < ws[i].end;
      assert if i < |us| then ws[i] == us[i] else ws[i] == vs[i - |us|];
    }
  }

  lemma InsideConcat(t: TextRules, p: ChunkingPolicy, body: string, us: seq<TextWindow>, vs: seq<TextWindow>, a: int, b: int)
    requires Inside(t, p, body, us, a, b) && Inside(t, p, body, vs, a, b)
    ensures Inside(t, p, body, us + vs, a, b)
  {
    var ws := us + vs;
    forall i | 0 <= i < |ws|
      ensures Placed(t, p, body, ws[i]) && a <= ws[i].start && ws[i].end <= b
    {
      assert if i < |us| then ws[i] == us[i] else ws[i] == vs[i - |us|];
    }
  }

  lemma InsideWiden(t: TextRules, p: ChunkingPolicy, body: string, ws: seq<TextWindow>, a: int, b: int, lo: int, hi: int)
    requires lo <= a && b <= hi && Inside(t, p, body, ws, a, b)
    ensures Inside(t, p, body, ws, lo, hi)
  {
  }

  lemma OrderedConcat(us: seq<TextWindow>, vs: seq<TextWindow>)
    requires Ordered(us) && Ordered(vs)
    requires forall i, j :: 0 <= i < |us| && 0 <= j < |vs| ==> us[i].start <= vs[j].start
    ensures Ordered(us + vs)
  {
  }

  /** Good lists over overlapping stretches join when no window of the first starts after one of
      the second. */
  lemma GoodJoin(t: TextRules, p: ChunkingPolicy, body: string,
                 us: seq<TextWindow>, vs: seq<TextWindow>, a: nat, b0: nat, b: nat, c: nat)
    requires a <= b0 <= b <= c <= |body|
    requires Good(t, p, body, us, a, b) && Good(t, p, body, vs, b0, c)
    requires forall i, j :: 0 <= i < |us| && 0 <= j < |vs| ==> us[i].start <= vs[j].start
    ensures Good(t, p, body, us + vs, a, c)
  {
    CoversJoin(t, body, us, vs, a, b0, b, c);
    InsideWiden(t, p, body, us, a, b, a, c);
    InsideWiden(t, p, body, vs, b0, c, a, c);
    InsideConcat(t, p, body, us, vs, a, c);
    OrderedConcat(us, vs);
  }

  /** Good lists over adjacent stretches always join. */
  lemma GoodConcat(t: TextRules, p: ChunkingPolicy, body: string,
                   us: seq<TextWindow>, vs: seq<TextWindow>, a: nat, b: nat, c: nat)
    requires a <= b <= c <= |body|
    requires Good(t, p, body, us, a, b) && Good(t, p, body, vs, b, c)
    ensures Good(t, p, body, us + vs, a, c)
  {
    forall i, j | 0 <= i < |us| && 0 <= j < |vs| ensures us[i].start <= vs[j].start {
      assert Placed(t, p, body, us[i]);
    }
    GoodJoin(t, p, body, us, vs, a, b, b, c);
  }

  function Shift(w: TextWindow, offset: nat): TextWindow {
    w.(start := w.start + offset, end := w.end + offset)
  }

  /** The map(offsetWindow(offset)) of the chunker. */
  function ShiftAll(ws: seq<TextWindow>, offset: nat): (r: seq<TextWindow>)
    ensures |r| == |ws| && forall i :: 0 <= i < |ws| ==> r[i] == Shift(ws[i], offset)
  {
    seq(|ws|, i requires 0 <= i < |ws| => Shift(ws[i], offset))
  }

  lemma PlacedShift(t: TextRules, p: ChunkingPolicy, body: string, w: TextWindow, a: nat, b: nat)
    requires a <= b <= |body| && Placed(t, p, body[a..b], w)
    ensures Placed(t, p, body, Shift(w, a))
  {
    var part := body[a..b];
    assert part[w.start..w.end] == body[w.start + a..w.end + a];
    assert part[w.start] == body[w.start + a] && part[w.end - 1] == body[w.end + a - 1];
  }

  /** Windows cut from a slice are, once shifted, windows of the whole text. */
  lemma GoodShift(t: TextRules, p: ChunkingPolicy, body: string, ws: seq<TextWindow>, a: nat, b: nat)
    requires a <= b <= |body|
    requires Good(t, p, body[a..b], ws, 0, b - a)
    ensures Good(t, p, body, ShiftAll(ws, a), a, b)
  {
    var out := ShiftAll(ws, a);
    forall i | 0 <= i < |out|
      ensures Placed(t, p, body, out[i]) && a <= out[i].start && out[i].end <= b
    {
      PlacedShift(t, p, body, ws[i], a, b);
    }
    CoversShift(t, body, ws, a, b);
  }

  lemma CoversShift(t: TextRules, body: string, ws: seq<TextWindow>, a: nat, b: nat)
    requires a <= b <= |body|
    requires Covers(t, body[a..b], ws, 0, b - a)
    ensures Covers(t, body, ShiftAll(ws, a), a, b)
  {
    var out := ShiftAll(ws, a);
    forall pos | a <= pos < b && !t.isSpace(body[pos]) ensures InSome(out, pos) {
      assert body[a..b][pos - a] == body[pos];
      assert InSome(ws, pos - a);
      var i :| 0 <= i < |ws| && ws[i].start <= pos - a < ws[i].end;
      assert out[i].start <= pos < out[i].end;
    }
  }

  // ---- makeWindow ----

  /** Where a span really starts and ends once its whitespace is trimmed. */
  function TrimmedSpan(t: TextRules, p: ChunkingPolicy, body: string, s: Span): (r: Span)
    requires s.start <= s.end <= |body|
    ensures s.start <= r.start <= r.end <= s.end
  {
    if p.preserveWhitespace then s
    else
      var start := SkipSpace(t, body, s.start, s.end);
      Span(start, SkipSpaceBack(t, body, start, s.end))
  }

  function WindowOf(t: TextRules, p: ChunkingPolicy, body: string, s: Span, offset: nat, isProtected: bool): seq<TextWindow>
    requires s.start <= s.end <= |body|
  {
    var r := TrimmedSpan(t, p, body, s);
    var text := body[r.start..r.end];
    if IsBlank(t, text) then [] else [TextWindow(text, offset + r.start, offset + r.end, isProtected)]
  }

  method MakeWindow(t: TextRules, p: ChunkingPolicy, body: string, characterStart: nat, characterEnd: nat,
                    offset: nat, isProtected: bool) returns (windows: seq<TextWindow>)
    requires characterStart <= characterEnd <= |body|
    ensures windows == WindowOf(t, p, body, Span(characterStart, characterEnd), offset, isProtected)
  {
    var start, end := characterStart, characterEnd;
    if !p.preserveWhitespace {
      while start < end && t.isSpace(body[start])
        invariant start <= end
        invariant SkipSpace(t, body, start, end) == SkipSpace(t, body, characterStart, characterEnd)
      {
        start := start + 1;
      }
      while end > start && t.isSpace(body[end - 1])
        invariant start <= end <= characterEnd
        invariant SkipSpaceBack(t, body, start, end) == SkipSpaceBack(t, body, start, characterEnd)
      {
        end := end - 1;
      }
    }
    var text := body[start..end];
    if IsBlank(t, text) {
      return [];
    }
    return [TextWindow(text, offset + start, offset + end, isProtected)];
  }

  /** q is where a window cut at `from` may start: only dropped whitespace lies between. */
  ghost predicate FirstText(t: TextRules, p: ChunkingPolicy, body: string, from: nat, q: nat)
    requires q <= |body|
  {
    && from <= q
    && (p.preserveWhitespace ==> q == from)
    && forall pos :: from <= pos < q ==> t.isSpace(body[pos])
  }

  /** A window cut at `from` starts no later than any window that starts at or after `from`. */
  lemma FirstTextIsEarliest(t: TextRules, p: ChunkingPolicy, body: string, from: nat, q: nat, w: TextWindow)
    requires q <= |body| && FirstText(t, p, body, from, q)
    requires Placed(t, p, body, w) && from <= w.start
    ensures q <= w.start
  {
  }

  lemma TrimmedPlaced(t: TextRules, p: ChunkingPolicy, body: string, s: Span)
    requires s.start <= s.end <= |body|
    ensures var r := TrimmedSpan(t, p, body, s);
      && FirstText(t, p, body, s.start, r.start)
      && (forall pos :: s.start <= pos < s.end && !t.isSpace(body[pos]) ==> r.start <= pos < r.end)
      && (!IsBlank(t, body[r.start..r.end]) ==>
            Placed(t, p, body, TextWindow(body[r.start..r.end], r.start, r.end, false)))
  {
    var r := TrimmedSpan(t, p, body, s);
    var text := body[r.start..r.end];
    if !IsBlank(t, text) {
      var k :| 0 <= k < |text| && !t.isSpace(text[k]);
      assert text[k] == body[r.start + k];
    }
  }

  lemma BlankSlice(t: TextRules, body: string, a: nat, b: nat)
    requires a <= b <= |body|
    ensures IsBlank(t, body[a..b]) <==> forall pos :: a <= pos < b ==> t.isSpace(body[pos])
  {
    if IsBlank(t, body[a..b]) {
      forall pos | a <= pos < b ensures t.isSpace(body[pos]) {
        assert body[a..b][pos - a] == body[pos];
      }
    }
  }

  lemma SingletonGood(t: TextRules, p: ChunkingPolicy, body: string, w: TextWindow, a: nat, b: nat)
    requires b <= |body| && Placed(t, p, body, w) && a <= w.start && w.end <= b
    requires forall pos :: a <= pos < b && !t.isSpace(body[pos]) ==> w.start <= pos < w.end
    ensures Good(t, p, body, [w], a, b)
  {
    forall pos | a <= pos < b && !t.isSpace(body[pos]) ensures InSome([w], pos) {
      assert [w][0].start <= pos < [w][0].end;
    }
  }

  /** A span yields at most one window, which keeps all of the span's text and starts at its first
      character. */
  lemma WindowOfGood(t: TextRules, p: ChunkingPolicy, body: string, s: Span, isProtected: bool)
    requires s.start <= s.end <= |body|
    ensures var ws := WindowOf(t, p, body, s, 0, isProtected);
      && |ws| <= 1
      && Good(t, p, body, ws, s.start, s.end)
      && (ws != [] ==> ws[0].isProtected == isProtected && ws[0].start < ws[0].end <= s.end && FirstText(t, p, body, s.start, ws[0].start))
  {
    hide Placed, IsBlank;
    var r := TrimmedSpan(t, p, body, s);
    TrimmedPlaced(t, p, body, s);
    BlankSlice(t, body, r.start, r.end);
    if IsBlank(t, body[r.start..r.end]) {
      assert WindowOf(t, p, body, s, 0, isProtected) == [];
    } else {
      var w := TextWindow(body[r.start..r.end], r.start, r.end, isProtected);
      PlacedIgnoresProtection(t, p, body, w.(isProtected := false), isProtected);
      SingletonGood(t, p, body, w, s.start, s.end);
      assert WindowOf(t, p, body, s, 0, isProtected) == [w];
    }
  }

  lemma PlacedIgnoresProtection(t: TextRules, p: ChunkingPolicy, body: string, w: TextWindow, isProtected: bool)
    requires Placed(t, p, body, w)
    ensures Placed(t, p, body, w.(isProtected := isProtected))
  {
  }

  // ---- Chains of spans: what both ways of cutting have in common ----

  /** Consecutive spans from a to b, each starting where the previous one ended, backed up by the
      overlap but never before the previous start. */
  ghost predicate Chain(spans: seq<Span>, a: nat, b: nat, overlap: nat)
    decreases |spans|
  {
    && spans != []
    && spans[0].start == a <= spans[0].end <= b
    && (if |spans| == 1 then spans[0].end == b
        else Chain(spans[1..], Max(a, spans[0].end - overlap), b, overlap))
  }

  lemma ChainStep(spans: seq<Span>, a: nat, b: nat, overlap: nat)
    requires Chain(spans, a, b, overlap)
    ensures spans != [] && spans[0].start == a <= spans[0].end <= b
    ensures if |spans| == 1 then spans[0].end == b
            else Chain(spans[1..], Max(a, spans[0].end - overlap), b, overlap)
  {
  }

  lemma {:induction false} ChainBounds(spans: seq<Span>, a: nat, b: nat, overlap: nat)
    requires Chain(spans, a, b, overlap)
    ensures forall s :: s in spans ==> a <= s.start <= s.end <= b
  {
    if |spans| > 1 {
      ChainBounds(spans[1..], Max(a, spans[0].end - overlap), b, overlap);
      assert spans == [spans[0]] + spans[1..];
    }
  }

  predicate SpansWithin(spans: seq<Span>, n: nat) {
    forall s :: s in spans ==> s.start <= s.end <= n
  }

  /** makeWindow on each span in turn, without the protection mark. */
  function WindowsOf(t: TextRules, p: ChunkingPolicy, body: string, spans: seq<Span>, offset: nat): seq<TextWindow>
    requires SpansWithin(spans, |body|)
  {
    if spans == [] then []
    else WindowOf(t, p, body, spans[0], offset, false) + WindowsOf(t, p, body, spans[1..], offset)
  }

  lemma ShiftAllConcat(us: seq<TextWindow>, vs: seq<TextWindow>, offset: nat)
    ensures ShiftAll(us + vs, offset) == ShiftAll(us, offset) + ShiftAll(vs, offset)
  {
  }

  lemma WindowOfShift(t: TextRules, p: ChunkingPolicy, body: string, s: Span, offset: nat)
    requires s.start <= s.end <= |body|
    ensures WindowOf(t, p, body, s, offset, false) == ShiftAll(WindowOf(t, p, body, s, 0, false), offset)
  {
  }

  lemma {:induction false} WindowsOfShift(t: TextRules, p: ChunkingPolicy, body: string, spans: seq<Span>, offset: nat)
    requires SpansWithin(spans, |body|)
    ensures WindowsOf(t, p, body, spans, offset) == ShiftAll(WindowsOf(t, p, body, spans, 0), offset)
  {
    hide WindowOf;
    if spans != [] {
      WindowsOfShift(t, p, body, spans[1..], offset);
      WindowOfShift(t, p, body, spans[0], offset);
      ShiftAllConcat(WindowOf(t, p, body, spans[0], 0, false), WindowsOf(t, p, body, spans[1..], 0), offset);
    }
  }

  lemma WindowsOfCons(t: TextRules, p: ChunkingPolicy, body: string, before: seq<TextWindow>, s: Span, later: seq<Span>, offset: nat)
    requires SpansWithin([s] + later, |body|) && SpansWithin(later, |body|) && s.start <= s.end <= |body|
    ensures before + WindowsOf(t, p, body, [s] + later, offset)
         == before + WindowOf(t, p, body, s, offset, false) + WindowsOf(t, p, body, later, offset)
  {
    assert ([s] + later)[1..] == later;
    ConcatAssoc(before, WindowOf(t, p, body, s, offset, false), WindowsOf(t, p, body, later, offset));
  }

  /** Windows cut along a chain miss no text and come in document order. */
  lemma {:induction false} ChainGood(t: TextRules, p: ChunkingPolicy, body: string, spans: seq<Span>, a: nat, b: nat)
    requires Sized(p) && b <= |body| && Chain(spans, a, b, p.overlapCharacters) && SpansWithin(spans, |body|)
    ensures Good(t, p, body, WindowsOf(t, p, body, spans, 0), a, b)
  {
    hide WindowOf, Good, Chain, FirstText;
    ChainStep(spans, a, b, p.overlapCharacters);
    var head := WindowOf(t, p, body, spans[0], 0, false);
    WindowOfGood(t, p, body, spans[0], false);
    var tail := WindowsOf(t, p, body, spans[1..], 0);
    if |spans| == 1 {
      assert tail == [];
      assert head + tail == head;
    } else {
      var next := Max(a, spans[0].end - p.overlapCharacters);
      ChainGood(t, p, body, spans[1..], next, b);
      HeadIsEarliest(t, p, body, head, tail, a, next, b);
      GoodJoin(t, p, body, head, tail, a, next, spans[0].end, b);
    }
  }

  lemma HeadIsEarliest(t: TextRules, p: ChunkingPolicy, body: string,
                       head: seq<TextWindow>, tail: seq<TextWindow>, a: nat, next: nat, b: nat)
    requires a <= next && |head| <= 1 && b <= |body| && Good(t, p, body, tail, next, b)
    requires head != [] ==> head[0].start < head[0].end <= |body| && FirstText(t, p, body, a, head[0].start)
    ensures forall i, j :: 0 <= i < |head| && 0 <= j < |tail| ==> head[i].start <= tail[j].start
  {
    hide Placed, Covers;
    forall j | 0 <= j < |tail| && head != [] ensures head[0].start <= tail[j].start {
      FirstTextIsEarliest(t, p, body, a, head[0].start, tail[j]);
    }
  }

  lemma {:induction false} WindowsOfAtMost(t: TextRules, p: ChunkingPolicy, body: string, spans: seq<Span>, limit: nat)
    requires SpansWithin(spans, |body|)
    requires forall s :: s in spans ==> s.end - s.start <= limit
    ensures AtMost(WindowsOf(t, p, body, spans, 0), limit)
  {
    if spans != [] {
      WindowsOfAtMost(t, p, body, spans[1..], limit);
    }
  }

  // ---- characterWindows ----

  function Step(p: ChunkingPolicy): nat { Max(1, p.maxCharacters - p.overlapCharacters) }

  /** The spans visited from `start` on a text of n characters. */
  function CharacterSpans(p: ChunkingPolicy, n: nat, start: nat): (spans: seq<Span>)
    requires Sized(p)
    ensures SpansWithin(spans, n)
    decreases n - start
  {
    if start >= n then []
    else if start + p.maxCharacters >= n then [Span(start, n)]
    else [Span(start, start + p.maxCharacters)] + CharacterSpans(p, n, start + Step(p))
  }

  lemma CharacterSpansStep(p: ChunkingPolicy, n: nat, start: nat)
    requires Sized(p) && start < n
    ensures var end := Min(n, start + p.maxCharacters);
      && CharacterSpans(p, n, start) != []
      && CharacterSpans(p, n, start)[0] == Span(start, end)
      && CharacterSpans(p, n, start)[1..] == if end == n then [] else CharacterSpans(p, n, start + Step(p))
  {
  }

  function CharacterWindowsFrom(t: TextRules, p: ChunkingPolicy, body: string, start: nat, offset: nat): seq<TextWindow>
    requires Sized(p)
  {
    WindowsOf(t, p, body, CharacterSpans(p, |body|, start), offset)
  }

  function CharacterWindowsOf(t: TextRules, p: ChunkingPolicy, body: string, offset: nat): seq<TextWindow>
    requires Sized(p)
  {
    CharacterWindowsFrom(t, p, body, 0, offset)
  }

  lemma CharacterWindowsStep(t: TextRules, p: ChunkingPolicy, body: string, start: nat, offset: nat)
    requires Sized(p) && start < |body|
    ensures var end := Min(|body|, start + p.maxCharacters);
      CharacterWindowsFrom(t, p, body, start, offset)
        == WindowOf(t, p, body, Span(start, end), offset, false)
         + if end == |body| then [] else CharacterWindowsFrom(t, p, body, start + Step(p), offset)
  {
    CharacterSpansStep(p, |body|, start);
    var end := Min(|body|, start + p.maxCharacters);
    if end == |body| {
      assert WindowsOf(t, p, body, CharacterSpans(p, |body|, start)[1..], offset) == [];
    }
  }

  lemma CharacterWindowsEnd(t: TextRules, p: ChunkingPolicy, body: string, start: nat, offset: nat)
    requires Sized(p) && |body| <= start
    ensures CharacterWindowsFrom(t, p, body, start, offset) == []
  {
  }

  method CharacterWindows(t: TextRules, p: ChunkingPolicy, body: string, offset: nat)
    returns (windows: seq<TextWindow>)
    requires Sized(p)
    ensures windows == CharacterWindowsOf(t, p, body, offset)
  {
    hide WindowOf, WindowsOf;
    windows := [];
    var step := Step(p);
    var start := 0;
    ghost var todo := CharacterWindowsFrom(t, p, body, start, offset);
    while start < |body|
      invariant todo == CharacterWindowsFrom(t, p, body, start, offset)
      invariant CharacterWindowsOf(t, p, body, offset) == windows + todo
    {
      CharacterWindowsStep(t, p, body, start, offset);
      var end := Min(|body|, start + p.maxCharacters);
      var made := MakeWindow(t, p, body, start, end, offset, false);
      todo := if end >= |body| then [] else CharacterWindowsFrom(t, p, body, start + step, offset);
      ConcatAssoc(windows, made, todo);
      windows := windows + made;
      if end >= |body| {
        break;
      }
      start := start + step;
    }
    if start >= |body| {
      CharacterWindowsEnd(t, p, body, start, offset);
    }
  }

  /** Fixed steps form a chain from `start` to the end of the text. */
  lemma {:induction false} CharacterSpansChain(p: ChunkingPolicy, n: nat, start: nat)
    requires Sized(p) && start < n
    ensures Chain(CharacterSpans(p, n, start), start, n, p.overlapCharacters)
    decreases n - start
  {
    CharacterSpansStep(p, n, start);
    hide CharacterSpans;
    if start + p.maxCharacters < n {
      CharacterSpansChain(p, n, start + Step(p));
    }
  }

  lemma {:induction false} CharacterSpansSize(p: ChunkingPolicy, n: nat, start: nat)
    requires Sized(p) && start < n
    ensures forall s :: s in CharacterSpans(p, n, start) ==> s.end - s.start <= p.maxCharacters
    ensures start + p.overlapCharacters < n ==>
      forall s :: s in CharacterSpans(p, n, start) ==> s.start + p.overlapCharacters < n
    decreases n - start
  {
    CharacterSpansStep(p, n, start);
    var spans := CharacterSpans(p, n, start);
    assert spans == [spans[0]] + spans[1..];
    hide CharacterSpans;
    if start + p.maxCharacters < n {
      CharacterSpansSize(p, n, start + Step(p));
    }
  }
}
