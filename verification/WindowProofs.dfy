/** What the two ways of cutting text guarantee: no text is missed, windows come in document order,
    each records its own text, and none exceeds the limit. */
module WindowProofs {
  import opened Text
  import opened ChunkPolicy
  import opened Windows
  import opened SeparatorWindows

  /** A window may start at q: anywhere when whitespace is kept, otherwise only on text. */
  ghost predicate CanStart(t: TextRules, p: ChunkingPolicy, body: string, q: nat)
    requires q < |body|
  {
    p.preserveWhitespace || !t.isSpace(body[q])
  }

  /** No window starts after a place at or past `limit` where a window may start. */
  ghost predicate Early(t: TextRules, p: ChunkingPolicy, body: string, ws: seq<TextWindow>, limit: int) {
    forall w, q: nat :: w in ws && limit <= q < |body| && CanStart(t, p, body, q) ==> w.start <= q
  }

  lemma {:induction false} WindowsOfEarly(t: TextRules, p: ChunkingPolicy, body: string, spans: seq<Span>, limit: int)
    requires SpansWithin(spans, |body|)
    requires forall s :: s in spans ==> s.start <= limit
    ensures Early(t, p, body, WindowsOf(t, p, body, spans, 0), limit)
  {
    hide WindowOf, Good;
    if spans != [] {
      var head := WindowOf(t, p, body, spans[0], 0, false);
      WindowOfGood(t, p, body, spans[0], false);
      WindowsOfEarly(t, p, body, spans[1..], limit);
      var tail := WindowsOf(t, p, body, spans[1..], 0);
      forall w: TextWindow, q: nat | w in head + tail && limit <= q < |body| && CanStart(t, p, body, q) ensures w.start <= q {
        if w in head {
          assert w == head[0];
          assert FirstText(t, p, body, spans[0].start, w.start);
        }
      }
    }
  }

  /** Fixed steps over any non-empty text. */
  lemma CharacterWindowsGood(t: TextRules, p: ChunkingPolicy, body: string)
    requires Sized(p)
    ensures var ws := CharacterWindowsOf(t, p, body, 0);
      && Good(t, p, body, ws, 0, |body|)
      && AtMost(ws, p.maxCharacters)
      && (|body| > p.maxCharacters ==> Early(t, p, body, ws, |body| - p.overlapCharacters))
  {
    hide WindowOf, WindowsOf, Early;
    var spans := CharacterSpans(p, |body|, 0);
    if body == "" {
      CharacterWindowsEnd(t, p, body, 0, 0);
    } else {
      CharacterSpansChain(p, |body|, 0);
      CharacterSpansSize(p, |body|, 0);
      ChainGood(t, p, body, spans, 0, |body|);
      WindowsOfAtMost(t, p, body, spans, p.maxCharacters);
      if |body| > p.maxCharacters {
        WindowsOfEarly(t, p, body, spans, |body| - p.overlapCharacters);
      }
    }
  }

  lemma CharacterWindowsShifted(t: TextRules, p: ChunkingPolicy, body: string, a: nat, b: nat)
    requires Sized(p) && a <= b <= |body|
    ensures var ws := CharacterWindowsOf(t, p, body[a..b], a);
      && ws == ShiftAll(CharacterWindowsOf(t, p, body[a..b], 0), a)
      && Good(t, p, body, ws, a, b)
      && AtMost(ws, p.maxCharacters)
  {
    hide WindowOf, WindowsOf, Early, Good;
    var part := body[a..b];
    CharacterWindowsGood(t, p, part);
    WindowsOfShift(t, p, part, CharacterSpans(p, |part|, 0), a);
    GoodShift(t, p, body, CharacterWindowsOf(t, p, part, 0), a, b);
  }

  /** Cutting one window keeps its text, in windows within the limit. */
  lemma CutOneGood(t: TextRules, p: ChunkingPolicy, body: string, w: TextWindow)
    requires Sized(p) && Placed(t, p, body, w)
    ensures Good(t, p, body, CutOne(t, p, w), w.start, w.end) && AtMost(CutOne(t, p, w), p.maxCharacters)
  {
    hide IsBlank, Good, CharacterWindowsOf;
    if |w.text| > p.maxCharacters {
      CharacterWindowsShifted(t, p, body, w.start, w.end);
    } else {
      SingletonGood(t, p, body, w, w.start, w.end);
    }
  }

  lemma PlacedFacts(t: TextRules, p: ChunkingPolicy, body: string, w: TextWindow)
    requires Placed(t, p, body, w)
    ensures w.start < w.end <= |body| && w.text == body[w.start..w.end] && CanStart(t, p, body, w.start)
  {
  }

  /** The pieces of a window start no later than a window that backs up by at most the overlap. */
  lemma CutOneEarly(t: TextRules, p: ChunkingPolicy, body: string, w: TextWindow, v: TextWindow)
    requires Sized(p) && Placed(t, p, body, w) && Placed(t, p, body, v)
    requires w.start <= v.start
    requires |w.text| > p.maxCharacters ==> w.end - p.overlapCharacters <= v.start
    ensures forall u :: u in CutOne(t, p, w) ==> u.start <= v.start
  {
    hide Placed, CharacterWindowsOf, Good, AtMost, Early;
    PlacedFacts(t, p, body, w);
    PlacedFacts(t, p, body, v);
    if |w.text| > p.maxCharacters {
      var local := CharacterWindowsOf(t, p, w.text, 0);
      CharacterWindowsGood(t, p, w.text);
      CharacterWindowsShifted(t, p, body, w.start, w.end);
      forall u | u in CutOne(t, p, w) ensures u.start <= v.start {
        var i :| 0 <= i < |local| && u == Shift(local[i], w.start);
        GoodAt(t, p, w.text, local, |w.text|, i);
        PieceEarly(t, p, body, w.start, w.text, local, i, v.start);
      }
    }
  }

  lemma GoodAt(t: TextRules, p: ChunkingPolicy, body: string, ws: seq<TextWindow>, b: nat, i: nat)
    requires b <= |body| && i < |ws| && Good(t, p, body, ws, 0, b)
    ensures ws[i].start < ws[i].end <= b
  {
    hide IsBlank, Covers, Ordered;
    assert Placed(t, p, body, ws[i]);
  }

  lemma EarlyAt(t: TextRules, p: ChunkingPolicy, body: string, ws: seq<TextWindow>, limit: int, i: nat, q: nat)
    requires Early(t, p, body, ws, limit) && i < |ws|
    requires limit <= q < |body| && CanStart(t, p, body, q)
    ensures ws[i].start <= q
  {
    assert ws[i] in ws;
  }

  lemma PieceEarly(t: TextRules, p: ChunkingPolicy, body: string, a: nat, part: string, local: seq<TextWindow>, i: nat, v: nat)
    requires a + |part| <= |body| && part == body[a..a + |part|]
    requires i < |local| && local[i].start < local[i].end <= |part|
    requires Early(t, p, part, local, |part| - p.overlapCharacters)
    requires a <= v < |body| && a + |part| - p.overlapCharacters <= v && CanStart(t, p, body, v)
    ensures local[i].start + a <= v
  {
    hide Early;
    if v < a + |part| {
      assert part[v - a] == body[v];
      EarlyAt(t, p, part, local, |part| - p.overlapCharacters, i, v - a);
    }
  }

  lemma CutOversizedStep(t: TextRules, p: ChunkingPolicy, head: seq<TextWindow>, tail: seq<TextWindow>)
    requires Sized(p) && |head| <= 1
    ensures CutOversized(t, p, head + tail)
         == (if head == [] then [] else CutOne(t, p, head[0])) + CutOversized(t, p, tail)
  {
    if head == [] {
      assert head + tail == tail;
    } else {
      assert (head + tail)[1..] == tail;
    }
  }

  /** Cutting oversized windows along any chain: the general form behind both separators. */
  lemma {:induction false} CutChainGood(t: TextRules, p: ChunkingPolicy, body: string, spans: seq<Span>, a: nat, b: nat)
    requires Sized(p) && b <= |body| && Chain(spans, a, b, p.overlapCharacters) && SpansWithin(spans, |body|)
    ensures var ws := CutOversized(t, p, WindowsOf(t, p, body, spans, 0));
      Good(t, p, body, ws, a, b) && AtMost(ws, p.maxCharacters)
  {
    hide WindowOf, CutOne, CutOversized, Good, Chain, FirstText, AtMost;
    ChainStep(spans, a, b, p.overlapCharacters);
    var head := WindowOf(t, p, body, spans[0], 0, false);
    WindowOfGood(t, p, body, spans[0], false);
    var tail := WindowsOf(t, p, body, spans[1..], 0);
    CutOversizedStep(t, p, head, tail);
    var us := if head == [] then [] else CutOne(t, p, head[0]);
    var vs := CutOversized(t, p, tail);
    CutHeadGood(t, p, body, head, a, spans[0].end);
    if |spans| == 1 {
      NoSpansNoWindows(t, p, body, spans[1..]);
      assert us + vs == us;
    } else {
      var next := Max(a, spans[0].end - p.overlapCharacters);
      CutChainGood(t, p, body, spans[1..], next, b);
      CutHeadEarly(t, p, body, head, vs, a, spans[0].end, next, b);
      GoodJoin(t, p, body, us, vs, a, next, spans[0].end, b);
      AtMostConcat(us, vs, p.maxCharacters);
    }
  }

  lemma AtMostConcat(us: seq<TextWindow>, vs: seq<TextWindow>, limit: int)
    requires AtMost(us, limit) && AtMost(vs, limit)
    ensures AtMost(us + vs, limit)
  {
  }

  lemma NoSpansNoWindows(t: TextRules, p: ChunkingPolicy, body: string, spans: seq<Span>)
    requires Sized(p) && spans == []
    ensures SpansWithin(spans, |body|) && CutOversized(t, p, WindowsOf(t, p, body, spans, 0)) == []
  {
  }

  lemma CutHeadGood(t: TextRules, p: ChunkingPolicy, body: string, head: seq<TextWindow>, a: nat, b: nat)
    requires Sized(p) && |head| <= 1 && a <= b <= |body| && Good(t, p, body, head, a, b)
    ensures var us := if head == [] then [] else CutOne(t, p, head[0]);
      Good(t, p, body, us, a, b) && AtMost(us, p.maxCharacters)
  {
    hide CutOne, Placed;
    if head != [] {
      var w := head[0];
      CutOneGood(t, p, body, w);
      InsideWiden(t, p, body, CutOne(t, p, w), w.start, w.end, a, b);
      forall pos | a <= pos < b && !t.isSpace(body[pos]) ensures InSome(CutOne(t, p, w), pos) {
        assert InSome(head, pos);
      }
    }
  }

  lemma CutHeadEarly(t: TextRules, p: ChunkingPolicy, body: string, head: seq<TextWindow>, vs: seq<TextWindow>,
                     a: nat, e: nat, next: nat, b: nat)
    requires Sized(p) && |head| <= 1 && a <= e <= |body| && next == Max(a, e - p.overlapCharacters) && b <= |body|
    requires Good(t, p, body, head, a, e) && Good(t, p, body, vs, next, b)
    requires head != [] ==> head[0].start < head[0].end <= e && FirstText(t, p, body, a, head[0].start)
    ensures var us := if head == [] then [] else CutOne(t, p, head[0]);
      forall i, j :: 0 <= i < |us| && 0 <= j < |vs| ==> us[i].start <= vs[j].start
  {
    hide Placed, CutOne, Covers;
    if head != [] {
      var us := CutOne(t, p, head[0]);
      forall i, j | 0 <= i < |us| && 0 <= j < |vs| ensures us[i].start <= vs[j].start {
        FirstTextIsEarliest(t, p, body, a, head[0].start, vs[j]);
        CutOneEarly(t, p, body, head[0], vs[j]);
        assert us[i] in us;
      }
    }
  }

  /** Cutting at a separator misses no text, keeps document order and respects the limit. */
  lemma SeparatorWindowsGood(t: TextRules, p: ChunkingPolicy, body: string, separator: string)
    requires Sized(p) && separator != ""
    ensures var ws := SeparatorWindowsOf(t, p, body, separator);
      Good(t, p, body, ws, 0, |body|) && AtMost(ws, p.maxCharacters)
  {
    hide WindowOf, WindowsOf, Chain, Good, SeparatorSpans;
    SeparatorSpansChain(p, body, separator);
    CutChainGood(t, p, body, SeparatorSpans(p, body, separator), 0, |body|);
  }
}
