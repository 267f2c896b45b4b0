/** When the chunks cut a range inside a merged protected range: exactly when one of the stretches that
    the merged range is cut into does, for merging short windows neither cuts a range nor heals a cut. */
module RegionCuts {
  import opened Text
  import opened ChunkPolicy
  import opened Chunk
  import opened Windows
  import opened ProtectedRanges
  import opened TextWindows
  import opened SmallWindows
  import opened SmallWindowProofs
  import opened Stretches
  import opened Chunker
  import opened ChunkerProofs

  predicate Meets(w: TextWindow, m: Range) { w.start < m.end && m.start < w.end }

  // ---- The raw windows that meet a merged range are its own ----

  lemma GoodInside(t: TextRules, p: ChunkingPolicy, body: string, ws: seq<TextWindow>, a: nat, b: nat, w: TextWindow)
    requires b <= |body| && Good(t, p, body, ws, a, b) && w in ws
    ensures a <= w.start && w.end <= b
  {
    hide Placed, Covers, Ordered;
    var i :| 0 <= i < |ws| && ws[i] == w;
  }

  lemma {:induction false} MeetingIsOwn(t: TextRules, p: ChunkingPolicy, body: string, ranges: seq<Range>, cursor: nat,
                                        m: Range, w: TextWindow)
    requires Sized(p) && RangesFrom(ranges, cursor, |body|) && m in ranges && 0 <= m.start <= m.end <= |body|
    requires w in RangedWindows(t, p, body, ranges, cursor) && Meets(w, m)
    ensures w in ProtectedWindows(t, p, body, m)
    decreases |ranges|
  {
    hide ProtectedWindows, GapWindows, Good, AtMost;
    var head := ranges[0];
    var gap := GapWindows(t, p, body, cursor, head.start);
    var kept := ProtectedWindows(t, p, body, head);
    var rest := RangedWindows(t, p, body, ranges[1..], head.end);
    GapWindowsGood(t, p, body, cursor, head.start);
    ProtectedWindowsGood(t, p, body, head);
    RangedWindowsGood(t, p, body, ranges[1..], head.end);
    assert ranges == [head] + ranges[1..];
    RangesFromBound(ranges, cursor, |body|, m);
    if m != head { RangesFromBound(ranges[1..], head.end, |body|, m); }
    if w in gap {
      GoodInside(t, p, body, gap, cursor, head.start, w);
      assert false;
    } else if w in kept {
      GoodInside(t, p, body, kept, head.start, head.end, w);
    } else {
      GoodInside(t, p, body, rest, head.end, |body|, w);
      MeetingIsOwn(t, p, body, ranges[1..], head.end, m, w);
    }
  }

  lemma {:induction false} OwnIsRaw(t: TextRules, p: ChunkingPolicy, body: string, ranges: seq<Range>, cursor: nat,
                                    m: Range, w: TextWindow)
    requires Sized(p) && RangesFrom(ranges, cursor, |body|) && m in ranges && 0 <= m.start <= m.end <= |body|
    requires w in ProtectedWindows(t, p, body, m)
    ensures w in RangedWindows(t, p, body, ranges, cursor)
    decreases |ranges|
  {
    hide ProtectedWindows, GapWindows;
    if m != ranges[0] {
      assert ranges == [ranges[0]] + ranges[1..];
      OwnIsRaw(t, p, body, ranges[1..], ranges[0].end, m, w);
    }
  }

  lemma OwnAreProtected(t: TextRules, p: ChunkingPolicy, body: string, m: Range, w: TextWindow)
    requires Sized(p) && 0 <= m.start <= m.end <= |body| && w in ProtectedWindows(t, p, body, m)
    ensures w.isProtected && m.start <= w.start && w.end <= m.end
  {
    hide WindowOf, PartWindows, Good;
    WindowOfGood(t, p, body, Span(m.start, m.end), true);
    var ws := ProtectedWindows(t, p, body, m);
    ProtectedWindowsGood(t, p, body, m);
    GoodInside(t, p, body, ws, m.start, m.end, w);
  }

  /** The raw windows that meet a merged range are exactly those cut from it, all of them protected. */
  lemma RawMeeting(t: TextRules, p: ChunkingPolicy, document: RagDocument, m: Range)
    requires Sized(p) && AcceptedDocument(t, document) && m in ProtectedRangesOf(p, document.layout)
    ensures 0 <= m.start < m.end <= |document.body|
    ensures forall w :: w in RawWindows(t, p, document) && Meets(w, m) ==>
      w in ProtectedWindows(t, p, document.body, m) && w.isProtected
    ensures forall w :: w in ProtectedWindows(t, p, document.body, m) ==>
      w in RawWindows(t, p, document) && m.start <= w.start && w.end <= m.end
  {
    ProtectedRangesFit(t, p, document);
    var ranges := ProtectedRangesOf(p, document.layout);
    hide AcceptedDocument, RangedWindows, ProtectedWindows, Separated, ProtectedRangesOf, RangesFrom, StrategyWindows;
    forall w | w in RawWindows(t, p, document) && Meets(w, m)
      ensures w in ProtectedWindows(t, p, document.body, m) && w.isProtected
    {
      MeetingIsOwn(t, p, document.body, ranges, 0, m, w);
      OwnAreProtected(t, p, document.body, m, w);
    }
    forall w | w in ProtectedWindows(t, p, document.body, m)
      ensures w in RawWindows(t, p, document) && m.start <= w.start && w.end <= m.end
    {
      OwnIsRaw(t, p, document.body, ranges, 0, m, w);
      OwnAreProtected(t, p, document.body, m, w);
    }
  }

  // ---- Merging does not heal a cut ----

  lemma {:induction false} MemberFlattens<T>(xss: seq<seq<T>>, k: nat, x: T)
    requires k < |xss| && x in xss[k]
    ensures x in Flatten(xss)
  {
    if k > 0 { MemberFlattens(xss[1..], k - 1, x); }
  }

  /** The window misses text of the range although it meets it. */
  ghost predicate Misses(t: TextRules, body: string, w: TextWindow, r: Range, pos: int)
    requires 0 <= r.start <= r.end <= |body|
  {
    && Meets(w, r)
    && r.start <= pos < r.end && !t.isSpace(body[pos]) && !(w.start <= pos < w.end)
  }

  lemma NotRespecting(t: TextRules, body: string, w: TextWindow, r: Range)
    requires 0 <= r.start <= r.end <= |body|
    ensures !Respects(t, body, w, r) <==> exists pos :: Misses(t, body, w, r, pos)
  {
    if !Respects(t, body, w, r) {
      var pos :| r.start <= pos < r.end && !t.isSpace(body[pos]) && !(w.start <= pos < w.end);
      assert Misses(t, body, w, r, pos);
    }
    if pos :| Misses(t, body, w, r, pos) {
      assert !t.isSpace(body[pos]);
    }
  }

  /** A run holds at most one protected window, so it cannot put a cut range together again. */
  lemma RunKeepsCut(t: TextRules, p: ChunkingPolicy, body: string, final: TextWindow, run: seq<TextWindow>,
                    m: Range, r: Range, w: TextWindow, pos: int)
    requires IsRun(p, body, final, run) && RunCovers(t, body, final, run) && w in run
    requires 0 <= m.start <= r.start <= r.end <= m.end <= |body|
    requires forall v :: v in run && Meets(v, m) ==> v.isProtected
    requires Misses(t, body, w, r, pos)
    ensures !Respects(t, body, final, r)
  {
    var i :| 0 <= i < |run| && run[i] == w;
    if Respects(t, body, final, r) {
      assert final.start <= pos < final.end;
      assert InSome(run, pos);
      var j :| 0 <= j < |run| && run[j].start <= pos < run[j].end;
      assert run[j] in run && Meets(run[j], m) && Meets(w, m);
      assert false;
    }
  }

  /** The range of text r in the merged range m is cut once a kept raw window misses part of it. */
  lemma CutSurvives(t: TextRules, p: ChunkingPolicy, document: RagDocument, m: Range, r: Range, w: TextWindow)
    requires Sized(p) && AcceptedDocument(t, document) && m in ProtectedRangesOf(p, document.layout)
    requires 0 <= m.start <= r.start < r.end <= m.end <= |document.body|
    requires w in RawWindows(t, p, document) && !ShouldDrop(t, p, w) && !Respects(t, document.body, w, r)
    ensures !AllRespect(t, document.body, FinalWindows(t, p, document), r)
  {
    hide AcceptedDocument, RawWindows, Sound, MergedWindows, ShouldDrop, AllFit, Respects, ProtectedRangesOf, Misses,
         ProtectedWindows, IsRun, RunCovers, Meets;
    RawMeeting(t, p, document, m);
    KeptWindowsSound(t, p, document);
    var kept := DropFurniture(t, p, RawWindows(t, p, document));
    var runs := MergedWindowsAreRuns(t, p, document.body, kept);
    var k := FlattenMember(runs, w);
    var ws := FinalWindows(t, p, document);
    forall v | v in runs[k] && Meets(v, m) ensures v.isProtected {
      MemberFlattens(runs, k, v);
    }
    NotRespecting(t, document.body, w, r);
    var pos :| Misses(t, document.body, w, r, pos);
    RunKeepsCut(t, p, document.body, ws[k], runs[k], m, r, w, pos);
  }

  lemma RespectKept(t: TextRules, p: ChunkingPolicy, document: RagDocument, m: Range, r: Range)
    requires Sized(p) && AcceptedDocument(t, document) && m in ProtectedRangesOf(p, document.layout)
    requires 0 <= m.start <= r.start < r.end <= m.end <= |document.body|
    requires forall w :: w in ProtectedWindows(t, p, document.body, m) && !ShouldDrop(t, p, w) ==> Respects(t, document.body, w, r)
    ensures AllRespect(t, document.body, DropFurniture(t, p, RawWindows(t, p, document)), r)
  {
    hide AcceptedDocument, RawWindows, ShouldDrop, ProtectedRangesOf, ProtectedWindows;
    RawMeeting(t, p, document, m);
    var kept := DropFurniture(t, p, RawWindows(t, p, document));
    forall i | 0 <= i < |kept| ensures Respects(t, document.body, kept[i], r) {
      assert kept[i] in kept;
    }
  }

  /** The final windows leave a range of text whole exactly when the kept windows of its merged range do. */
  lemma FinalRespectIff(t: TextRules, p: ChunkingPolicy, document: RagDocument, m: Range, r: Range)
    requires Sized(p) && AcceptedDocument(t, document) && m in ProtectedRangesOf(p, document.layout)
    requires 0 <= m.start <= r.start < r.end <= m.end <= |document.body|
    ensures AllRespect(t, document.body, FinalWindows(t, p, document), r) <==>
      forall w :: w in ProtectedWindows(t, p, document.body, m) && !ShouldDrop(t, p, w) ==> Respects(t, document.body, w, r)
  {
    hide AcceptedDocument, RawWindows, ShouldDrop, ProtectedRangesOf, ProtectedWindows, Respects, AllRespect,
         FinalWindows, DropFurniture, Sound, AllFit;
    RawMeeting(t, p, document, m);
    if forall w :: w in ProtectedWindows(t, p, document.body, m) && !ShouldDrop(t, p, w) ==> Respects(t, document.body, w, r) {
      KeptWindowsSound(t, p, document);
      RespectKept(t, p, document, m, r);
      FinalRespects(t, p, document, DropFurniture(t, p, RawWindows(t, p, document)), r);
    } else {
      var w :| w in ProtectedWindows(t, p, document.body, m) && !ShouldDrop(t, p, w) && !Respects(t, document.body, w, r);
      CutSurvives(t, p, document, m, r, w);
    }
  }

  // ---- The same on stretches ----

  /** What is left of the stretch once it is trimmed is blank, is dropped as furniture, or holds all of
      the range's text or lies outside the range. */
  ghost predicate Spares(t: TextRules, p: ChunkingPolicy, body: string, s: Span, r: Range)
    requires s.start <= s.end <= |body| && 0 <= r.start <= r.end <= |body|
  {
    var w := Trimmed(t, p, body, s);
    IsBlank(t, w.text) || ShouldDrop(t, p, w) || Respects(t, body, w, r)
  }

  ghost predicate AllSpare(t: TextRules, p: ChunkingPolicy, body: string, spans: seq<Span>, r: Range)
    requires SpansWithin(spans, |body|) && 0 <= r.start <= r.end <= |body|
  {
    forall s :: s in spans ==> Spares(t, p, body, s, r)
  }

  lemma MarkedWindows(t: TextRules, p: ChunkingPolicy, body: string, m: Range)
    requires Sized(p) && 0 <= m.start <= m.end <= |body|
    ensures ProtectedWindows(t, p, body, m)
         == MarkProtected(WindowsOf(t, p, body, StretchesOf(t, p, body, m.start, m.end), 0))
  {
    hide WindowsOf, PartWindows, TrimmedSpan;
    if m.end - m.start <= p.maxCharacters {
      OneWindow(t, p, body, Span(m.start, m.end));
    } else {
      hide StretchesOf;
      StretchesMakeWindows(t, p, body, m.start, m.end);
    }
  }

  lemma ProtectionIsNoMatter(t: TextRules, p: ChunkingPolicy, body: string, w: TextWindow, r: Range)
    requires 0 <= r.start <= r.end <= |body|
    ensures ShouldDrop(t, p, w) == ShouldDrop(t, p, w.(isProtected := true))
    ensures Respects(t, body, w, r) == Respects(t, body, w.(isProtected := true), r)
  {
  }

  /** The windows of the merged range are what is left of its stretches, all marked as protected. */
  lemma WindowIsTrimmed(t: TextRules, p: ChunkingPolicy, body: string, m: Range, w: TextWindow) returns (s: Span)
    requires Sized(p) && 0 <= m.start <= m.end <= |body| && w in ProtectedWindows(t, p, body, m)
    ensures s in StretchesOf(t, p, body, m.start, m.end)
    ensures !IsBlank(t, Trimmed(t, p, body, s).text) && w == Trimmed(t, p, body, s).(isProtected := true)
  {
    var spans := StretchesOf(t, p, body, m.start, m.end);
    MarkedWindows(t, p, body, m);
    hide StretchesOf, ProtectedWindows, WindowsOf, WindowOf, Trimmed, IsBlank;
    var ws := WindowsOf(t, p, body, spans, 0);
    var i :| 0 <= i < |ws| && w == ws[i].(isProtected := true);
    WindowOfStretch(t, p, body, spans, ws[i]);
    s :| s in spans && ws[i] in WindowOf(t, p, body, s, 0, false);
    TrimmedIsWindow(t, p, body, s);
  }

  lemma TrimmedIsOwn(t: TextRules, p: ChunkingPolicy, body: string, m: Range, s: Span)
    requires Sized(p) && 0 <= m.start <= m.end <= |body| && s in StretchesOf(t, p, body, m.start, m.end)
    requires !IsBlank(t, Trimmed(t, p, body, s).text)
    ensures Trimmed(t, p, body, s).(isProtected := true) in ProtectedWindows(t, p, body, m)
  {
    var spans := StretchesOf(t, p, body, m.start, m.end);
    MarkedWindows(t, p, body, m);
    hide StretchesOf, ProtectedWindows, WindowsOf, WindowOf, Trimmed, IsBlank;
    var ws := WindowsOf(t, p, body, spans, 0);
    TrimmedIsWindow(t, p, body, s);
    WindowOfStretch(t, p, body, spans, Trimmed(t, p, body, s));
    var i :| 0 <= i < |ws| && ws[i] == Trimmed(t, p, body, s);
    assert MarkProtected(ws)[i] == ws[i].(isProtected := true);
  }

  /** The kept windows of a merged range leave a range whole exactly when its stretches spare it. */
  lemma OwnRespectIff(t: TextRules, p: ChunkingPolicy, body: string, m: Range, r: Range)
    requires Sized(p) && 0 <= m.start <= m.end <= |body| && 0 <= r.start <= r.end <= |body|
    ensures (forall w :: w in ProtectedWindows(t, p, body, m) && !ShouldDrop(t, p, w) ==> Respects(t, body, w, r))
       <==> AllSpare(t, p, body, StretchesOf(t, p, body, m.start, m.end), r)
  {
    var spans := StretchesOf(t, p, body, m.start, m.end);
    hide StretchesOf, ProtectedWindows, Trimmed, IsBlank, ShouldDrop, Respects;
    forall w | AllSpare(t, p, body, spans, r) && w in ProtectedWindows(t, p, body, m) && !ShouldDrop(t, p, w)
      ensures Respects(t, body, w, r)
    {
      var s := WindowIsTrimmed(t, p, body, m, w);
      ProtectionIsNoMatter(t, p, body, Trimmed(t, p, body, s), r);
      assert Spares(t, p, body, s, r);
    }
    forall s | s in spans && !IsBlank(t, Trimmed(t, p, body, s).text)
      ensures Trimmed(t, p, body, s).(isProtected := true) in ProtectedWindows(t, p, body, m)
    {
      TrimmedIsOwn(t, p, body, m, s);
    }
    forall s | s in spans
      ensures Spares(t, p, body, s, r) <==>
        var w := Trimmed(t, p, body, s).(isProtected := true);
        IsBlank(t, Trimmed(t, p, body, s).text) || ShouldDrop(t, p, w) || Respects(t, body, w, r)
    {
      ProtectionIsNoMatter(t, p, body, Trimmed(t, p, body, s), r);
    }
  }

  /** A stretch that contains a range, or does not meet it, spares it: trimming takes only whitespace. */
  lemma HoldingSpares(t: TextRules, p: ChunkingPolicy, body: string, s: Span, r: Range)
    requires s.start <= s.end <= |body| && 0 <= r.start <= r.end <= |body|
    requires (s.start <= r.start && r.end <= s.end) || s.end <= r.start || r.end <= s.start
    ensures Spares(t, p, body, s, r)
  {
    hide Placed, IsBlank, ShouldDrop;
    TrimmedPlaced(t, p, body, s);
    hide TrimmedSpan;
  }
}
