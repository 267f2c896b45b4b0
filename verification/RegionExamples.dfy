/** Two protected regions that touch and are too long together: inputs on which the second is cut
    although it would fit by itself, and one on which both stay whole. */
module RegionExamples {
  import opened Text
  import opened ChunkPolicy
  import opened Layout
  import opened LayoutValidator
  import opened LayoutSoundness
  import opened Chunk
  import opened Windows
  import opened ProtectedRanges
  import opened TextWindows
  import opened SmallWindows
  import opened SmallWindowProofs
  import opened Stretches
  import opened LayoutEvidence
  import opened Chunker
  import opened ChunkerProofs
  import opened RegionCuts
  import opened EvenSteps
  import opened ProtectedRegions

  ghost predicate NoSpace(t: TextRules, body: string) {
    forall i :: 0 <= i < |body| ==> !t.isSpace(body[i])
  }

  /** The body is two protected regions that touch at b, together longer than one window. */
  ghost predicate TwoTouching(t: TextRules, p: ChunkingPolicy, document: RagDocument, b: nat) {
    && Sized(p) && p.boundaryStrategy == CharacterWindow
    && p.preserveStructuredLayoutRegions == Some(true) && document.layout.Some?
    && RangesOf(document.layout.value.regions) == [Range(0, b), Range(b, |document.body|)]
    && 0 < b < |document.body| && p.maxCharacters < |document.body|
    && NoSpace(t, document.body)
  }

  lemma FullWindow(t: TextRules, p: ChunkingPolicy, body: string, s: Span)
    requires s.start < s.end <= |body| && NoSpace(t, body)
    ensures WindowOf(t, p, body, s, 0, false) == [TextWindow(body[s.start..s.end], s.start, s.end, false)]
  {
    var text := body[s.start..s.end];
    assert TrimmedSpan(t, p, body, s) == s;
    assert text[0] == body[s.start];
  }

  /** Fixed steps over the merged range start with a full window. */
  lemma FirstCut(t: TextRules, p: ChunkingPolicy, body: string)
    requires Sized(p) && p.boundaryStrategy == CharacterWindow && p.maxCharacters < |body| && NoSpace(t, body)
    ensures TextWindow(body[..p.maxCharacters], 0, p.maxCharacters, true) in ProtectedWindows(t, p, body, Range(0, |body|))
  {
    var w := TextWindow(body[0..p.maxCharacters], 0, p.maxCharacters, false);
    var cut := StrategyWindows(t, p, body);
    assert cut == CharacterWindowsOf(t, p, body, 0);
    hide WindowOf, CharacterWindowsFrom, StrategyWindows;
    CharacterWindowsStep(t, p, body, 0, 0);
    FullWindow(t, p, body, Span(0, p.maxCharacters));
    assert cut[0] == w;
    assert body[0..|body|] == body;
    assert PartWindows(t, p, body, 0, |body|) == ShiftAll(cut, 0);
    ShiftByZero(cut);
    assert MarkProtected(cut)[0] == w.(isProtected := true);
  }

  lemma WholeBodyRanged(t: TextRules, p: ChunkingPolicy, body: string)
    requires Sized(p) && body != "" && RangesFrom([Range(0, |body|)], 0, |body|)
    ensures RangedWindows(t, p, body, [Range(0, |body|)], 0) == ProtectedWindows(t, p, body, Range(0, |body|))
  {
    hide ProtectedWindows, PartWindows;
    var whole := Range(0, |body|);
    assert [whole][1..] == [];
    assert RangedWindows(t, p, body, [], |body|) == [];
    assert RangedWindows(t, p, body, [whole], 0)
        == GapWindows(t, p, body, 0, 0) + (ProtectedWindows(t, p, body, whole) + RangedWindows(t, p, body, [whole][1..], |body|));
  }

  /** The two ranges are cut as one. */
  lemma TouchingAreOne(t: TextRules, p: ChunkingPolicy, document: RagDocument, b: nat)
    requires AcceptedDocument(t, document) && TwoTouching(t, p, document, b)
    ensures RawWindows(t, p, document) == ProtectedWindows(t, p, document.body, Range(0, |document.body|))
  {
    hide AcceptedDocument, ProtectedWindows, NoSpace, RangedWindows, MergedRanges, RangesOf;
    TouchingRangesMerge(0, b, |document.body|);
    ProtectedRangesFit(t, p, document);
    WholeBodyRanged(t, p, document.body);
  }

  lemma FirstCutIsRaw(t: TextRules, p: ChunkingPolicy, document: RagDocument, b: nat)
    requires AcceptedDocument(t, document) && TwoTouching(t, p, document, b)
    ensures TextWindow(document.body[..p.maxCharacters], 0, p.maxCharacters, true) in RawWindows(t, p, document)
  {
    hide AcceptedDocument, ProtectedWindows, NoSpace, RawWindows, RangesOf;
    TouchingAreOne(t, p, document, b);
    FirstCut(t, p, document.body);
  }

  lemma FullWindowStays(t: TextRules, p: ChunkingPolicy, body: string)
    requires Sized(p) && p.maxCharacters <= |body| && NoSpace(t, body)
    ensures !ShouldDrop(t, p, TextWindow(body[..p.maxCharacters], 0, p.maxCharacters, true))
  {
    var text := body[..p.maxCharacters];
    assert !t.isSpace(text[0]) && !t.isSpace(text[|text| - 1]);
    assert Trim(t, text) == text;
  }

  /** A full raw window that is not dropped is a final window: it has no room to grow. */
  lemma FullWindowIsFinal(t: TextRules, p: ChunkingPolicy, document: RagDocument, w: TextWindow) returns (k: nat)
    requires Sized(p) && AcceptedDocument(t, document)
    requires w in RawWindows(t, p, document) && !ShouldDrop(t, p, w) && w.end - w.start == p.maxCharacters
    ensures var ws := FinalWindows(t, p, document);
      k < |ws| && ws[k].start == w.start && ws[k].end == w.end
  {
    hide AcceptedDocument, FinalWindows, RawWindows, ShouldDrop, IsBlank;
    k := KeptWindowSurvives(t, p, document, w);
    FinalWindowsSound(t, p, document);
    var ws := FinalWindows(t, p, document);
    assert Placed(t, p, document.body, ws[k]) && |ws[k].text| <= p.maxCharacters;
  }

  lemma FirstFinal(t: TextRules, p: ChunkingPolicy, document: RagDocument, b: nat) returns (k: nat)
    requires AcceptedDocument(t, document) && TwoTouching(t, p, document, b)
    ensures var ws := FinalWindows(t, p, document);
      k < |ws| && ws[k].start == 0 && ws[k].end == p.maxCharacters
  {
    hide AcceptedDocument, FinalWindows, RawWindows, ShouldDrop, NoSpace, RangesOf;
    FirstCutIsRaw(t, p, document, b);
    FullWindowStays(t, p, document.body);
    k := FullWindowIsFinal(t, p, document, TextWindow(document.body[..p.maxCharacters], 0, p.maxCharacters, true));
  }

  lemma SplitIsCut(t: TextRules, body: string, chunk: RagChunk, r: Range)
    requires NoSpace(t, body) && 0 <= r.start < r.end <= |body|
    requires chunk.characterStart <= r.start < chunk.characterEnd < r.end
    ensures !ChunkRespects(t, body, chunk, r)
  {
    assert !t.isSpace(body[r.end - 1]);
  }

  /** Under fixed steps, when a body without whitespace is two protected regions that touch, together
      longer than a window and the first shorter than one, a chunk ends inside the second of them,
      even if that region would have fit by itself. */
  lemma TouchingRegionsAreCut(t: TextRules, p: ChunkingPolicy, document: RagDocument, b: nat) returns (k: nat)
    requires AcceptedDocument(t, document) && ChunkingOutcome(t, p, document).Chunked?
    requires TwoTouching(t, p, document, b) && b < p.maxCharacters
    ensures var chunks := ChunkingOutcome(t, p, document).chunks;
      && k < |chunks| && chunks[k].characterStart == 0 && chunks[k].characterEnd == p.maxCharacters
      && !ChunkRespects(t, document.body, chunks[k], Range(b, |document.body|))
  {
    assert !t.isSpace(document.body[0]);
    hide AcceptedDocument, FinalWindows, ChunkingOutcome, NoSpace, ChunkOf, RangesOf, ChunkRespects, Sound, AllFit;
    ChunkedShape(t, p, document);
    k := FirstFinal(t, p, document, b);
    SplitIsCut(t, document.body, ChunkingOutcome(t, p, document).chunks[k], Range(b, |document.body|));
  }

  // ---- A concrete document of this kind ----

  lemma {:induction false} WindowsOfCount(t: TextRules, p: ChunkingPolicy, body: string, spans: seq<Span>)
    requires SpansWithin(spans, |body|)
    ensures |WindowsOf(t, p, body, spans, 0)| <= |spans|
  {
    if spans != [] { WindowsOfCount(t, p, body, spans[1..]); }
  }

  lemma {:induction false} DropCount(t: TextRules, p: ChunkingPolicy, ws: seq<TextWindow>)
    ensures |DropFurniture(t, p, ws)| <= |ws|
  {
    hide ShouldDrop;
    if ws != [] { DropCount(t, p, ws[1..]); }
  }

  lemma {:induction false} FinishCount(t: TextRules, p: ChunkingPolicy, body: string, s: MergeState)
    requires StateFits(body, s)
    ensures |Finish(t, p, body, s)| <= |s.result| + |s.pending|
    decreases |s.pending|
  {
    hide CanMerge, IsShort, MergeWindows, Fits;
    if s.pending != [] { FinishCount(t, p, body, NextState(t, p, body, s)); }
  }

  /** Dropping and merging never add a window. */
  lemma FinalCount(t: TextRules, p: ChunkingPolicy, document: RagDocument)
    requires Sized(p) && AcceptedDocument(t, document)
    ensures |FinalWindows(t, p, document)| <= |RawWindows(t, p, document)|
  {
    hide AcceptedDocument, RawWindows, Sound, Finish, DropFurniture, Fits;
    KeptWindowsSound(t, p, document);
    var kept := DropFurniture(t, p, RawWindows(t, p, document));
    FinishCount(t, p, document.body, MergeState([], kept));
    DropCount(t, p, RawWindows(t, p, document));
  }

  function FourCharacterPolicy(): ChunkingPolicy {
    ChunkingPolicy("x", None, 4, 0, 1, 2, CharacterWindow, CharacterRange, false, Some(true), false, false)
  }

  function TableRegion(id: string, start: int, end: int): LayoutRegion {
    LayoutRegion(id, Table, 1, None, None, Some(start), Some(end), None, [], None)
  }

  /** Two tables that touch at b. */
  function TwoTables(b: nat): DocumentLayout {
    DocumentLayout("x", TableStructure, [LayoutPage(1, 1.0, 1.0, Point, None)],
                   [TableRegion("x", 0, b), TableRegion("xx", b, 6)], [], [], [])
  }

  function TwoTablesDocument(b: nat): RagDocument {
    RagDocument("x", "x", "x", "xxxxxx", Provenance("x", "x"), AccessScope("x", "x"), Some(TwoTables(b)))
  }

  lemma TwoTablesAccepted(t: TextRules, b: nat)
    requires 0 < b < 6 && !t.isSpace('x')
    ensures AcceptedDocument(t, TwoTablesDocument(b))
  {
    hide LayoutIssues;
    var layout := TwoTables(b);
    assert layout.pages[0] in layout.pages;
    assert AllIds(layout) == ["x", "xx"];
    assert !IsBlank(t, "x") && !IsBlank(t, "xx") by { assert "x"[0] == 'x' && "xx"[0] == 'x'; }
    LayoutValidIffWellFormed(t, layout, "xxxxxx");
  }

  lemma TwoTablesTouch(t: TextRules, b: nat)
    requires 0 < b < 6 && !t.isSpace('x')
    ensures TwoTouching(t, FourCharacterPolicy(), TwoTablesDocument(b), b)
  {
    var regions := TwoTables(b).regions;
    assert regions[1..] == [regions[1]] && regions[1..][1..] == [];
    assert RangesOf(regions[1..]) == [Range(b, 6)];
    assert RangesOf(regions) == [Range(0, b), Range(b, 6)];
  }

  lemma StrategyCount(t: TextRules, p: ChunkingPolicy, body: string)
    requires p == FourCharacterPolicy() && |body| == 6
    ensures |StrategyWindows(t, p, body)| <= 2
  {
    assert CharacterSpans(p, 6, 4) == [Span(4, 6)];
    assert CharacterSpans(p, 6, 0) == [Span(0, 4), Span(4, 6)];
    hide WindowsOf;
    WindowsOfCount(t, p, body, [Span(0, 4), Span(4, 6)]);
  }

  lemma TwoTablesRawCount(t: TextRules, b: nat)
    requires 0 < b < 6 && !t.isSpace('x') && AcceptedDocument(t, TwoTablesDocument(b))
    ensures |RawWindows(t, FourCharacterPolicy(), TwoTablesDocument(b))| <= 2
  {
    hide AcceptedDocument, StrategyWindows, RawWindows, TwoTouching;
    var p, document := FourCharacterPolicy(), TwoTablesDocument(b);
    TwoTablesTouch(t, b);
    TouchingAreOne(t, p, document, b);
    assert document.body[0..6] == document.body;
    StrategyCount(t, p, document.body);
  }

  lemma TwoTablesChunked(t: TextRules, b: nat)
    requires 0 < b < 6 && !t.isSpace('x') && AcceptedDocument(t, TwoTablesDocument(b))
    ensures ChunkingOutcome(t, FourCharacterPolicy(), TwoTablesDocument(b)).Chunked?
  {
    hide AcceptedDocument, FinalWindows, RawWindows, IsBlank, ChunksOf;
    var p, document := FourCharacterPolicy(), TwoTablesDocument(b);
    assert PolicyIssues(t, p) == [] by { NamedNotBlank(t); }
    hide PolicyIssues;
    TwoTablesRawCount(t, b);
    FinalCount(t, p, document);
  }

  lemma NamedNotBlank(t: TextRules)
    requires !t.isSpace('x')
    ensures !IsBlank(t, "x")
  {
    assert "x"[0] == 'x';
  }

  lemma TwoTablesRanges(t: TextRules, b: nat)
    requires 0 < b < 6 && !t.isSpace('x')
    ensures var p, document := FourCharacterPolicy(), TwoTablesDocument(b);
      && ProtectedRangesOf(p, document.layout) == [Range(0, 6)] && Solid(t, document.body, Range(0, 6))
      && IsProtectedRange(p, document, Range(0, b)) && IsProtectedRange(p, document, Range(b, 6))
  {
    hide RangesOf, MergedRanges;
    TwoTablesTouch(t, b);
    TouchingRangesMerge(0, b, 6);
  }

  /** Two tables that touch at b in six characters, windows of four: although the merged range is too
      long, each is whole when no window ends inside it, so both are exactly when b is 4. */
  lemma TwoTablesWholeIff(t: TextRules, b: nat)
    requires 0 < b < 6 && !t.isSpace('x')
    ensures var p, document := FourCharacterPolicy(), TwoTablesDocument(b);
      && AcceptedDocument(t, document) && ChunkingOutcome(t, p, document).Chunked?
      && (AllWhole(t, document.body, ChunkingOutcome(t, p, document).chunks, Range(0, b)) <==> b <= 4)
      && (AllWhole(t, document.body, ChunkingOutcome(t, p, document).chunks, Range(b, 6)) <==> 4 <= b)
  {
    var p, document := FourCharacterPolicy(), TwoTablesDocument(b);
    hide AcceptedDocument, AllWhole, ChunkingOutcome, ProtectedRangesOf, Solid, IsProtectedRange;
    TwoTablesAccepted(t, b);
    TwoTablesChunked(t, b);
    TwoTablesRanges(t, b);
    var m := EvenStepsWholeIff(t, p, document, Range(0, b));
    assert m == Range(0, 6);
    m := EvenStepsWholeIff(t, p, document, Range(b, 6));
    assert m == Range(0, 6);
    assert StepStart(p, 0) == 0 && StepStart(p, b) == if b < 4 then 0 else 4;
  }

  /** Two tables of three characters side by side, windows of four: the chunker succeeds and one of its
      chunks holds only part of the second table. */
  lemma FittingTableIsCut(t: TextRules) returns (k: nat)
    requires !t.isSpace('x')
    ensures var p, document := FourCharacterPolicy(), TwoTablesDocument(3);
      && AcceptedDocument(t, document) && ChunkingOutcome(t, p, document).Chunked?
      && IsProtectedRange(p, document, Range(3, 6)) && 6 - 3 <= p.maxCharacters
      && k < |ChunkingOutcome(t, p, document).chunks|
      && !ChunkRespects(t, document.body, ChunkingOutcome(t, p, document).chunks[k], Range(3, 6))
  {
    var p, document := FourCharacterPolicy(), TwoTablesDocument(3);
    hide AcceptedDocument, ChunkingOutcome, IsProtectedRange, ChunkRespects, ProtectedRangesOf, Solid;
    TwoTablesRanges(t, 3);
    TwoTablesWholeIff(t, 3);
    var chunks := ChunkingOutcome(t, p, document).chunks;
    var i :| 0 <= i < |chunks| && !ChunkRespects(t, document.body, chunks[i], Range(3, 6));
    k := i;
  }
}
