/** Protected regions of the layout, rather than the ranges they are merged into: exactly when the
    chunker keeps one whole. */
module ProtectedRegions {
  import opened Text
  import opened ChunkPolicy
  import opened Layout
  import opened LayoutValidator
  import opened LayoutSoundness
  import opened Chunk
  import opened Windows
  import opened ProtectedRanges
  import opened TextWindows
  import opened SmallWindows
  import opened SmallWindowProofs
  import opened Stretches
  import opened LayoutEvidence
  import opened Chunker
  import opened ChunkerProofs
  import opened RegionCuts
  import opened EvenSteps

  /** r is the range of a protected region, and the policy asks to protect it. */
  ghost predicate IsProtectedRange(p: ChunkingPolicy, document: RagDocument, r: Range) {
    && p.preserveStructuredLayoutRegions == Some(true) && document.layout.Some?
    && r in RangesOf(document.layout.value.regions)
  }

  lemma ProtectedRangeFits(t: TextRules, p: ChunkingPolicy, document: RagDocument, r: Range)
    requires AcceptedDocument(t, document) && IsProtectedRange(p, document, r)
    ensures 0 <= r.start < r.end <= |document.body|
  {
    var layout := document.layout.value;
    LayoutValidIffWellFormed(t, layout, document.body);
    hide LayoutIssues, AllIds;
    var region :| region in layout.regions && region.characterStart == Some(r.start) && region.characterEnd == Some(r.end);
    assert RegionOk(region, document.body, layout.pages);
  }

  /** Each protected region lies inside one merged range. */
  lemma RegionInOneRange(t: TextRules, p: ChunkingPolicy, document: RagDocument, r: Range) returns (m: Range)
    requires AcceptedDocument(t, document) && IsProtectedRange(p, document, r)
    ensures m in ProtectedRangesOf(p, document.layout) && m.start <= r.start < r.end <= m.end
  {
    hide AcceptedDocument, MergedRanges, RangesOf;
    ProtectedRangeFits(t, p, document, r);
    m := InOneMergedRange(RangesOf(document.layout.value.regions), r);
  }

  ghost predicate AllWhole(t: TextRules, body: string, chunks: seq<RagChunk>, r: Range)
    requires 0 <= r.start <= r.end <= |body|
  {
    forall i :: 0 <= i < |chunks| ==> ChunkRespects(t, body, chunks[i], r)
  }

  lemma ChunksRespectIff(t: TextRules, p: ChunkingPolicy, document: RagDocument, r: Range)
    requires AcceptedDocument(t, document) && ChunkingOutcome(t, p, document).Chunked?
    requires !IsBlank(t, document.body) && 0 <= r.start <= r.end <= |document.body|
    ensures Sized(p)
    ensures AllWhole(t, document.body, ChunkingOutcome(t, p, document).chunks, r)
       <==> AllRespect(t, document.body, FinalWindows(t, p, document), r)
  {
    hide AcceptedDocument, FinalWindows, Sound, AllFit, ChunkingOutcome, IsBlank, ChunkOf;
    ChunkedShape(t, p, document);
    var ws, chunks := FinalWindows(t, p, document), ChunkingOutcome(t, p, document).chunks;
    forall i | 0 <= i < |ws|
      ensures ChunkRespects(t, document.body, chunks[i], r) <==> Respects(t, document.body, ws[i], r)
    {
      SameOffsets(t, document.body, chunks[i], ws[i], r);
    }
    hide ChunkRespects, Respects;
  }

  lemma SameOffsets(t: TextRules, body: string, chunk: RagChunk, w: TextWindow, r: Range)
    requires 0 <= r.start <= r.end <= |body| && chunk.characterStart == w.start && chunk.characterEnd == w.end
    ensures ChunkRespects(t, body, chunk, r) <==> Respects(t, body, w, r)
  {
  }

  lemma BlankSpares(t: TextRules, p: ChunkingPolicy, body: string, spans: seq<Span>, r: Range)
    requires IsBlank(t, body) && SpansWithin(spans, |body|) && 0 <= r.start <= r.end <= |body|
    ensures AllSpare(t, p, body, spans, r)
  {
    hide TrimmedSpan, ShouldDrop, Respects;
  }

  /** Every chunk holds all of a protected region's text or none of it exactly when each stretch that
      the region's merged range is cut into is blank, is dropped as furniture, or does so itself. */
  lemma RegionIsWholeIff(t: TextRules, p: ChunkingPolicy, document: RagDocument, r: Range) returns (m: Range)
    requires AcceptedDocument(t, document) && ChunkingOutcome(t, p, document).Chunked?
    requires IsProtectedRange(p, document, r)
    ensures m in ProtectedRangesOf(p, document.layout)
    ensures Sized(p) && 0 <= m.start <= r.start < r.end <= m.end <= |document.body|
    ensures AllWhole(t, document.body, ChunkingOutcome(t, p, document).chunks, r)
       <==> AllSpare(t, p, document.body, StretchesOf(t, p, document.body, m.start, m.end), r)
  {
    hide AcceptedDocument, ProtectedRangesOf, ChunkingOutcome, IsProtectedRange, StretchesOf, AllSpare, AllWhole,
         FinalWindows, AllRespect, ProtectedWindows, ShouldDrop, Respects, PolicyIssues, IsBlank;
    ChunkedIsSized(t, p, document);
    m := RegionInOneRange(t, p, document, r);
    RawMeeting(t, p, document, m);
    if IsBlank(t, document.body) {
      NoChunksWhole(t, p, document, r);
      BlankSpares(t, p, document.body, StretchesOf(t, p, document.body, m.start, m.end), r);
    } else {
      ChunksRespectIff(t, p, document, r);
      FinalRespectIff(t, p, document, m, r);
      OwnRespectIff(t, p, document.body, m, r);
    }
  }

  lemma ChunkedIsSized(t: TextRules, p: ChunkingPolicy, document: RagDocument)
    requires AcceptedDocument(t, document) && ChunkingOutcome(t, p, document).Chunked?
    ensures Sized(p)
  {
    hide AcceptedDocument, FinalWindows, PolicyIssues, IsBlank;
    ValidPolicyIsSized(t, p);
  }

  lemma NoChunksWhole(t: TextRules, p: ChunkingPolicy, document: RagDocument, r: Range)
    requires AcceptedDocument(t, document) && ChunkingOutcome(t, p, document).Chunked? && IsBlank(t, document.body)
    requires 0 <= r.start <= r.end <= |document.body|
    ensures AllWhole(t, document.body, ChunkingOutcome(t, p, document).chunks, r)
  {
    hide AcceptedDocument, ChunkingOutcome, IsBlank, ChunkRespects;
    BlankHasNoChunks(t, p, document);
  }

  /** In particular when the region's merged range fits in one window. */
  lemma RegionTextIsWhole(t: TextRules, p: ChunkingPolicy, document: RagDocument, r: Range)
    requires AcceptedDocument(t, document) && ChunkingOutcome(t, p, document).Chunked?
    requires IsProtectedRange(p, document, r)
    requires forall m :: m in ProtectedRangesOf(p, document.layout) && m.start <= r.start < r.end <= m.end ==>
      m.end - m.start <= p.maxCharacters
    ensures 0 <= r.start < r.end <= |document.body|
    ensures AllWhole(t, document.body, ChunkingOutcome(t, p, document).chunks, r)
  {
    hide AcceptedDocument, ProtectedRangesOf, ChunkingOutcome, IsProtectedRange, TrimmedSpan;
    var m := RegionIsWholeIff(t, p, document, r);
    assert StretchesOf(t, p, document.body, m.start, m.end) == [Span(m.start, m.end)];
    HoldingSpares(t, p, document.body, Span(m.start, m.end), r);
  }

  /** A protected region that stands alone is a merged range of its own. */
  lemma LoneRegionIsMerged(t: TextRules, p: ChunkingPolicy, document: RagDocument, r: Range)
    requires AcceptedDocument(t, document) && IsProtectedRange(p, document, r)
    requires StandsAlone(RangesOf(document.layout.value.regions), r)
    ensures r in ProtectedRangesOf(p, document.layout)
  {
    hide AcceptedDocument, MergedRanges, RangesOf, StandsAlone;
    ProtectedRangeFits(t, p, document, r);
    LoneRangeIsMerged(RangesOf(document.layout.value.regions), r);
  }

  /** A protected region that stands alone and fits in one window is never cut. */
  lemma LoneRegionIsWhole(t: TextRules, p: ChunkingPolicy, document: RagDocument, r: Range, i: nat)
    requires AcceptedDocument(t, document) && ChunkingOutcome(t, p, document).Chunked?
    requires i < |ChunkingOutcome(t, p, document).chunks|
    requires IsProtectedRange(p, document, r) && r.end - r.start <= p.maxCharacters
    requires StandsAlone(RangesOf(document.layout.value.regions), r)
    ensures 0 <= r.start < r.end <= |document.body|
    ensures ChunkRespects(t, document.body, ChunkingOutcome(t, p, document).chunks[i], r)
  {
    hide AcceptedDocument, ProtectedRangesOf, ChunkingOutcome, StandsAlone, RangesOf;
    LoneRegionIsMerged(t, p, document, r);
    ProtectedTextIsWhole(t, p, document, r, i);
  }

  // ---- Fixed steps without overlap ----

  /** Under fixed steps without overlap a region of a merged range that is too long for one window is
      whole when it lies in one step, counted from the start of the merged range; if the merged range
      has no whitespace, exactly then. */
  lemma EvenStepsWholeIff(t: TextRules, p: ChunkingPolicy, document: RagDocument, r: Range) returns (m: Range)
    requires AcceptedDocument(t, document) && ChunkingOutcome(t, p, document).Chunked?
    requires IsProtectedRange(p, document, r) && p.overlapCharacters == 0 && p.boundaryStrategy == CharacterWindow
    ensures m in ProtectedRangesOf(p, document.layout)
    ensures Sized(p) && 0 <= m.start <= r.start < r.end <= m.end <= |document.body|
    ensures var whole := AllWhole(t, document.body, ChunkingOutcome(t, p, document).chunks, r);
      m.end - m.start > p.maxCharacters ==>
        && (InOneStep(p, m.start, r) ==> whole)
        && (Solid(t, document.body, m) ==> (whole <==> InOneStep(p, m.start, r)))
  {
    hide AcceptedDocument, ProtectedRangesOf, ChunkingOutcome, IsProtectedRange, StretchesOf, AllSpare, AllWhole, Solid, InOneStep;
    m := RegionIsWholeIff(t, p, document, r);
    if m.end - m.start > p.maxCharacters {
      EvenStepsSpareIff(t, p, document.body, m, r);
    }
  }
}
