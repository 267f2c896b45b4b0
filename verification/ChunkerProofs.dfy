/** What chunkDocument promises: its chunks pass the independent validator, no text is lost except in
    dropped furniture, protected text is never cut, and chunks come in document order. */
module ChunkerProofs {
  import opened Text
  import opened Decimal
  import opened ChunkPolicy
  import opened Layout
  import opened LayoutValidator
  import opened LayoutSoundness
  import opened Chunk
  import opened ChunkValidation
  import opened Windows
  import opened WindowProofs
  import opened ProtectedRanges
  import opened TextWindows
  import opened SmallWindows
  import opened SmallWindowProofs
  import opened MergeFixpoint
  import opened LayoutEvidence
  import opened Chunker

  // ---- One chunk passes the validator ----

  lemma {:induction false} PagesByNumberKeys(pages: seq<LayoutPage>, k: nat)
    requires k <= |pages|
    ensures forall i :: 0 <= i < k ==> pages[i].pageNumber in PagesByNumber(pages, k)
    ensures forall n :: n in PagesByNumber(pages, k) ==>
      PagesByNumber(pages, k)[n] in pages && PagesByNumber(pages, k)[n].pageNumber == n
  {
    if k > 0 { PagesByNumberKeys(pages, k - 1); }
  }

  lemma {:induction false} BoxesClean(boxes: seq<LayoutBox>, pages: map<int, LayoutPage>, k: nat)
    requires k <= |boxes| && forall box :: box in boxes ==> BoxIssue(box, pages) == []
    ensures BoxesIssues(boxes, pages, k) == []
  {
    hide BoxIssue;
    if k > 0 { BoxesClean(boxes, pages, k - 1); }
  }

  lemma {:induction false} IdsKnown(ids: seq<string>, known: set<string>, k: nat)
    requires k <= |ids| && forall id :: id in ids ==> id in known
    ensures UnknownIdIssues(ids, known, k) == []
  {
    if k > 0 { IdsKnown(ids, known, k - 1); }
  }

  /** A box that the layout validator accepts passes the chunk validator's own box check. */
  lemma AcceptedBoxPasses(pages: seq<LayoutPage>, box: LayoutBox, n: int)
    requires PagesOk(pages) && BoxOnPage(box, n, pages)
    ensures BoxIssue(box, PagesByNumber(pages, |pages|)) == []
  {
    var m := PagesByNumber(pages, |pages|);
    PagesByNumberKeys(pages, |pages|);
    var page :| page in pages && page.pageNumber == n && BoxInPage(box, page);
    var i :| 0 <= i < |pages| && pages[i] == page;
    var j :| 0 <= j < |pages| && pages[j] == m[n];
    hide PagesByNumber;
  }

  /** What a layout that the validator accepted gives the evidence of a window. */
  lemma EvidenceKnown(t: TextRules, layout: DocumentLayout, body: string, w: TextWindow)
    requires WellFormed(t, layout, body)
    ensures var e, pages := EvidenceFor(Some(layout), w), PagesByNumber(layout.pages, |layout.pages|);
      && (forall id :: id in e.layoutRegionIds ==> id in KnownIds(layout.regions))
      && (forall box :: box in e.boundingBoxes ==> BoxIssue(box, pages) == [])
      && (e.pageNumber.Some? ==> e.pageNumber.value in pages)
  {
    hide PagesByNumber, EvidenceFor, AllIds, FamilyOk, RelationOk, TableOk, AssetOk, BoxIssue, RelatedRegions.Search;
    var e, pages := EvidenceFor(Some(layout), w), PagesByNumber(layout.pages, |layout.pages|);
    EvidenceIdsMeaning(layout, w);
    EvidenceBoxesMeaning(layout, w);
    forall box | box in e.boundingBoxes ensures BoxIssue(box, pages) == [] {
      var r :| r in layout.regions && r.box == Some(box);
      assert RegionOk(r, body, layout.pages);
      AcceptedBoxPasses(layout.pages, box, r.pageNumber);
    }
    EvidencePageKnown(t, layout, body, w);
  }

  lemma EvidencePageKnown(t: TextRules, layout: DocumentLayout, body: string, w: TextWindow)
    requires WellFormed(t, layout, body)
    ensures var page := EvidenceFor(Some(layout), w).pageNumber;
      page.Some? ==> page.value in PagesByNumber(layout.pages, |layout.pages|)
  {
    hide PagesByNumber, AllIds, FamilyOk, RelationOk, TableOk, AssetOk, OverlapPage, Overlaps,
         OrderedIds, BoxesOf, SelectedIds, RegionsById;
    OverlapPageMeaning(layout.regions, w, |layout.regions|);
    PagesByNumberKeys(layout.pages, |layout.pages|);
    var found := EvidenceFor(Some(layout), w).pageNumber;
    if found.Some? {
      var i :| 0 <= i < |layout.regions| && layout.regions[i].pageNumber == found.value;
      assert RegionOk(layout.regions[i], body, layout.pages);
      var page :| page in layout.pages && page.pageNumber == found.value;
    }
  }

  ghost predicate Cites(chunk: RagChunk, e: Evidence) {
    && chunk.layoutRegionIds == chunk.citation.layoutRegionIds == e.layoutRegionIds
    && chunk.boundingBoxes == chunk.citation.boundingBoxes == e.boundingBoxes
    && chunk.citation.pageNumber == e.pageNumber
  }

  lemma EvidencePasses(t: TextRules, document: RagDocument, w: TextWindow, chunk: RagChunk)
    requires AcceptedDocument(t, document) && Cites(chunk, EvidenceFor(document.layout, w))
    ensures LayoutEvidenceIssues(chunk, document.layout) == []
  {
    if document.layout.Some? {
      var layout := document.layout.value;
      LayoutValidIffWellFormed(t, layout, document.body);
      hide LayoutIssues, WellFormed, EvidenceFor, PagesByNumber, KnownIds, BoxesIssues, UnknownIdIssues, BoxIssue;
      var e := EvidenceFor(document.layout, w);
      EvidenceKnown(t, layout, document.body, w);
      BoxesClean(e.boundingBoxes, PagesByNumber(layout.pages, |layout.pages|), |e.boundingBoxes|);
      IdsKnown(e.layoutRegionIds, KnownIds(layout.regions), |e.layoutRegionIds|);
    }
  }

  lemma LocatorGiven(t: TextRules, p: ChunkingPolicy, body: string, w: TextWindow)
    requires Fits(body, w)
    ensures Locator(t, p, body, w) != ""
  {
    hide ContentSpan, LineBreaks, ParagraphNumberAt, Numeral;
  }

  lemma PlacedChunkPasses(t: TextRules, p: ChunkingPolicy, document: RagDocument, w: TextWindow, index: nat)
    requires AcceptedDocument(t, document) && Placed(t, p, document.body, w) && |w.text| <= p.maxCharacters
    ensures Fits(document.body, w)
    ensures ChunkIssuesOf(t, ChunkOf(t, p, document, w, index), document, p) == []
  {
    hide IsBlank, LayoutEvidenceIssues, EvidenceFor, Locator, AcceptedDocument, ChunkId, SafetyFlags;
    var chunk := ChunkOf(t, p, document, w, index);
    LocatorGiven(t, p, document.body, w);
    EvidencePasses(t, document, w, chunk);
  }

  // ---- The end-to-end theorem ----

  lemma {:induction false} ChunksOfAt(t: TextRules, p: ChunkingPolicy, document: RagDocument, ws: seq<TextWindow>, k: nat)
    requires k <= |ws| && AllFit(document.body, ws)
    ensures forall i :: 0 <= i < k ==>
      var chunk := ChunksOf(t, p, document, ws, k)[i];
      && chunk == ChunkOf(t, p, document, ws[i], i)
      && chunk.index == i && chunk.characterStart == ws[i].start && chunk.characterEnd == ws[i].end
  {
    hide EvidenceFor, Locator, ChunkId;
    if k > 0 { ChunksOfAt(t, p, document, ws, k - 1); }
  }

  /** The chunks of a document are made, one for one, from its final windows. */
  lemma ChunkedShape(t: TextRules, p: ChunkingPolicy, document: RagDocument)
    requires AcceptedDocument(t, document) && ChunkingOutcome(t, p, document).Chunked?
    requires !IsBlank(t, document.body)
    ensures Sized(p)
    ensures var ws, chunks := FinalWindows(t, p, document), ChunkingOutcome(t, p, document).chunks;
      && Sound(t, p, document.body, ws) && AllFit(document.body, ws)
      && |chunks| == |ws| <= p.maxChunksPerDocument
      && (forall i :: 0 <= i < |ws| ==>
            && chunks[i] == ChunkOf(t, p, document, ws[i], i)
            && chunks[i].index == i && chunks[i].characterStart == ws[i].start && chunks[i].characterEnd == ws[i].end)
  {
    hide AcceptedDocument, PolicyIssues, FinalWindows, Sound, IsBlank, ChunkOf;
    ValidPolicyIsSized(t, p);
    var ws := FinalWindows(t, p, document);
    FinalWindowsSound(t, p, document);
    SoundFits(t, p, document.body, ws);
    ChunksOfAt(t, p, document, ws, |ws|);
  }

  /** For every policy and every normalized document: if chunking succeeds, the validator finds
      nothing wrong with any chunk, which makes each of them sound, and none is flagged as oversized. */
  lemma ChunksPassValidation(t: TextRules, p: ChunkingPolicy, document: RagDocument)
    requires AcceptedDocument(t, document) && ChunkingOutcome(t, p, document).Chunked?
    ensures var chunks := ChunkingOutcome(t, p, document).chunks;
      && AllChunkIssues(t, chunks, document, p) == []
      && (forall i :: 0 <= i < |chunks| ==> ChunkOk(t, chunks[i], document, p) && NotOversized(chunks[i]))
  {
    hide AcceptedDocument, FinalWindows, ChunkOf, ChunkIssuesOf, PolicyIssues, Placed, ChunkOk, NotOversized;
    var chunks := ChunkingOutcome(t, p, document).chunks;
    if IsBlank(t, document.body) {
      assert chunks == [];
    } else {
      hide IsBlank, ChunkingOutcome;
      ChunkedShape(t, p, document);
      var ws := FinalWindows(t, p, document);
      forall i | 0 <= i < |chunks|
        ensures ChunkIssuesOf(t, chunks[i], document, p) == [] && ChunkOk(t, chunks[i], document, p) && NotOversized(chunks[i])
      {
        PlacedChunkPasses(t, p, document, ws[i], i);
        ChunkValidIffOk(t, chunks[i], document, p);
        FittingNotOversized(t, p, document, ws[i], i);
      }
    }
    AllChunkIssuesEmpty(t, chunks, document, p);
  }

  predicate NotOversized(chunk: RagChunk) {
    chunk.safetyFlags.Some? ==> OversizedChunk !in chunk.safetyFlags.value
  }

  lemma FittingNotOversized(t: TextRules, p: ChunkingPolicy, document: RagDocument, w: TextWindow, index: nat)
    requires Fits(document.body, w) && |w.text| <= p.maxCharacters
    ensures NotOversized(ChunkOf(t, p, document, w, index))
  {
    hide EvidenceFor, Locator, ChunkId;
  }

  // ---- Nothing is lost ----

  lemma {:induction false} FlattenMember<T>(xss: seq<seq<T>>, x: T) returns (k: nat)
    requires x in Flatten(xss)
    ensures k < |xss| && x in xss[k]
  {
    if x in xss[0] {
      k := 0;
    } else {
      k := FlattenMember(xss[1..], x);
      k := k + 1;
    }
  }

  /** A raw window that is not dropped lies inside a final window. */
  lemma KeptWindowSurvives(t: TextRules, p: ChunkingPolicy, document: RagDocument, w: TextWindow) returns (k: nat)
    requires Sized(p) && AcceptedDocument(t, document)
    requires w in RawWindows(t, p, document) && !ShouldDrop(t, p, w)
    ensures var ws := FinalWindows(t, p, document);
      k < |ws| && ws[k].start <= w.start && w.end <= ws[k].end
  {
    hide AcceptedDocument, RawWindows, Sound, MergedWindows, ShouldDrop, AllFit;
    KeptWindowsSound(t, p, document);
    var kept := DropFurniture(t, p, RawWindows(t, p, document));
    var runs := MergedWindowsAreRuns(t, p, document.body, kept);
    k := FlattenMember(runs, w);
    var ws := FinalWindows(t, p, document);
    assert IsRun(p, document.body, ws[k], runs[k]);
    var i :| 0 <= i < |runs[k]| && runs[k][i] == w;
  }

  ghost predicate InSomeChunk(chunks: seq<RagChunk>, pos: int) {
    exists i :: 0 <= i < |chunks| && chunks[i].characterStart <= pos < chunks[i].characterEnd
  }

  ghost predicate InDroppedFurniture(t: TextRules, p: ChunkingPolicy, document: RagDocument, pos: int)
    requires Sized(p) && AcceptedDocument(t, document)
  {
    exists w :: w in RawWindows(t, p, document) && ShouldDrop(t, p, w) && w.start <= pos < w.end
  }

  /** Every position of the body that carries text is in some chunk, unless it was part of a short
      window that looks like page furniture. */
  lemma NoTextIsLost(t: TextRules, p: ChunkingPolicy, document: RagDocument, pos: nat)
    requires AcceptedDocument(t, document) && ChunkingOutcome(t, p, document).Chunked?
    requires pos < |document.body| && !t.isSpace(document.body[pos])
    ensures Sized(p)
    ensures InSomeChunk(ChunkingOutcome(t, p, document).chunks, pos) || InDroppedFurniture(t, p, document, pos)
  {
    hide AcceptedDocument, FinalWindows, RawWindows, ShouldDrop, ChunkingOutcome, Sound, Inside, Ordered, AtMost;
    assert !IsBlank(t, document.body);
    ChunkedShape(t, p, document);
    RawWindowsGood(t, p, document);
    var raw, ws, chunks := RawWindows(t, p, document), FinalWindows(t, p, document), ChunkingOutcome(t, p, document).chunks;
    assert InSome(raw, pos);
    var i :| 0 <= i < |raw| && raw[i].start <= pos < raw[i].end;
    if !ShouldDrop(t, p, raw[i]) {
      var k := KeptWindowSurvives(t, p, document, raw[i]);
      assert chunks[k].characterStart <= pos < chunks[k].characterEnd;
    } else {
      assert raw[i] in raw;
    }
  }

  // ---- Protected text is never cut ----

  lemma KeptWindowsRespect(t: TextRules, p: ChunkingPolicy, document: RagDocument, r: Range)
    requires Sized(p) && AcceptedDocument(t, document)
    requires r in ProtectedRangesOf(p, document.layout) && r.end - r.start <= p.maxCharacters
    ensures 0 <= r.start < r.end <= |document.body|
    ensures AllRespect(t, document.body, DropFurniture(t, p, RawWindows(t, p, document)), r)
  {
    ProtectedRangesFit(t, p, document);
    var ranges := ProtectedRangesOf(p, document.layout);
    var raw := RawWindows(t, p, document);
    hide AcceptedDocument, RangedWindows, RangesFrom, Separated, Respects, ShouldDrop, ProtectedRangesOf;
    RangedWindowsRespect(t, p, document.body, ranges, 0, r);
    var kept := DropFurniture(t, p, raw);
    forall i | 0 <= i < |kept| ensures Respects(t, document.body, kept[i], r) {
      assert kept[i] in kept;
      var j :| 0 <= j < |raw| && raw[j] == kept[i];
    }
  }

  ghost predicate ChunkRespects(t: TextRules, body: string, chunk: RagChunk, r: Range)
    requires 0 <= r.start <= r.end <= |body|
  {
    || chunk.characterEnd <= r.start
    || r.end <= chunk.characterStart
    || forall pos :: r.start <= pos < r.end && !t.isSpace(body[pos]) ==> chunk.characterStart <= pos < chunk.characterEnd
  }

  lemma FinalWindowsRespect(t: TextRules, p: ChunkingPolicy, document: RagDocument, r: Range)
    requires Sized(p) && AcceptedDocument(t, document)
    requires r in ProtectedRangesOf(p, document.layout) && r.end - r.start <= p.maxCharacters
    ensures 0 <= r.start < r.end <= |document.body|
    ensures AllRespect(t, document.body, FinalWindows(t, p, document), r)
  {
    hide AcceptedDocument, RawWindows, FinalWindows, Sound, DropFurniture, AllFit, ProtectedRangesOf, AllRespect;
    KeptWindowsSound(t, p, document);
    KeptWindowsRespect(t, p, document, r);
    FinalRespects(t, p, document, DropFurniture(t, p, RawWindows(t, p, document)), r);
  }

  /** A chunk holds all of the text of a protected range that fits in one window, or none of it. */
  lemma ProtectedTextIsWhole(t: TextRules, p: ChunkingPolicy, document: RagDocument, r: Range, i: nat)
    requires AcceptedDocument(t, document) && ChunkingOutcome(t, p, document).Chunked?
    requires r in ProtectedRangesOf(p, document.layout) && r.end - r.start <= p.maxCharacters
    requires i < |ChunkingOutcome(t, p, document).chunks|
    ensures 0 <= r.start < r.end <= |document.body|
    ensures ChunkRespects(t, document.body, ChunkingOutcome(t, p, document).chunks[i], r)
  {
    hide AcceptedDocument, FinalWindows, Sound, AllFit, ProtectedRangesOf, ChunkingOutcome, IsBlank, AllRespect, ChunkOf;
    if IsBlank(t, document.body) {
      BlankHasNoChunks(t, p, document);
    } else {
      ChunkedShape(t, p, document);
      FinalWindowsRespect(t, p, document, r);
      RespectAt(t, document.body, FinalWindows(t, p, document), i, r);
    }
  }

  lemma RespectAt(t: TextRules, body: string, ws: seq<TextWindow>, i: nat, r: Range)
    requires 0 <= r.start <= r.end <= |body| && AllRespect(t, body, ws, r) && i < |ws|
    ensures Respects(t, body, ws[i], r)
  {
  }

  /** A blank document gives no chunk, and no error but that of an invalid policy. */
  lemma BlankHasNoChunks(t: TextRules, p: ChunkingPolicy, document: RagDocument)
    requires AcceptedDocument(t, document) && IsBlank(t, document.body)
    ensures ChunkingOutcome(t, p, document)
         == if PolicyIssues(t, p) == [] then Chunked([], true) else InvalidPolicy(PolicyIssues(t, p))
  {
    hide AcceptedDocument, PolicyIssues, FinalWindows, IsBlank;
  }

  lemma FinalRespects(t: TextRules, p: ChunkingPolicy, document: RagDocument, kept: seq<TextWindow>, r: Range)
    requires Sized(p) && AcceptedDocument(t, document) && 0 <= r.start < r.end <= |document.body|
    requires kept == DropFurniture(t, p, RawWindows(t, p, document))
    requires Sound(t, p, document.body, kept) && AllFit(document.body, kept) && AllRespect(t, document.body, kept, r)
    ensures AllRespect(t, document.body, FinalWindows(t, p, document), r)
  {
    hide AcceptedDocument, RawWindows, Sound, Finish, DropFurniture, AllRespect, Fits;
    assert AsList(MergeState([], kept)) == kept;
    FinishRespects(t, p, document.body, MergeState([], kept), r);
  }

  // ---- Order and stability ----

  /** Chunks are numbered from 0 in document order. */
  lemma ChunksInDocumentOrder(t: TextRules, p: ChunkingPolicy, document: RagDocument)
    requires AcceptedDocument(t, document) && ChunkingOutcome(t, p, document).Chunked?
    ensures var chunks := ChunkingOutcome(t, p, document).chunks;
      && (forall i :: 0 <= i < |chunks| ==> chunks[i].index == i)
      && (forall i, j :: 0 <= i < j < |chunks| ==> chunks[i].characterStart <= chunks[j].characterStart)
  {
    hide AcceptedDocument, FinalWindows, Inside, AtMost, ChunkOf, ChunkingOutcome, IsBlank;
    if IsBlank(t, document.body) {
      BlankHasNoChunks(t, p, document);
    } else {
      ChunkedShape(t, p, document);
    }
  }

  /** Merging short windows again would change nothing. */
  lemma FinalWindowsAreStable(t: TextRules, p: ChunkingPolicy, document: RagDocument)
    requires Sized(p) && AcceptedDocument(t, document)
    ensures var ws := FinalWindows(t, p, document);
      && AllFit(document.body, ws)
      && MergedWindows(t, p, document.body, ws) == ws
      && Settled(t, p, document.body, ws)
  {
    hide AcceptedDocument, RawWindows, Sound, MergedWindows, DropFurniture, Settled, Fits;
    KeptWindowsSound(t, p, document);
    var kept := DropFurniture(t, p, RawWindows(t, p, document));
    MergeIsIdempotent(t, p, document.body, kept);
    MergedWindowsSettled(t, p, document.body, kept);
  }
}
