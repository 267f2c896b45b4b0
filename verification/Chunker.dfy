/** chunkDocument: from a document and a policy to its chunks. */
module Chunker {
  import opened Text
  import opened Decimal
  import opened ChunkPolicy
  import opened Layout
  import opened LayoutValidator
  import opened LayoutSoundness
  import opened Chunk
  import opened Windows
  import opened WindowProofs
  import opened ProtectedRanges
  import opened TextWindows
  import opened SmallWindows
  import opened SmallWindowProofs
  import opened LayoutEvidence

  /** A document that normalization accepts: a layout, if present, is valid for the body. */
  predicate AcceptedDocument(t: TextRules, document: RagDocument) {
    document.layout.Some? ==> LayoutIssues(t, document.layout.value, document.body) == []
  }

  // ---- Raw windows ----

  predicate IsProtectedKind(kind: RegionKind) {
    kind in {Table, TableCaption, Figure, FigureCaption, Equation}
  }

  function RangesOf(regions: seq<LayoutRegion>): (ranges: seq<Range>)
    ensures forall x :: x in ranges <==>
      exists r :: r in regions && IsProtectedKind(r.kind) && r.characterStart == Some(x.start) && r.characterEnd == Some(x.end)
  {
    if regions == [] then []
    else
      var r := regions[0];
      assert forall x :: x in regions <==> x == r || x in regions[1..];
      (if IsProtectedKind(r.kind) && r.characterStart.Some? && r.characterEnd.Some?
       then [Range(r.characterStart.value, r.characterEnd.value)] else [])
      + RangesOf(regions[1..])
  }

  function ProtectedRangesOf(p: ChunkingPolicy, layout: Option<DocumentLayout>): seq<Range> {
    if p.preserveStructuredLayoutRegions == Some(true) && layout.Some?
    then MergedRanges(RangesOf(layout.value.regions)) else []
  }

  lemma ProtectedRangesFit(t: TextRules, p: ChunkingPolicy, document: RagDocument)
    requires AcceptedDocument(t, document)
    ensures var ranges := ProtectedRangesOf(p, document.layout);
      && Separated(ranges)
      && (forall r :: r in ranges ==> 0 <= r.start < r.end <= |document.body|)
      && RangesFrom(ranges, 0, |document.body|)
  {
    var ranges := ProtectedRangesOf(p, document.layout);
    if p.preserveStructuredLayoutRegions == Some(true) && document.layout.Some? {
      var layout := document.layout.value;
      LayoutValidIffWellFormed(t, layout, document.body);
      hide LayoutIssues, MergedRanges, IsProtectedKind, AllIds;
      forall x | x in RangesOf(layout.regions) ensures x.end <= |document.body| {
        var r :| r in layout.regions && r.characterStart == Some(x.start) && r.characterEnd == Some(x.end);
        assert RegionOk(r, document.body, layout.pages);
      }
      hide WellFormed;
      MergedRangesCorrect(RangesOf(layout.regions));
      MergedRangesWithin(RangesOf(layout.regions), |document.body|);
      hide RangesOf;
      if ranges != [] {
        assert ranges[0] in ranges;
      }
      SeparatedRangesFrom(ranges, 0, |document.body|);
    }
  }

  function RawWindows(t: TextRules, p: ChunkingPolicy, document: RagDocument): seq<TextWindow>
    requires Sized(p) && AcceptedDocument(t, document)
  {
    var ranges := ProtectedRangesOf(p, document.layout);
    ProtectedRangesFit(t, p, document);
    if ranges != [] then RangedWindows(t, p, document.body, ranges, 0)
    else StrategyWindows(t, p, document.body)
  }

  method CreateTextWindows(t: TextRules, p: ChunkingPolicy, document: RagDocument) returns (windows: seq<TextWindow>)
    requires Sized(p) && AcceptedDocument(t, document)
    ensures windows == RawWindows(t, p, document)
  {
    ProtectedRangesFit(t, p, document);
    hide AcceptedDocument, RangedWindows, StrategyWindows, RangesFrom, Separated, RangesOf;
    var ranges := [];
    if p.preserveStructuredLayoutRegions == Some(true) && document.layout.Some? {
      ranges := MergeProtectedRanges(RangesOf(document.layout.value.regions));
    }
    if ranges != [] {
      windows := WindowsWithProtectedRanges(t, p, document.body, ranges);
    } else {
      windows := CreateUnprotectedTextWindows(t, p, document.body, 0);
      ShiftByZero(StrategyWindows(t, p, document.body));
    }
  }

  lemma ShiftByZero(ws: seq<TextWindow>)
    ensures ShiftAll(ws, 0) == ws
  {
  }

  /** Raw windows miss no text, keep document order, record their own text and fit the limit. */
  lemma RawWindowsGood(t: TextRules, p: ChunkingPolicy, document: RagDocument)
    requires Sized(p) && AcceptedDocument(t, document)
    ensures var ws := RawWindows(t, p, document);
      Good(t, p, document.body, ws, 0, |document.body|) && AtMost(ws, p.maxCharacters)
  {
    ProtectedRangesFit(t, p, document);
    hide AcceptedDocument, RangedWindows, StrategyWindows, RangesFrom, Separated, Good, AtMost;
    if ProtectedRangesOf(p, document.layout) != [] {
      RangedWindowsGood(t, p, document.body, ProtectedRangesOf(p, document.layout), 0);
    } else {
      StrategyWindowsGood(t, p, document.body);
    }
  }

  // ---- Final windows ----

  lemma KeptWindowsSound(t: TextRules, p: ChunkingPolicy, document: RagDocument)
    requires Sized(p) && AcceptedDocument(t, document)
    ensures var kept := DropFurniture(t, p, RawWindows(t, p, document));
      Sound(t, p, document.body, kept) && AllFit(document.body, kept)
  {
    hide AcceptedDocument, RawWindows, Placed, Covers, ShouldDrop;
    var raw := RawWindows(t, p, document);
    RawWindowsGood(t, p, document);
    var kept := DropFurniture(t, p, raw);
    DropFurnitureOrdered(t, p, raw);
    forall i | 0 <= i < |kept|
      ensures Placed(t, p, document.body, kept[i]) && 0 <= kept[i].start && kept[i].end <= |document.body|
      ensures |kept[i].text| <= p.maxCharacters
    {
      assert kept[i] in kept;
      var j :| 0 <= j < |raw| && raw[j] == kept[i];
    }
    SoundFits(t, p, document.body, kept);
  }

  function FinalWindows(t: TextRules, p: ChunkingPolicy, document: RagDocument): seq<TextWindow>
    requires Sized(p) && AcceptedDocument(t, document)
  {
    KeptWindowsSound(t, p, document);
    MergedWindows(t, p, document.body, DropFurniture(t, p, RawWindows(t, p, document)))
  }

  method NormalizeTextWindows(t: TextRules, p: ChunkingPolicy, document: RagDocument) returns (windows: seq<TextWindow>)
    requires Sized(p) && AcceptedDocument(t, document)
    ensures windows == FinalWindows(t, p, document)
  {
    hide AcceptedDocument, RawWindows, Sound, MergedWindows;
    KeptWindowsSound(t, p, document);
    var raw := CreateTextWindows(t, p, document);
    windows := MergeSmallWindows(t, p, document.body, DropFurniture(t, p, raw));
  }

  lemma FinalWindowsSound(t: TextRules, p: ChunkingPolicy, document: RagDocument)
    requires Sized(p) && AcceptedDocument(t, document)
    ensures Sound(t, p, document.body, FinalWindows(t, p, document))
  {
    hide AcceptedDocument, RawWindows, Sound, Finish, DropFurniture, Fits;
    KeptWindowsSound(t, p, document);
    var kept := DropFurniture(t, p, RawWindows(t, p, document));
    assert AsList(MergeState([], kept)) == kept;
    FinishSound(t, p, document.body, MergeState([], kept));
  }

  // ---- Chunks ----

  function ChunkId(t: TextRules, documentId: string, index: nat, textHash: string): string {
    "chunk_" + t.hash(documentId + ":" + Numeral(index) + ":" + textHash)
  }

  function FormatRange(name: string, start: nat, end: nat): string {
    if start == end then name + " " + Numeral(start) else name + "s " + Numeral(start) + "-" + Numeral(end)
  }

  /** Line breaks in the first k characters. */
  function LineBreaks(body: string, k: nat): nat
    requires k <= |body|
  {
    if k == 0 then 0 else LineBreaks(body, k - 1) + if body[k - 1] == '\n' then 1 else 0
  }

  function SafeIndex(body: string, index: int): (i: nat)
    ensures i <= |body| && (body != "" ==> i < |body|)
  {
    Max(0, Min(index, Max(0, |body| - 1)))
  }

  method LineNumberAt(body: string, index: int) returns (line: nat)
    ensures line == 1 + LineBreaks(body, SafeIndex(body, index))
  {
    var safeIndex := SafeIndex(body, index);
    line := 1;
    for i := 0 to safeIndex
      invariant line == 1 + LineBreaks(body, i)
    {
      if body[i] == '\n' {
        line := line + 1;
      }
    }
  }

  function ParagraphNumberAt(t: TextRules, body: string, index: int): nat {
    t.paragraphBreaks(body[..Min(|body|, SafeIndex(body, index) + 1)]) + 1
  }

  /** The window without surrounding whitespace, or the window itself when nothing else is left. */
  function ContentSpan(t: TextRules, body: string, w: TextWindow): Span
    requires Fits(body, w)
  {
    var start := SkipSpace(t, body, w.start, w.end);
    var end := SkipSpaceBack(t, body, start, w.end);
    if start >= end then Span(w.start, w.end) else Span(start, end)
  }

  function Locator(t: TextRules, p: ChunkingPolicy, body: string, w: TextWindow): string
    requires Fits(body, w)
  {
    var s := ContentSpan(t, body, w);
    match p.locatorStrategy
    case LineRange =>
      FormatRange("line", 1 + LineBreaks(body, SafeIndex(body, s.start)), 1 + LineBreaks(body, SafeIndex(body, s.end - 1)))
    case ParagraphRange =>
      FormatRange("paragraph", ParagraphNumberAt(t, body, s.start), ParagraphNumberAt(t, body, s.end - 1))
    case _ => "chars " + Numeral(w.start) + "-" + Numeral(w.end)
  }

  method BuildLocator(t: TextRules, p: ChunkingPolicy, body: string, w: TextWindow) returns (locator: string)
    requires Fits(body, w)
    ensures locator == Locator(t, p, body, w)
  {
    hide ContentSpan, Numeral, FormatRange, LineBreaks, ParagraphNumberAt, Fits;
    var s := ContentSpan(t, body, w);
    if p.locatorStrategy == LineRange {
      var first := LineNumberAt(body, s.start);
      var last := LineNumberAt(body, s.end - 1);
      return FormatRange("line", first, last);
    }
    if p.locatorStrategy == ParagraphRange {
      return FormatRange("paragraph", ParagraphNumberAt(t, body, s.start), ParagraphNumberAt(t, body, s.end - 1));
    }
    return "chars " + Numeral(w.start) + "-" + Numeral(w.end);
  }

  /** Math.max(1, Math.ceil(length / 4)). */
  function TokenEstimate(text: string): nat { Max(1, (|text| + 3) / 4) }

  function SafetyFlags(t: TextRules, p: ChunkingPolicy, text: string): seq<SafetyFlag> {
    if !p.detectSuspiciousText then []
    else
      When(t.looksInjected(text), PossiblePromptInjection) + When(t.looksSecret(text), SecretLikeText)
      + When(t.looksPersonal(text), SensitivePersonalData) + When(|text| > p.maxCharacters, OversizedChunk)
  }

  function ChunkOf(t: TextRules, p: ChunkingPolicy, document: RagDocument, w: TextWindow, index: nat): RagChunk
    requires Fits(document.body, w)
  {
    var textHash := t.hash(w.text);
    var id := ChunkId(t, document.id, index, textHash);
    var evidence := EvidenceFor(document.layout, w);
    RagChunk(id, document.id, document.namespaceId, w.text, index, textHash, w.start, w.end, TokenEstimate(w.text),
             evidence.layoutRegionIds, evidence.boundingBoxes, Some(SafetyFlags(t, p, w.text)), document.provenance,
             Citation(document.provenance.sourceId, id, document.title, Locator(t, p, document.body, w),
                      evidence.pageNumber, evidence.boundingBoxes, evidence.layoutRegionIds),
             document.accessScope)
  }

  function ChunksOf(t: TextRules, p: ChunkingPolicy, document: RagDocument, ws: seq<TextWindow>, k: nat): (chunks: seq<RagChunk>)
    requires k <= |ws| && AllFit(document.body, ws)
    ensures |chunks| == k
  {
    if k == 0 then []
    else ChunksOf(t, p, document, ws, k - 1) + [ChunkOf(t, p, document, ws[k - 1], k - 1)]
  }

  datatype Outcome =
    | InvalidPolicy(issues: seq<PolicyIssue>)
    | TooManyChunks(count: nat)
    | Chunked(chunks: seq<RagChunk>, emptyDocument: bool)

  function ChunkingOutcome(t: TextRules, p: ChunkingPolicy, document: RagDocument): Outcome
    requires AcceptedDocument(t, document)
  {
    if PolicyIssues(t, p) != [] then InvalidPolicy(PolicyIssues(t, p))
    else if IsBlank(t, document.body) then Chunked([], true)
    else
      ValidPolicyIsSized(t, p);
      var ws := FinalWindows(t, p, document);
      FinalWindowsSound(t, p, document);
      SoundFits(t, p, document.body, ws);
      if |ws| > p.maxChunksPerDocument then TooManyChunks(|ws|)
      else Chunked(ChunksOf(t, p, document, ws, |ws|), false)
  }

  method ChunkDocument(t: TextRules, p: ChunkingPolicy, document: RagDocument) returns (outcome: Outcome)
    requires AcceptedDocument(t, document)
    ensures outcome == ChunkingOutcome(t, p, document)
  {
    hide AcceptedDocument, PolicyIssues, FinalWindows, Sound, IsBlank, ChunkOf;
    var issues := PolicyIssues(t, p);
    if issues != [] {
      return InvalidPolicy(issues);
    }
    if IsBlank(t, document.body) {
      return Chunked([], true);
    }
    ValidPolicyIsSized(t, p);
    var windows := NormalizeTextWindows(t, p, document);
    FinalWindowsSound(t, p, document);
    SoundFits(t, p, document.body, windows);
    if |windows| > p.maxChunksPerDocument {
      return TooManyChunks(|windows|);
    }
    var chunks: seq<RagChunk> := [];
    for index := 0 to |windows|
      invariant chunks == ChunksOf(t, p, document, windows, index)
    {
      var chunk := BuildChunk(t, p, document, windows[index], index);
      chunks := chunks + [chunk];
    }
    return Chunked(chunks, false);
  }

  method BuildChunk(t: TextRules, p: ChunkingPolicy, document: RagDocument, w: TextWindow, index: nat) returns (chunk: RagChunk)
    requires Fits(document.body, w)
    ensures chunk == ChunkOf(t, p, document, w, index)
  {
    var textHash := t.hash(w.text);
    var id := ChunkId(t, document.id, index, textHash);
    var locator := BuildLocator(t, p, document.body, w);
    var evidence := LayoutEvidenceForWindow(document.layout, w);
    hide EvidenceFor, Locator, SafetyFlags;
    chunk := RagChunk(
      id, document.id, document.namespaceId, w.text, index, textHash, w.start, w.end, TokenEstimate(w.text),
      evidence.layoutRegionIds, evidence.boundingBoxes, Some(SafetyFlags(t, p, w.text)), document.provenance,
      Citation(document.provenance.sourceId, id, document.title, locator,
               evidence.pageNumber, evidence.boundingBoxes, evidence.layoutRegionIds),
      document.accessScope);
  }
}
