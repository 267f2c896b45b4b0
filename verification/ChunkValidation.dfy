/** The independent chunk validator. It knows nothing of how chunks are cut. */
module ChunkValidation {
  import opened Text
  import opened ChunkPolicy
  import opened Layout
  import opened Chunk

  datatype ChunkIssue =
    | EmptyChunk | DocumentMismatch | NamespaceMismatch | AccessScopeMismatch | ProvenanceMismatch
    | CitationMismatch | InvalidCharacterRange | SourceRangeMismatch | InvalidChunkSize | HashMismatch
    | MissingSafetyFlags
    | InvalidLayoutReference | LayoutCitationMismatch | InvalidLayoutBox

  type ChunkIssues = seq<ChunkIssue>

  /** Pages by number; a later page of the same number replaces an earlier one. */
  function PagesByNumber(pages: seq<LayoutPage>, k: nat): map<int, LayoutPage>
    requires k <= |pages|
  {
    if k == 0 then map[] else PagesByNumber(pages, k - 1)[pages[k - 1].pageNumber := pages[k - 1]]
  }

  function BoxIssue(box: LayoutBox, pages: map<int, LayoutPage>): ChunkIssues {
    if box.pageNumber !in pages then [InvalidLayoutBox]
    else if box.x < 0.0 || box.y < 0.0 || box.width <= 0.0 || box.height <= 0.0 then [InvalidLayoutBox]
    else if box.unit == Normalized then
      When(box.x + box.width > 1.0 + EPSILON || box.y + box.height > 1.0 + EPSILON, InvalidLayoutBox)
    else
      var page := pages[box.pageNumber];
      if box.unit != page.unit then [InvalidLayoutBox]
      else When(box.x + box.width > page.width || box.y + box.height > page.height, InvalidLayoutBox)
  }

  function BoxesIssues(boxes: seq<LayoutBox>, pages: map<int, LayoutPage>, k: nat): ChunkIssues
    requires k <= |boxes|
  {
    if k == 0 then [] else BoxesIssues(boxes, pages, k - 1) + BoxIssue(boxes[k - 1], pages)
  }

  function KnownIds(regions: seq<LayoutRegion>): set<string> { set r | r in regions :: r.id }

  function UnknownIdIssues(ids: seq<string>, known: set<string>, k: nat): ChunkIssues
    requires k <= |ids|
  {
    if k == 0 then []
    else UnknownIdIssues(ids, known, k - 1) + When(ids[k - 1] !in known, InvalidLayoutReference)
  }

  function LayoutEvidenceIssues(chunk: RagChunk, layout: Option<DocumentLayout>): ChunkIssues {
    var c := chunk.citation;
    if layout.None? then
      When(|chunk.layoutRegionIds| > 0 || |c.layoutRegionIds| > 0 || |chunk.boundingBoxes| > 0
           || |c.boundingBoxes| > 0 || c.pageNumber.Some?, InvalidLayoutReference)
    else
      var known := KnownIds(layout.value.regions);
      var pages := PagesByNumber(layout.value.pages, |layout.value.pages|);
      UnknownIdIssues(chunk.layoutRegionIds, known, |chunk.layoutRegionIds|)
      + UnknownIdIssues(c.layoutRegionIds, known, |c.layoutRegionIds|)
      + When(chunk.layoutRegionIds != c.layoutRegionIds, LayoutCitationMismatch)
      + BoxesIssues(chunk.boundingBoxes, pages, |chunk.boundingBoxes|)
      + BoxesIssues(c.boundingBoxes, pages, |c.boundingBoxes|)
      + (When(chunk.boundingBoxes != c.boundingBoxes, LayoutCitationMismatch)
         + When(c.pageNumber.Some? && c.pageNumber.value !in pages, InvalidLayoutReference))
  }

  predicate RangeValid(chunk: RagChunk, document: RagDocument) {
    0 <= chunk.characterStart < chunk.characterEnd <= |document.body|
  }

  function OwnerIssues(chunk: RagChunk, document: RagDocument): ChunkIssues {
    When(chunk.documentId != document.id, DocumentMismatch)
    + When(chunk.namespaceId != document.namespaceId, NamespaceMismatch)
    + When(chunk.accessScope.tenantId != document.accessScope.tenantId
           || chunk.accessScope.namespaceId != document.accessScope.namespaceId, AccessScopeMismatch)
    + When(chunk.provenance.sourceId != document.provenance.sourceId
           || chunk.provenance.trustTier != document.provenance.trustTier, ProvenanceMismatch)
    + When(chunk.citation.chunkId != chunk.id || chunk.citation.sourceId != document.provenance.sourceId
           || chunk.citation.locator == "", CitationMismatch)
  }

  function TextIssues(t: TextRules, chunk: RagChunk, document: RagDocument, p: ChunkingPolicy): ChunkIssues {
    When(!RangeValid(chunk, document), InvalidCharacterRange)
    + When(RangeValid(chunk, document) && document.body[chunk.characterStart..chunk.characterEnd] != chunk.text,
           SourceRangeMismatch)
    + When(|chunk.text| > p.maxCharacters, InvalidChunkSize)
    + When(p.includeTextHash && chunk.textHash != t.hash(chunk.text), HashMismatch)
    + When(chunk.safetyFlags.None?, MissingSafetyFlags)
  }

  function ChunkIssuesOf(t: TextRules, chunk: RagChunk, document: RagDocument, p: ChunkingPolicy): ChunkIssues {
    When(IsBlank(t, chunk.text), EmptyChunk)
    + OwnerIssues(chunk, document)
    + TextIssues(t, chunk, document, p)
    + LayoutEvidenceIssues(chunk, document.layout)
  }

  /** validateChunks: the issues of every chunk, in order. */
  function AllChunkIssues(t: TextRules, chunks: seq<RagChunk>, document: RagDocument, p: ChunkingPolicy): ChunkIssues {
    if chunks == [] then []
    else ChunkIssuesOf(t, chunks[0], document, p) + AllChunkIssues(t, chunks[1..], document, p)
  }

  /** The list that the validator's helpers push to. */
  class IssueLog {
    var issues: ChunkIssues

    constructor ()
      ensures issues == []
    {
      issues := [];
    }

    method Push(condition: bool, issue: ChunkIssue)
      modifies this
      ensures issues == old(issues) + When(condition, issue)
    {
      if condition {
        issues := issues + [issue];
      }
    }

    method ValidateOwner(chunk: RagChunk, document: RagDocument)
      modifies this
      ensures issues == old(issues) + OwnerIssues(chunk, document)
    {
      hide When;
      var scope := chunk.accessScope.tenantId != document.accessScope.tenantId
                   || chunk.accessScope.namespaceId != document.accessScope.namespaceId;
      var source := chunk.provenance.sourceId != document.provenance.sourceId
                    || chunk.provenance.trustTier != document.provenance.trustTier;
      var citation := chunk.citation.chunkId != chunk.id || chunk.citation.sourceId != document.provenance.sourceId
                      || chunk.citation.locator == "";
      Push(chunk.documentId != document.id, DocumentMismatch);
      Push(chunk.namespaceId != document.namespaceId, NamespaceMismatch);
      Push(scope, AccessScopeMismatch);
      Push(source, ProvenanceMismatch);
      Push(citation, CitationMismatch);
      Append5(old(issues), When(chunk.documentId != document.id, DocumentMismatch),
              When(chunk.namespaceId != document.namespaceId, NamespaceMismatch),
              When(scope, AccessScopeMismatch), When(source, ProvenanceMismatch), When(citation, CitationMismatch));
    }

    method ValidateText(t: TextRules, chunk: RagChunk, document: RagDocument, p: ChunkingPolicy)
      modifies this
      ensures issues == old(issues) + TextIssues(t, chunk, document, p)
    {
      hide When;
      var range := RangeValid(chunk, document);
      var differs := range && document.body[chunk.characterStart..chunk.characterEnd] != chunk.text;
      var hash := p.includeTextHash && chunk.textHash != t.hash(chunk.text);
      Push(!range, InvalidCharacterRange);
      Push(differs, SourceRangeMismatch);
      Push(|chunk.text| > p.maxCharacters, InvalidChunkSize);
      Push(hash, HashMismatch);
      Push(chunk.safetyFlags.None?, MissingSafetyFlags);
      Append5(old(issues), When(!range, InvalidCharacterRange), When(differs, SourceRangeMismatch),
              When(|chunk.text| > p.maxCharacters, InvalidChunkSize), When(hash, HashMismatch),
              When(chunk.safetyFlags.None?, MissingSafetyFlags));
    }

    method ValidateBoxes(boxes: seq<LayoutBox>, pages: map<int, LayoutPage>)
      modifies this
      ensures issues == old(issues) + BoxesIssues(boxes, pages, |boxes|)
    {
      for k := 0 to |boxes|
        invariant issues == old(issues) + BoxesIssues(boxes, pages, k)
      {
        hide BoxesIssues, When;
        BoxesStep(boxes, pages, k, old(issues));
        var box := boxes[k];
        if box.pageNumber !in pages {
          issues := issues + [InvalidLayoutBox];
        } else if box.x < 0.0 || box.y < 0.0 || box.width <= 0.0 || box.height <= 0.0 {
          issues := issues + [InvalidLayoutBox];
        } else if box.unit == Normalized {
          Push(box.x + box.width > 1.0 + EPSILON || box.y + box.height > 1.0 + EPSILON, InvalidLayoutBox);
        } else {
          var page := pages[box.pageNumber];
          if box.unit != page.unit {
            issues := issues + [InvalidLayoutBox];
          } else {
            Push(box.x + box.width > page.width || box.y + box.height > page.height, InvalidLayoutBox);
          }
        }
      }
    }

    method ValidateIds(ids: seq<string>, known: set<string>)
      modifies this
      ensures issues == old(issues) + UnknownIdIssues(ids, known, |ids|)
    {
      for k := 0 to |ids|
        invariant issues == old(issues) + UnknownIdIssues(ids, known, k)
      {
        hide When;
        ConcatAssoc(old(issues), UnknownIdIssues(ids, known, k), When(ids[k] !in known, InvalidLayoutReference));
        Push(ids[k] !in known, InvalidLayoutReference);
      }
    }

    method ValidateLayoutEvidence(chunk: RagChunk, layout: Option<DocumentLayout>)
      modifies this
      ensures issues == old(issues) + LayoutEvidenceIssues(chunk, layout)
    {
      hide When, BoxesIssues, UnknownIdIssues, PagesByNumber, KnownIds;
      var c := chunk.citation;
      if layout.None? {
        Push(|chunk.layoutRegionIds| > 0 || |c.layoutRegionIds| > 0 || |chunk.boundingBoxes| > 0
             || |c.boundingBoxes| > 0 || c.pageNumber.Some?, InvalidLayoutReference);
        return;
      }
      var known := KnownIds(layout.value.regions);
      var pages := CollectPages(layout.value.pages);
      var badPage := c.pageNumber.Some? && c.pageNumber.value !in pages;
      ValidateIds(chunk.layoutRegionIds, known);
      ValidateIds(c.layoutRegionIds, known);
      Push(chunk.layoutRegionIds != c.layoutRegionIds, LayoutCitationMismatch);
      ValidateBoxes(chunk.boundingBoxes, pages);
      ValidateBoxes(c.boundingBoxes, pages);
      ghost var before := issues;
      Push(chunk.boundingBoxes != c.boundingBoxes, LayoutCitationMismatch);
      Push(badPage, InvalidLayoutReference);
      ghost var last, page := When(chunk.boundingBoxes != c.boundingBoxes, LayoutCitationMismatch), When(badPage, InvalidLayoutReference);
      ConcatAssoc(before, last, page);
      Append6(old(issues),
              UnknownIdIssues(chunk.layoutRegionIds, known, |chunk.layoutRegionIds|),
              UnknownIdIssues(c.layoutRegionIds, known, |c.layoutRegionIds|),
              When(chunk.layoutRegionIds != c.layoutRegionIds, LayoutCitationMismatch),
              BoxesIssues(chunk.boundingBoxes, pages, |chunk.boundingBoxes|),
              BoxesIssues(c.boundingBoxes, pages, |c.boundingBoxes|),
              last + page);
    }
  }

  lemma BoxesStep(boxes: seq<LayoutBox>, pages: map<int, LayoutPage>, k: nat, before: ChunkIssues)
    requires k < |boxes|
    ensures before + BoxesIssues(boxes, pages, k + 1)
         == before + BoxesIssues(boxes, pages, k) + BoxIssue(boxes[k], pages)
  {
    hide BoxIssue;
    ConcatAssoc(before, BoxesIssues(boxes, pages, k), BoxIssue(boxes[k], pages));
  }

  method CollectPages(pages: seq<LayoutPage>) returns (m: map<int, LayoutPage>)
    ensures m == PagesByNumber(pages, |pages|)
  {
    m := map[];
    for k := 0 to |pages|
      invariant m == PagesByNumber(pages, k)
    {
      m := m[pages[k].pageNumber := pages[k]];
    }
  }

  method ValidateChunk(t: TextRules, chunk: RagChunk, document: RagDocument, p: ChunkingPolicy)
    returns (issues: ChunkIssues)
    ensures issues == ChunkIssuesOf(t, chunk, document, p)
  {
    hide When, OwnerIssues, TextIssues, LayoutEvidenceIssues, IsBlank;
    var log := new IssueLog();
    log.Push(IsBlank(t, chunk.text), EmptyChunk);
    log.ValidateOwner(chunk, document);
    log.ValidateText(t, chunk, document, p);
    log.ValidateLayoutEvidence(chunk, document.layout);
    issues := log.issues;
  }

  method ValidateChunks(t: TextRules, chunks: seq<RagChunk>, document: RagDocument, p: ChunkingPolicy)
    returns (valid: bool, issues: ChunkIssues)
    ensures issues == AllChunkIssues(t, chunks, document, p) && (valid <==> issues == [])
  {
    hide ChunkIssuesOf;
    issues := [];
    for k := 0 to |chunks|
      invariant issues + AllChunkIssues(t, chunks[k..], document, p) == AllChunkIssues(t, chunks, document, p)
    {
      assert chunks[k..][1..] == chunks[k + 1..];
      var found := ValidateChunk(t, chunks[k], document, p);
      ConcatAssoc(issues, found, AllChunkIssues(t, chunks[k + 1..], document, p));
      issues := issues + found;
    }
    valid := issues == [];
  }

  lemma {:induction false} AllChunkIssuesEmpty(t: TextRules, chunks: seq<RagChunk>, document: RagDocument, p: ChunkingPolicy)
    ensures AllChunkIssues(t, chunks, document, p) == [] <==>
      forall i :: 0 <= i < |chunks| ==> ChunkIssuesOf(t, chunks[i], document, p) == []
  {
    hide ChunkIssuesOf;
    if chunks != [] {
      AllChunkIssuesEmpty(t, chunks[1..], document, p);
      assert forall i :: 1 <= i < |chunks| ==> chunks[i] == chunks[1..][i - 1];
      assert forall i :: 0 <= i < |chunks[1..]| ==> chunks[1..][i] == chunks[i + 1];
    }
  }

  // ---- What a sound chunk is ----

  /** The chunk is an exact slice of the body, with text, within the limit, truly hashed and flagged. */
  ghost predicate SliceOk(t: TextRules, chunk: RagChunk, document: RagDocument, p: ChunkingPolicy) {
    && 0 <= chunk.characterStart < chunk.characterEnd <= |document.body|
    && document.body[chunk.characterStart..chunk.characterEnd] == chunk.text
    && !IsBlank(t, chunk.text) && |chunk.text| <= p.maxCharacters
    && (p.includeTextHash ==> chunk.textHash == t.hash(chunk.text)) && chunk.safetyFlags.Some?
  }

  /** The chunk carries its document's id, namespace, scope and origin, and cites itself. */
  predicate OwnerOk(chunk: RagChunk, document: RagDocument) {
    && chunk.documentId == document.id && chunk.namespaceId == document.namespaceId
    && chunk.accessScope == document.accessScope && chunk.provenance == document.provenance
    && chunk.citation.chunkId == chunk.id && chunk.citation.sourceId == document.provenance.sourceId
    && chunk.citation.locator != ""
  }

  /** The box lies inside the last page of its number. */
  ghost predicate BoxInside(box: LayoutBox, pages: seq<LayoutPage>) {
    exists i :: LastPage(pages, box.pageNumber, i) && BoxInPage(box, pages[i])
  }

  predicate LastPage(pages: seq<LayoutPage>, n: int, i: int) {
    0 <= i < |pages| && pages[i].pageNumber == n && forall j :: i < j < |pages| ==> pages[j].pageNumber != n
  }

  /** The citation repeats the chunk's evidence, whose regions and pages are the layout's and whose
      boxes lie inside their pages; without a layout there is no evidence. */
  ghost predicate EvidenceOk(chunk: RagChunk, layout: Option<DocumentLayout>) {
    var c := chunk.citation;
    && c.layoutRegionIds == chunk.layoutRegionIds && c.boundingBoxes == chunk.boundingBoxes
    && if layout.None? then chunk.layoutRegionIds == [] && chunk.boundingBoxes == [] && c.pageNumber.None?
       else
         && (forall id :: id in chunk.layoutRegionIds ==> HasRegion(layout.value.regions, id))
         && (forall box :: box in chunk.boundingBoxes ==> BoxInside(box, layout.value.pages))
         && (c.pageNumber.Some? ==> HasPage(layout.value.pages, c.pageNumber.value))
  }

  ghost predicate ChunkOk(t: TextRules, chunk: RagChunk, document: RagDocument, p: ChunkingPolicy) {
    SliceOk(t, chunk, document, p) && OwnerOk(chunk, document) && EvidenceOk(chunk, document.layout)
  }

  lemma OwnerMeaning(chunk: RagChunk, document: RagDocument)
    ensures OwnerIssues(chunk, document) == [] <==> OwnerOk(chunk, document)
  {
  }

  lemma SliceMeaning(t: TextRules, chunk: RagChunk, document: RagDocument, p: ChunkingPolicy)
    ensures TextIssues(t, chunk, document, p) == [] && !IsBlank(t, chunk.text) <==> SliceOk(t, chunk, document, p)
  {
    hide IsBlank;
  }

  /** The page table holds, for every number, the last page of that number. */
  lemma {:induction false} PagesByNumberMeaning(pages: seq<LayoutPage>, k: nat, n: int)
    requires k <= |pages|
    ensures var m := PagesByNumber(pages, k);
      && (n in m <==> HasPage(pages[..k], n))
      && forall i :: LastPage(pages[..k], n, i) ==> n in m && m[n] == pages[i]
    ensures n in PagesByNumber(pages, k) ==> exists i :: LastPage(pages[..k], n, i)
  {
    if k > 0 {
      PagesByNumberMeaning(pages, k - 1, n);
      var before, last := pages[..k - 1], pages[k - 1];
      assert pages[..k] == before + [last];
      if last.pageNumber == n {
        assert LastPage(pages[..k], n, k - 1);
        assert last in pages[..k];
      } else {
        forall i ensures LastPage(pages[..k], n, i) <==> LastPage(before, n, i) {}
        forall page | page in pages[..k] && page.pageNumber == n ensures page in before {}
      }
    }
  }

  lemma BoxMeaning(box: LayoutBox, pages: seq<LayoutPage>)
    ensures BoxIssue(box, PagesByNumber(pages, |pages|)) == [] <==> BoxInside(box, pages)
  {
    hide PagesByNumber;
    PagesByNumberMeaning(pages, |pages|, box.pageNumber);
    assert pages[..|pages|] == pages;
  }

  lemma {:induction false} BoxesMeaning(boxes: seq<LayoutBox>, pages: map<int, LayoutPage>, k: nat)
    requires k <= |boxes|
    ensures BoxesIssues(boxes, pages, k) == [] <==> forall i :: 0 <= i < k ==> BoxIssue(boxes[i], pages) == []
  {
    hide BoxIssue;
    if k > 0 { BoxesMeaning(boxes, pages, k - 1); }
  }

  lemma {:induction false} IdsMeaning(ids: seq<string>, known: set<string>, k: nat)
    requires k <= |ids|
    ensures UnknownIdIssues(ids, known, k) == [] <==> forall i :: 0 <= i < k ==> ids[i] in known
  {
    if k > 0 { IdsMeaning(ids, known, k - 1); }
  }

  lemma AllBoxesMeaning(boxes: seq<LayoutBox>, pages: seq<LayoutPage>)
    ensures BoxesIssues(boxes, PagesByNumber(pages, |pages|), |boxes|) == []
      <==> forall box :: box in boxes ==> BoxInside(box, pages)
  {
    hide BoxIssue, BoxInside, PagesByNumber;
    BoxesMeaning(boxes, PagesByNumber(pages, |pages|), |boxes|);
    hide BoxesIssues;
    forall box ensures BoxIssue(box, PagesByNumber(pages, |pages|)) == [] <==> BoxInside(box, pages) { BoxMeaning(box, pages); }
  }

  lemma AllIdsMeaning(ids: seq<string>, regions: seq<LayoutRegion>)
    ensures UnknownIdIssues(ids, KnownIds(regions), |ids|) == [] <==> forall id :: id in ids ==> HasRegion(regions, id)
  {
    IdsMeaning(ids, KnownIds(regions), |ids|);
    hide UnknownIdIssues;
    assert forall id :: id in KnownIds(regions) <==> HasRegion(regions, id);
  }

  lemma EvidenceMeaning(chunk: RagChunk, layout: Option<DocumentLayout>)
    ensures LayoutEvidenceIssues(chunk, layout) == [] <==> EvidenceOk(chunk, layout)
  {
    if layout.Some? {
      var pages, regions := layout.value.pages, layout.value.regions;
      AllIdsMeaning(chunk.layoutRegionIds, regions);
      AllIdsMeaning(chunk.citation.layoutRegionIds, regions);
      AllBoxesMeaning(chunk.boundingBoxes, pages);
      AllBoxesMeaning(chunk.citation.boundingBoxes, pages);
      if chunk.citation.pageNumber.Some? {
        PagesByNumberMeaning(pages, |pages|, chunk.citation.pageNumber.value);
        assert pages[..|pages|] == pages;
      }
    }
    hide UnknownIdIssues, BoxesIssues, PagesByNumber, KnownIds, BoxInside, HasRegion, HasPage;
  }

  /** The validator reports nothing exactly when the chunk is sound, stated without its tables. */
  lemma ChunkValidIffOk(t: TextRules, chunk: RagChunk, document: RagDocument, p: ChunkingPolicy)
    ensures ChunkIssuesOf(t, chunk, document, p) == [] <==> ChunkOk(t, chunk, document, p)
  {
    OwnerMeaning(chunk, document);
    SliceMeaning(t, chunk, document, p);
    EvidenceMeaning(chunk, document.layout);
    hide OwnerIssues, TextIssues, LayoutEvidenceIssues, OwnerOk, SliceOk, EvidenceOk, IsBlank;
  }
}
