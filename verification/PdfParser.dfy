/** The PDF parser script: page texts to a body, with one region per line that is not blank. */
module PdfParser {
  import opened Text
  import opened Decimal
  import opened Layout
  import opened LayoutValidator
  import opened LayoutSoundness
  import opened PythonStrings
  import opened ParsedRegions
  import opened ChunkPolicy
  import opened Chunk
  import opened ChunkValidation
  import opened Chunker
  import opened ChunkerProofs

  /** A page as extracted; pages are numbered from one in the order of the file. */
  datatype PdfPage = PdfPage(width: real, height: real, text: string)

  datatype PageLine = PageLine(start: nat, end: nat, text: string)

  // ---- non_empty_lines ----

  /** The content of a raw line and how many characters come before it. */
  function Content(py: Python, raw: string): (r: (nat, string)) {
    var bare := RStrip(IsLineEnd, raw);
    var left := LStrip(py.isSpace, bare);
    (|bare| - |left|, RStrip(py.isSpace, left))
  }

  /** The trimmed line that the raw line at `at` holds, if it is not blank. */
  function LineOf(py: Python, raw: string, at: nat): seq<PageLine> {
    var (skipped, text) := Content(py, raw);
    if text == "" then [] else [PageLine(at + skipped, at + skipped + |text|, text)]
  }

  function LinesUpTo(py: Python, raws: seq<string>, k: nat): seq<PageLine>
    requires k <= |raws|
  {
    if k == 0 then [] else LinesUpTo(py, raws, k - 1) + LineOf(py, raws[k - 1], LengthOf(raws, k - 1))
  }

  function Lines(py: Python, text: string): seq<PageLine> {
    var raws := SplitLines(py, text);
    LinesUpTo(py, raws, |raws|)
  }

  method NonEmptyLines(py: Python, text: string) returns (lines: seq<PageLine>)
    ensures lines == Lines(py, text)
  {
    hide SplitLines, Content;
    lines := [];
    var lineStart := 0;
    var raws := SplitLines(py, text);
    for k := 0 to |raws|
      invariant lineStart == LengthOf(raws, k)
      invariant lines == LinesUpTo(py, raws, k)
    {
      var (skipped, content) := Content(py, raws[k]);
      if content != "" {
        var start := lineStart + skipped;
        lines := lines + [PageLine(start, start + |content|, content)];
      }
      lineStart := lineStart + |raws[k]|;
    }
  }

  /** A line is a slice of the text and neither starts nor ends with whitespace. */
  ghost predicate Exact(py: Python, text: string, l: PageLine) {
    && l.start < l.end <= |text| && text[l.start..l.end] == l.text
    && !py.isSpace(text[l.start]) && !py.isSpace(text[l.end - 1])
  }

  ghost predicate Covers(lines: seq<PageLine>, pos: nat) {
    exists l :: l in lines && l.start <= pos < l.end
  }

  /** The content is the slice of the raw line between its first and last visible character. */
  lemma ContentSlice(py: Python, raw: string)
    ensures var (skipped, text) := Content(py, raw);
      && skipped + |text| <= |raw| && raw[skipped..skipped + |text|] == text
      && (text != "" ==> !py.isSpace(text[0]) && !py.isSpace(text[|text| - 1]))
  {
    var bare := RStrip(IsLineEnd, raw);
    var left := LStrip(py.isSpace, bare);
    var right := RStrip(py.isSpace, left);
    hide RStrip, LStrip;
    var skipped := |bare| - |left|;
    SliceWithin(raw, 0, |bare|, skipped, skipped + |right|);
    SliceWithin(bare, skipped, |bare|, 0, |right|);
    if right != "" {
      assert right[0] == left[0];
    }
  }

  lemma ContentComplete(py: Python, raw: string, i: nat)
    requires LineEndsAreSpace(py) && i < |raw| && !py.isSpace(raw[i])
    ensures var (skipped, text) := Content(py, raw); skipped <= i < skipped + |text|
  {
    var bare := RStrip(IsLineEnd, raw);
    assert !IsLineEnd(raw[i]);
    assert i < |bare| && bare[i] == raw[i];
    var left := LStrip(py.isSpace, bare);
    var skipped := |bare| - |left|;
    assert skipped <= i && left[i - skipped] == bare[i];
  }

  lemma LineOfExact(py: Python, text: string, raw: string, at: nat)
    requires at + |raw| <= |text| && text[at..at + |raw|] == raw
    ensures forall l :: l in LineOf(py, raw, at) ==> Exact(py, text, l) && at <= l.start && l.end <= at + |raw|
  {
    ContentSlice(py, raw);
    var (skipped, content) := Content(py, raw);
    hide Content;
    if content != "" {
      SliceOfSlice(text, at, raw, skipped, skipped + |content|);
      assert text[at + skipped] == content[0];
      assert text[at + skipped + |content| - 1] == content[|content| - 1];
    }
  }

  lemma LineOfCovers(py: Python, text: string, raw: string, at: nat, pos: nat)
    requires LineEndsAreSpace(py) && at + |raw| <= |text| && text[at..at + |raw|] == raw
    requires at <= pos < at + |raw| && !py.isSpace(text[pos])
    ensures Covers(LineOf(py, raw, at), pos)
  {
    hide Content, LineEndsAreSpace;
    assert raw[pos - at] == text[pos];
    ContentComplete(py, raw, pos - at);
    var (skipped, content) := Content(py, raw);
    assert LineOf(py, raw, at)[0] == PageLine(at + skipped, at + skipped + |content|, content);
  }

  lemma {:induction false} LinesUpToExact(py: Python, text: string, k: nat)
    requires k <= |SplitLines(py, text)|
    ensures var raws := SplitLines(py, text); var lines := LinesUpTo(py, raws, k);
      && (forall l :: l in lines ==> Exact(py, text, l) && l.end <= LengthOf(raws, k))
      && (forall i, j :: 0 <= i < j < |lines| ==> lines[i].end <= lines[j].start)
  {
    hide SplitLines, Exact, LineOf;
    if k > 0 {
      var raws := SplitLines(py, text);
      LinesUpToExact(py, text, k - 1);
      SplitLinesAt(py, text, k - 1);
      LineOfExact(py, text, raws[k - 1], LengthOf(raws, k - 1));
      AtMostOne(py, raws[k - 1], LengthOf(raws, k - 1));
    }
  }

  lemma AtMostOne(py: Python, raw: string, at: nat)
    ensures |LineOf(py, raw, at)| <= 1
  {
  }

  /** The lines of a page are exact slices, in order and disjoint. */
  lemma LinesExact(py: Python, text: string)
    ensures var lines := Lines(py, text);
      && (forall l :: l in lines ==> Exact(py, text, l))
      && (forall i, j :: 0 <= i < j < |lines| ==> lines[i].end <= lines[j].start)
  {
    hide SplitLines, Exact, LinesUpTo;
    LinesUpToExact(py, text, |SplitLines(py, text)|);
  }

  lemma {:induction false} LinesUpToCover(py: Python, text: string, k: nat, pos: nat)
    requires LineEndsAreSpace(py) && k <= |SplitLines(py, text)|
    requires pos < |text| && pos < LengthOf(SplitLines(py, text), k) && !py.isSpace(text[pos])
    ensures Covers(LinesUpTo(py, SplitLines(py, text), k), pos)
  {
    hide SplitLines, LineOf, LineEndsAreSpace;
    if k > 0 {
      var raws := SplitLines(py, text);
      var at := LengthOf(raws, k - 1);
      if pos < at {
        LinesUpToCover(py, text, k - 1, pos);
        var l :| l in LinesUpTo(py, raws, k - 1) && l.start <= pos < l.end;
        assert l in LinesUpTo(py, raws, k);
      } else {
        SplitLinesAt(py, text, k - 1);
        LineOfCovers(py, text, raws[k - 1], at, pos);
        var l :| l in LineOf(py, raws[k - 1], at) && l.start <= pos < l.end;
        assert l in LinesUpTo(py, raws, k);
      }
    }
  }

  /** Every character of a page that is not whitespace is in one of its lines. */
  lemma LinesCover(py: Python, text: string, pos: nat)
    requires LineEndsAreSpace(py) && pos < |text| && !py.isSpace(text[pos])
    ensures Covers(Lines(py, text), pos)
  {
    SplitLinesCover(py, text);
    LinesUpToCover(py, text, |SplitLines(py, text)|, pos);
  }

  // ---- build_body_and_regions ----

  const PAGE_BREAK := "\n\n"

  function Texts(pages: seq<PdfPage>): (texts: seq<string>)
    ensures |texts| == |pages| && forall i :: 0 <= i < |texts| ==> texts[i] == pages[i].text
  {
    seq(|pages|, i requires 0 <= i < |pages| => pages[i].text)
  }

  function CountBars(text: string): nat {
    if text == "" then 0 else CountBars(text[..|text| - 1]) + (if text[|text| - 1] == '|' then 1 else 0)
  }

  function KindOf(py: Python, text: string): RegionKind {
    if CountBars(text) >= 2 then Table
    else if |text| <= 120 && py.isUpper(text) then Heading
    else RegionKind.Paragraph
  }

  function RegionId(pageNumber: nat, index: nat): string {
    "page_" + Numeral(pageNumber) + "_region_" + Numeral(index)
  }

  function RegionOf(py: Python, pageNumber: nat, pageStart: nat, l: PageLine, index: nat): LayoutRegion {
    LayoutRegion(RegionId(pageNumber, index), KindOf(py, l.text), pageNumber, None, Some(l.text),
                 Some(pageStart + l.start), Some(pageStart + l.end), None, [], None)
  }

  function RegionsOf(py: Python, pageNumber: nat, pageStart: nat, lines: seq<PageLine>, index: nat): (regions: seq<LayoutRegion>)
    ensures |regions| == |lines|
    ensures forall i :: 0 <= i < |lines| ==> regions[i] == RegionOf(py, pageNumber, pageStart, lines[i], index + i)
  {
    seq(|lines|, i requires 0 <= i < |lines| => RegionOf(py, pageNumber, pageStart, lines[i], index + i))
  }

  /** The regions of the first k pages; region numbers run on from page to page. */
  function RegionsUpTo(py: Python, texts: seq<string>, k: nat): seq<LayoutRegion>
    requires k <= |texts|
  {
    if k == 0 then []
    else
      var before := RegionsUpTo(py, texts, k - 1);
      before + RegionsOf(py, k, StartOf(PAGE_BREAK, texts, k - 1), Lines(py, texts[k - 1]), |before| + 1)
  }

  function BodyOf(pages: seq<PdfPage>): string { Joined(PAGE_BREAK, Texts(pages)) }

  method BuildBodyAndRegions(py: Python, pages: seq<PdfPage>) returns (body: string, regions: seq<LayoutRegion>)
    ensures body == BodyOf(pages)
    ensures regions == RegionsUpTo(py, Texts(pages), |pages|)
  {
    hide Lines, RegionOf;
    ghost var texts := Texts(pages);
    var bodyParts: seq<string> := [];
    regions := [];
    var offset, regionIndex := 0, 1;
    for k := 0 to |pages|
      invariant bodyParts == texts[..k]
      invariant regions == RegionsUpTo(py, texts, k) && regionIndex == |regions| + 1
      invariant offset + (if k == 0 then 0 else 2) == StartOf(PAGE_BREAK, texts, k)
    {
      if bodyParts != [] {
        offset := offset + 2;
      }
      var pageText := pages[k].text;
      var pageStart := offset;
      bodyParts := bodyParts + [pageText];
      var lines := NonEmptyLines(py, pageText);
      ghost var before := regions;
      for i := 0 to |lines|
        invariant |regions| == |before| + i && regionIndex == |regions| + 1
        invariant regions == before + RegionsOf(py, k + 1, pageStart, lines, |before| + 1)[..i]
      {
        regions := regions + [RegionOf(py, k + 1, pageStart, lines[i], regionIndex)];
        regionIndex := regionIndex + 1;
      }
      offset := offset + |pageText|;
    }
    assert texts[..|pages|] == texts;
    body := Joined(PAGE_BREAK, bodyParts);
  }

  // ---- The layout ----

  function RealMax(a: real, b: real): real { if a >= b then a else b }

  function LayoutPageOf(page: PdfPage, number: nat): LayoutPage {
    LayoutPage(number, RealMax(1.0, page.width), RealMax(1.0, page.height), Point, None)
  }

  function LayoutPagesOf(pages: seq<PdfPage>): (result: seq<LayoutPage>)
    ensures pages == [] ==> result == [LayoutPage(1, 1.0, 1.0, Point, None)]
    ensures pages != [] ==> |result| == |pages|
    ensures pages != [] ==> forall i :: 0 <= i < |pages| ==> result[i] == LayoutPageOf(pages[i], i + 1)
  {
    if pages == [] then [LayoutPage(1, 1.0, 1.0, Point, None)]
    else seq(|pages|, i requires 0 <= i < |pages| => LayoutPageOf(pages[i], i + 1))
  }

  function LayoutOf(py: Python, pages: seq<PdfPage>): DocumentLayout {
    DocumentLayout("pdf-rag-parser", TextExtraction, LayoutPagesOf(pages),
                   RegionsUpTo(py, Texts(pages), |pages|), [], [], [])
  }

  datatype PdfWarning = PdfplumberMissing | PdfplumberFailed | TextLayerEmpty

  /** `extraction` are the warnings that came with the extracted pages. */
  method ParsePdf(py: Python, pages: seq<PdfPage>, extraction: seq<PdfWarning>)
    returns (body: string, layout: DocumentLayout, warnings: seq<PdfWarning>)
    ensures body == BodyOf(pages) && layout == LayoutOf(py, pages)
    ensures warnings == extraction + When(StripsToNothing(py, body), TextLayerEmpty)
  {
    hide RegionsUpTo;
    var regions;
    body, regions := BuildBodyAndRegions(py, pages);
    layout := DocumentLayout("pdf-rag-parser", TextExtraction, LayoutPagesOf(pages), regions, [], [], []);
    warnings := extraction;
    if StripsToNothing(py, body) {
      warnings := warnings + [TextLayerEmpty];
    }
  }

  // ---- What the layout says about the body ----

  /** The region is numbered index, lies on page number and slices the body to exactly its text. */
  ghost predicate Placed(body: string, r: LayoutRegion, index: nat) {
    r.pageNumber >= 1 && r.id == RegionId(r.pageNumber, index) && SlicesBody(body, r)
  }

  lemma PageRegionPlaced(py: Python, texts: seq<string>, k: nat, l: PageLine, index: nat)
    requires k < |texts| && Exact(py, texts[k], l)
    ensures var r := RegionOf(py, k + 1, StartOf(PAGE_BREAK, texts, k), l, index);
      && Placed(Joined(PAGE_BREAK, texts), r, index)
      && To(r) <= StartOf(PAGE_BREAK, texts, k) + |texts[k]|
  {
    hide RegionId, KindOf, Joined, StartOf;
    JoinedAt(PAGE_BREAK, texts, k);
    var body, start := Joined(PAGE_BREAK, texts), StartOf(PAGE_BREAK, texts, k);
    SliceOfSlice(body, start, texts[k], l.start, l.end);
  }

  /** What a region of the first k pages looks like. */
  ghost predicate Plain(body: string, r: LayoutRegion, index: nat, pages: nat) {
    Placed(body, r, index) && r.pageNumber <= pages && Bare(r)
  }

  /** The regions are numbered on, plain, in order, disjoint and before `limit`. */
  ghost predicate Lined(body: string, regions: seq<LayoutRegion>, pages: nat, limit: nat) {
    && (forall i :: 0 <= i < |regions| ==> Plain(body, regions[i], i + 1, pages) && To(regions[i]) <= limit)
    && InOrder(regions)
  }

  lemma PageRegionsLined(py: Python, texts: seq<string>, k: nat, i: nat, index: nat)
    requires k < |texts| && i < |Lines(py, texts[k])|
    ensures var body, start := Joined(PAGE_BREAK, texts), StartOf(PAGE_BREAK, texts, k);
      var r := RegionOf(py, k + 1, start, Lines(py, texts[k])[i], index);
      && Plain(body, r, index, k + 1) && start <= From(r) && To(r) <= start + |texts[k]|
  {
    hide Lines, Joined, StartOf, RegionId, Exact;
    LinesExact(py, texts[k]);
    var l := Lines(py, texts[k])[i];
    PageRegionPlaced(py, texts, k, l, index);
  }

  lemma {:induction false} RegionsLined(py: Python, texts: seq<string>, k: nat)
    requires k <= |texts|
    ensures Lined(Joined(PAGE_BREAK, texts), RegionsUpTo(py, texts, k), k, StartOf(PAGE_BREAK, texts, k))
  {
    hide Lines, Joined, RegionOf, Plain;
    if k > 0 {
      RegionsLined(py, texts, k - 1);
      var body, start := Joined(PAGE_BREAK, texts), StartOf(PAGE_BREAK, texts, k - 1);
      var before, lines := RegionsUpTo(py, texts, k - 1), Lines(py, texts[k - 1]);
      var own := RegionsOf(py, k, start, lines, |before| + 1);
      forall i | 0 <= i < |before|
        ensures Plain(body, before[i], i + 1, k) && To(before[i]) <= start
      {
        MorePages(body, before[i], i + 1, k - 1);
      }
      forall i | 0 <= i < |own|
        ensures Plain(body, own[i], |before| + 1 + i, k)
        ensures start <= From(own[i]) && To(own[i]) <= start + |texts[k - 1]|
      {
        PageRegionsLined(py, texts, k - 1, i, |before| + 1 + i);
      }
      OwnOrdered(py, k, start, texts[k - 1], |before| + 1);
      LinedConcat(body, before, own, k, start, start + |texts[k - 1]|, StartOf(PAGE_BREAK, texts, k));
    }
  }

  lemma MorePages(body: string, r: LayoutRegion, index: nat, pages: nat)
    requires Plain(body, r, index, pages)
    ensures Plain(body, r, index, pages + 1)
    ensures r.characterStart.Some? && r.characterEnd.Some?
  {
    hide RegionId;
  }

  lemma OwnOrdered(py: Python, pageNumber: nat, start: nat, text: string, index: nat)
    ensures var own := RegionsOf(py, pageNumber, start, Lines(py, text), index);
      InOrder(own)
  {
    hide Lines, Exact;
    LinesExact(py, text);
  }

  lemma LinedConcat(body: string, xs: seq<LayoutRegion>, ys: seq<LayoutRegion>, pages: nat, middle: nat, last: nat, limit: nat)
    requires forall i :: 0 <= i < |xs| ==> Plain(body, xs[i], i + 1, pages) && To(xs[i]) <= middle
    requires InOrder(xs) && InOrder(ys)
    requires forall i :: 0 <= i < |ys| ==>
      Plain(body, ys[i], |xs| + 1 + i, pages) && middle <= From(ys[i]) && To(ys[i]) <= last
    requires middle <= last <= limit
    ensures Lined(body, xs + ys, pages, limit)
  {
    var all := xs + ys;
    forall i | 0 <= i < |all| ensures Plain(body, all[i], i + 1, pages) && To(all[i]) <= limit {
      if i >= |xs| { assert all[i] == ys[i - |xs|]; }
    }
    hide Plain;
    forall i, j | 0 <= i < j < |all| ensures To(all[i]) <= From(all[j]) {
      if i >= |xs| {
        assert all[i] == ys[i - |xs|] && all[j] == ys[j - |xs|];
      } else if j >= |xs| {
        assert all[j] == ys[j - |xs|];
      }
    }
  }

  /** Regions are exact slices of the body, in order, disjoint, numbered one after the other. */
  lemma RegionsSliceBody(py: Python, pages: seq<PdfPage>)
    ensures var regions, body := LayoutOf(py, pages).regions, BodyOf(pages);
      && (forall i :: 0 <= i < |regions| ==> Placed(body, regions[i], i + 1) && regions[i].pageNumber <= |pages|)
      && InOrder(regions)
  {
    hide RegionsUpTo, Joined, StartOf, RegionId;
    RegionsLined(py, Texts(pages), |pages|);
  }

  lemma {:induction false} RegionsCover(py: Python, texts: seq<string>, k: nat, page: nat, pos: nat) returns (i: nat)
    requires LineEndsAreSpace(py) && page < k <= |texts|
    requires pos < |texts[page]| && !py.isSpace(texts[page][pos])
    ensures i < |RegionsUpTo(py, texts, k)|
    ensures Holds(RegionsUpTo(py, texts, k)[i], StartOf(PAGE_BREAK, texts, page) + pos)
  {
    hide Lines, LineEndsAreSpace, StartOf, RegionOf, Holds;
    var before := RegionsUpTo(py, texts, k - 1);
    if page < k - 1 {
      i := RegionsCover(py, texts, k - 1, page, pos);
    } else {
      var n := PageRegionHolds(py, k, StartOf(PAGE_BREAK, texts, page), texts[page], |before| + 1, pos);
      i := |before| + n;
    }
  }

  lemma PageRegionHolds(py: Python, pageNumber: nat, start: nat, text: string, index: nat, pos: nat) returns (n: nat)
    requires LineEndsAreSpace(py) && pos < |text| && !py.isSpace(text[pos])
    ensures n < |Lines(py, text)|
    ensures Holds(RegionsOf(py, pageNumber, start, Lines(py, text), index)[n], start + pos)
  {
    hide Lines, RegionOf, Holds;
    LinesCover(py, text, pos);
    var lines := Lines(py, text);
    var l :| l in lines && l.start <= pos < l.end;
    n :| 0 <= n < |lines| && lines[n] == l;
    HoldsShifted(py, pageNumber, start, l, index + n, pos);
  }

  lemma HoldsShifted(py: Python, pageNumber: nat, start: nat, l: PageLine, index: nat, pos: nat)
    requires l.start <= pos < l.end
    ensures Holds(RegionOf(py, pageNumber, start, l, index), start + pos)
  {
  }

  /** Every character of the body that is not whitespace is in a region. */
  lemma EveryCharacterHasRegion(py: Python, pages: seq<PdfPage>, pos: nat)
    requires LineEndsAreSpace(py) && pos < |BodyOf(pages)| && !py.isSpace(BodyOf(pages)[pos])
    ensures exists r :: r in LayoutOf(py, pages).regions && Holds(r, pos)
  {
    hide RegionsUpTo, Joined, Holds, StartOf;
    var texts := Texts(pages);
    assert forall c :: c in PAGE_BREAK ==> c == '\n';
    var k := JoinedPosition(PAGE_BREAK, texts, pos);
    JoinedAt(PAGE_BREAK, texts, k);
    var start := StartOf(PAGE_BREAK, texts, k);
    assert BodyOf(pages)[start..start + |texts[k]|][pos - start] == BodyOf(pages)[pos];
    var i := RegionsCover(py, texts, |texts|, k, pos - start);
    assert LayoutOf(py, pages).regions[i] in LayoutOf(py, pages).regions;
  }

  lemma {:induction false} RegionFromLine(py: Python, texts: seq<string>, k: nat) returns (page: nat)
    requires k <= |texts| && RegionsUpTo(py, texts, k) != []
    ensures page < k && Lines(py, texts[page]) != []
  {
    hide Lines;
    if Lines(py, texts[k - 1]) != [] {
      page := k - 1;
    } else {
      page := RegionFromLine(py, texts, k - 1);
    }
  }

  lemma LineIsVisible(py: Python, texts: seq<string>, page: nat)
    requires page < |texts| && Lines(py, texts[page]) != []
    ensures !StripsToNothing(py, Joined(PAGE_BREAK, texts))
  {
    hide Lines, Joined, StartOf;
    LinesExact(py, texts[page]);
    var l := Lines(py, texts[page])[0];
    assert l in Lines(py, texts[page]);
    JoinedAt(PAGE_BREAK, texts, page);
    var body, start := Joined(PAGE_BREAK, texts), StartOf(PAGE_BREAK, texts, page);
    assert body[start..start + |texts[page]|][l.start] == body[start + l.start];
  }

  /** The warning about a missing text layer is given exactly when the layout has no region. */
  lemma TextLayerEmptyIff(py: Python, pages: seq<PdfPage>)
    requires LineEndsAreSpace(py)
    ensures StripsToNothing(py, BodyOf(pages)) <==> LayoutOf(py, pages).regions == []
  {
    hide RegionsUpTo, Joined, Lines;
    if LayoutOf(py, pages).regions != [] {
      var page := RegionFromLine(py, Texts(pages), |pages|);
      LineIsVisible(py, Texts(pages), page);
    }
    if !StripsToNothing(py, BodyOf(pages)) {
      var pos :| 0 <= pos < |BodyOf(pages)| && !py.isSpace(BodyOf(pages)[pos]);
      EveryCharacterHasRegion(py, pages, pos);
    }
  }

  // ---- The validator accepts it ----

  lemma RegionIdsDiffer(m: nat, i: nat, n: nat, j: nat)
    requires i != j
    ensures RegionId(m, i) != RegionId(n, j)
  {
    if RegionId(m, i) == RegionId(n, j) {
      SuffixInjective("page_" + Numeral(m) + "_region_", i, "page_" + Numeral(n) + "_region_", j);
    }
  }

  lemma IdsDistinct(t: TextRules, body: string, regions: seq<LayoutRegion>, pages: nat)
    requires !t.isSpace('p') && Lined(body, regions, pages, |body|)
    ensures NoneBlank(t, RegionIds(regions)) && Distinct(RegionIds(regions))
  {
    hide RegionId;
    forall i | 0 <= i < |regions| ensures !IsBlank(t, regions[i].id) {
      assert Plain(body, regions[i], i + 1, pages);
      IdVisible(t, regions[i].pageNumber, i + 1);
    }
    hide IsBlank;
    forall i, j | 0 <= i < j < |regions| ensures regions[i].id != regions[j].id {
      assert Plain(body, regions[i], i + 1, pages) && Plain(body, regions[j], j + 1, pages);
      RegionIdsDiffer(regions[i].pageNumber, i + 1, regions[j].pageNumber, j + 1);
    }
  }

  lemma IdVisible(t: TextRules, pageNumber: nat, index: nat)
    requires !t.isSpace('p')
    ensures !IsBlank(t, RegionId(pageNumber, index))
  {
    assert RegionId(pageNumber, index)[0] == 'p';
  }

  lemma PdfRegionPasses(pages: seq<PdfPage>, r: LayoutRegion, index: nat, body: string, regions: seq<LayoutRegion>)
    requires Plain(body, r, index, |pages|)
    ensures RegionOk(r, body, LayoutPagesOf(pages)) && FamilyOk(r, regions)
  {
    hide RegionId, RegionOk, FamilyOk;
    assert LayoutPagesOf(pages)[r.pageNumber - 1].pageNumber == r.pageNumber;
    RegionPasses(body, r, LayoutPagesOf(pages), regions);
  }

  lemma PagesPass(pages: seq<PdfPage>)
    ensures LayoutPagesOf(pages) != [] && PagesOk(LayoutPagesOf(pages))
  {
    var result := LayoutPagesOf(pages);
    forall page | page in result ensures PageOk(page) {
      if pages != [] {
        var i :| 0 <= i < |result| && result[i] == page;
      }
    }
  }

  /** The layout is well formed for the body, whatever the pages hold. */
  lemma PdfLayoutWellFormed(t: TextRules, py: Python, pages: seq<PdfPage>)
    requires !t.isSpace('p')
    ensures WellFormed(t, LayoutOf(py, pages), BodyOf(pages))
  {
    hide RegionsUpTo, BodyOf, RegionId, PagesOk, NoneBlank, Distinct, AllIds, LayoutPagesOf, RegionOk, FamilyOk, Plain;
    var layout, body := LayoutOf(py, pages), BodyOf(pages);
    var regions := layout.regions;
    LimitIsLength(py, pages);
    IdsDistinct(t, body, regions, |pages|);
    OnlyRegionIds(layout);
    PagesPass(pages);
    assert layout.parserId[0] == 'p';
    forall r | r in regions ensures RegionOk(r, body, layout.pages) && FamilyOk(r, regions) {
      var i :| 0 <= i < |regions| && regions[i] == r;
      assert Plain(body, regions[i], i + 1, |pages|);
      PdfRegionPasses(pages, r, i + 1, body, regions);
    }
  }

  lemma OnlyRegionIds(layout: DocumentLayout)
    requires layout.relations == [] && layout.tables == [] && layout.visualAssets == []
    ensures AllIds(layout) == RegionIds(layout.regions)
  {
  }

  lemma LimitIsLength(py: Python, pages: seq<PdfPage>)
    ensures Lined(BodyOf(pages), RegionsUpTo(py, Texts(pages), |pages|), |pages|, |BodyOf(pages)|)
  {
    RegionsLined(py, Texts(pages), |pages|);
    hide RegionsUpTo, Joined, StartOf, RegionId;
  }

  /** The independent validator finds nothing wrong with the parser's output. */
  lemma PdfLayoutValid(t: TextRules, py: Python, pages: seq<PdfPage>)
    requires !t.isSpace('p')
    ensures LayoutIssues(t, LayoutOf(py, pages), BodyOf(pages)) == []
  {
    hide WellFormed, LayoutOf, BodyOf, LayoutIssues;
    PdfLayoutWellFormed(t, py, pages);
    LayoutValidIffWellFormed(t, LayoutOf(py, pages), BodyOf(pages));
  }

  /** A parsed PDF is accepted, and whenever the chunker succeeds on it the chunks pass their validator. */
  lemma PdfChunksPassValidation(t: TextRules, py: Python, p: ChunkingPolicy, pages: seq<PdfPage>, document: RagDocument)
    requires !t.isSpace('p')
    requires document.body == BodyOf(pages) && document.layout == Some(LayoutOf(py, pages))
    ensures AcceptedDocument(t, document)
    ensures ChunkingOutcome(t, p, document).Chunked? ==>
      AllChunkIssues(t, ChunkingOutcome(t, p, document).chunks, document, p) == []
  {
    hide LayoutOf, BodyOf, ChunkingOutcome, LayoutIssues, AllChunkIssues;
    PdfLayoutValid(t, py, pages);
    if ChunkingOutcome(t, p, document).Chunked? {
      ChunksPassValidation(t, p, document);
    }
  }
}
