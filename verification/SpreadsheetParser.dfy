/** The spreadsheet parser script: sheets to a body, its regions, tables and visual assets. */
module SpreadsheetParser {
  import opened Text
  import opened Decimal
  import opened Layout
  import opened PythonStrings
  import opened ParsedRegions
  import opened SheetRows

  // ---- Ids ----

  datatype Tag = TitleTag | TableRegionTag | AssetsTag | TableTag | ChartTag(chart: nat) | ImageTag(image: nat)

  /** What an id names: something on one sheet. */
  datatype Key = Key(sheet: nat, tag: Tag)

  function Suffix(tag: Tag): (s: string)
    ensures s != "" && s[0] == '_'
  {
    match tag
    case TitleTag => "_title"
    case TableRegionTag => "_table_region"
    case AssetsTag => "_visual_assets"
    case TableTag => "_table"
    case ChartTag(k) => "_chart_" + Numeral(k)
    case ImageTag(k) => "_image_" + Numeral(k)
  }

  function IdOf(key: Key): string { "sheet_" + (Numeral(key.sheet) + Suffix(key.tag)) }

  lemma SuffixCharacter(tag: Tag)
    ensures |Suffix(tag)| >= 6
    ensures Suffix(tag)[1] == match tag
                              case TitleTag => 't'
                              case TableRegionTag => 't'
                              case AssetsTag => 'v'
                              case TableTag => 't'
                              case ChartTag(_) => 'c'
                              case ImageTag(_) => 'i'
    ensures tag.TitleTag? ==> Suffix(tag)[2] == 'i'
    ensures tag.TableTag? || tag.TableRegionTag? ==> Suffix(tag)[2] == 'a'
    ensures tag.TableTag? <==> |Suffix(tag)| == 6 && Suffix(tag)[2] == 'a' && Suffix(tag)[1] == 't'
  {
  }

  lemma SuffixInjects(a: Tag, b: Tag)
    requires Suffix(a) == Suffix(b)
    ensures a == b
  {
    SuffixCharacter(a);
    SuffixCharacter(b);
    if a.ChartTag? && b.ChartTag? {
      SuffixInjective("_chart_", a.chart, "_chart_", b.chart);
    } else if a.ImageTag? && b.ImageTag? {
      SuffixInjective("_image_", a.image, "_image_", b.image);
    }
  }

  /** Different things have different ids, across sheets and across the three lists of the layout. */
  lemma IdInjects(a: Key, b: Key)
    requires IdOf(a) == IdOf(b)
    ensures a == b
  {
    hide Suffix, Numeral;
    var x, y := Numeral(a.sheet) + Suffix(a.tag), Numeral(b.sheet) + Suffix(b.tag);
    assert IdOf(a)[6..] == x && IdOf(b)[6..] == y;
    PrefixInjective(a.sheet, Suffix(a.tag), b.sheet, Suffix(b.tag));
    SuffixInjects(a.tag, b.tag);
  }

  // ---- Visual assets ----

  datatype SheetAsset = SheetAsset(
    key: Key, mediaType: string, assetType: string, chartType: string, title: string, anchor: string)

  function MediaTypeName(m: MediaType): string {
    match m
    case Jpeg => "image/jpeg"
    case Gif => "image/gif"
    case Bmp => "image/bmp"
    case Png => "image/png"
  }

  function ChartAsset(c: Chart, n: nat, k: nat): SheetAsset {
    SheetAsset(Key(n, ChartTag(k)), "image/svg+xml", "chart", c.chartType, c.title, c.anchor)
  }

  function ImageAsset(i: Picture, n: nat, k: nat): SheetAsset {
    SheetAsset(Key(n, ImageTag(k)), MediaTypeName(i.mediaType), "image", "", "", i.anchor)
  }

  function ChartAssets(sheet: Sheet, n: nat): (assets: seq<SheetAsset>)
    ensures |assets| == |sheet.charts|
    ensures forall k :: 0 <= k < |assets| ==> assets[k] == ChartAsset(sheet.charts[k], n, k + 1)
  {
    seq(|sheet.charts|, k requires 0 <= k < |sheet.charts| => ChartAsset(sheet.charts[k], n, k + 1))
  }

  function ImageAssets(sheet: Sheet, n: nat): (assets: seq<SheetAsset>)
    ensures |assets| == |sheet.images|
    ensures forall k :: 0 <= k < |assets| ==> assets[k] == ImageAsset(sheet.images[k], n, k + 1)
  {
    seq(|sheet.images|, k requires 0 <= k < |sheet.images| => ImageAsset(sheet.images[k], n, k + 1))
  }

  function SheetAssets(sheet: Sheet, n: nat): seq<SheetAsset> { ChartAssets(sheet, n) + ImageAssets(sheet, n) }

  method VisualAssetsForSheet(sheet: Sheet, n: nat) returns (assets: seq<SheetAsset>)
    ensures assets == SheetAssets(sheet, n)
  {
    assets := [];
    for k := 0 to |sheet.charts|
      invariant assets == ChartAssets(sheet, n)[..k]
    {
      assets := assets + [ChartAsset(sheet.charts[k], n, k + 1)];
    }
    for k := 0 to |sheet.images|
      invariant assets == ChartAssets(sheet, n) + ImageAssets(sheet, n)[..k]
    {
      assets := assets + [ImageAsset(sheet.images[k], n, k + 1)];
    }
  }

  function NotEmpty(parts: seq<string>): seq<string> {
    if parts == [] then [] else When(parts[0] != "", parts[0]) + NotEmpty(parts[1..])
  }

  function AssetSummary(py: Python, a: SheetAsset): string {
    RStrip(py.isSpace, LStrip(py.isSpace,
      Joined(" ", NotEmpty(["Visual asset", IdOf(a.key), a.assetType, a.chartType, a.title, a.anchor]))))
  }

  // ---- The parts of the body ----

  const SEPARATOR := "\n\n"

  /** A part of the body, with the region that will describe it. */
  datatype Part = Part(key: Key, kind: RegionKind, text: string)

  function RowLines(rows: seq<Row>): (lines: seq<string>)
    ensures |lines| == |rows| && forall i :: 0 <= i < |lines| ==> lines[i] == Joined(" | ", rows[i].values)
  {
    seq(|rows|, i requires 0 <= i < |rows| => Joined(" | ", rows[i].values))
  }

  function TableText(rows: seq<Row>): string { Joined("\n", RowLines(rows)) }

  function Summaries(py: Python, assets: seq<SheetAsset>): (lines: seq<string>)
    ensures |lines| == |assets| && forall i :: 0 <= i < |lines| ==> lines[i] == AssetSummary(py, assets[i])
  {
    seq(|assets|, i requires 0 <= i < |assets| => AssetSummary(py, assets[i]))
  }

  function AssetText(py: Python, assets: seq<SheetAsset>): string { Joined("\n", Summaries(py, assets)) }

  function TitlePart(sheet: Sheet, n: nat): Part { Part(Key(n, TitleTag), Heading, "# " + sheet.title) }

  function TablePart(sheet: Sheet, n: nat): Part { Part(Key(n, TableRegionTag), Table, TableText(Rows(sheet))) }

  function AssetsPart(py: Python, sheet: Sheet, n: nat): Part {
    Part(Key(n, AssetsTag), FigureCaption, AssetText(py, SheetAssets(sheet, n)))
  }

  function SheetParts(py: Python, sheet: Sheet, n: nat): seq<Part> {
    [TitlePart(sheet, n)] + When(Rows(sheet) != [], TablePart(sheet, n))
    + When(SheetAssets(sheet, n) != [], AssetsPart(py, sheet, n))
  }

  function PartsUpTo(py: Python, sheets: seq<Sheet>, k: nat): seq<Part>
    requires k <= |sheets|
  {
    if k == 0 then [] else PartsUpTo(py, sheets, k - 1) + SheetParts(py, sheets[k - 1], k)
  }

  function PartTexts(parts: seq<Part>): (texts: seq<string>)
    ensures |texts| == |parts|
  {
    if parts == [] then [] else PartTexts(parts[..|parts| - 1]) + [parts[|parts| - 1].text]
  }

  function RegionAt(part: Part, start: nat): LayoutRegion {
    LayoutRegion(IdOf(part.key), part.kind, part.key.sheet, None, Some(part.text),
                 Some(start), Some(start + |part.text|), None, [], None)
  }

  /** The offset once these parts and a separator after each are in the body. */
  function OffsetAfter(parts: seq<Part>): nat { StartOf(SEPARATOR, PartTexts(parts), |parts|) }

  /** One region per part, where the part begins in the joined body. */
  function RegionsOf(parts: seq<Part>): (regions: seq<LayoutRegion>)
    ensures |regions| == |parts|
  {
    if parts == [] then []
    else
      var before := parts[..|parts| - 1];
      RegionsOf(before) + [RegionAt(parts[|parts| - 1], OffsetAfter(before))]
  }

  /** Appending a part appends its region at the running offset and moves the offset past it. */
  lemma PartAppended(parts: seq<Part>, part: Part)
    ensures PartTexts(parts + [part]) == PartTexts(parts) + [part.text]
    ensures RegionsOf(parts + [part]) == RegionsOf(parts) + [RegionAt(part, OffsetAfter(parts))]
    ensures OffsetAfter(parts + [part]) == OffsetAfter(parts) + |part.text| + 2
  {
    hide RegionAt;
    assert (parts + [part])[..|parts|] == parts;
    StartOfPrefix(SEPARATOR, PartTexts(parts), [part.text], |parts|);
  }

  // ---- The tables and assets of the layout ----

  function ToTableCell(c: SheetCell): TableCell { TableCell(c.rowIndex, c.columnIndex, None, None, None, None) }

  function ToTableCells(cells: seq<SheetCell>): (result: seq<TableCell>)
    ensures |result| == |cells| && forall i :: 0 <= i < |result| ==> result[i] == ToTableCell(cells[i])
  {
    seq(|cells|, i requires 0 <= i < |cells| => ToTableCell(cells[i]))
  }

  function TableOf(rows: seq<Row>, n: nat): LayoutTable {
    LayoutTable(IdOf(Key(n, TableTag)), n, IdOf(Key(n, TableRegionTag)), None, None, ToTableCells(CellsUpTo(rows, |rows|)))
  }

  function TablesUpTo(sheets: seq<Sheet>, k: nat): seq<LayoutTable>
    requires k <= |sheets|
  {
    if k == 0 then [] else TablesUpTo(sheets, k - 1) + When(Rows(sheets[k - 1]) != [], TableOf(Rows(sheets[k - 1]), k))
  }

  function AssetsUpTo(sheets: seq<Sheet>, k: nat): seq<SheetAsset>
    requires k <= |sheets|
  {
    if k == 0 then [] else AssetsUpTo(sheets, k - 1) + SheetAssets(sheets[k - 1], k)
  }

  function ToVisualAsset(a: SheetAsset): VisualAsset { VisualAsset(IdOf(a.key), FigureAsset, a.key.sheet, a.mediaType, None) }

  function ToVisualAssets(assets: seq<SheetAsset>): (result: seq<VisualAsset>)
    ensures |result| == |assets| && forall i :: 0 <= i < |result| ==> result[i] == ToVisualAsset(assets[i])
  {
    seq(|assets|, i requires 0 <= i < |assets| => ToVisualAsset(assets[i]))
  }

  function PageOf(n: nat): LayoutPage { LayoutPage(n, 1.0, 1.0, Normalized, None) }

  function PagesOf(sheets: seq<Sheet>): (pages: seq<LayoutPage>)
    ensures sheets == [] ==> pages == [PageOf(1)]
    ensures sheets != [] ==> |pages| == |sheets| && forall i :: 0 <= i < |pages| ==> pages[i] == PageOf(i + 1)
  {
    if sheets == [] then [PageOf(1)] else seq(|sheets|, i requires 0 <= i < |sheets| => PageOf(i + 1))
  }

  // ---- parse_with_openpyxl ----

  predicate Material(sheet: Sheet) { Rows(sheet) != [] || sheet.charts != [] || sheet.images != [] }

  predicate HasMaterial(sheets: seq<Sheet>) { exists i :: 0 <= i < |sheets| && Material(sheets[i]) }

  function Parts(py: Python, sheets: seq<Sheet>): seq<Part> {
    if HasMaterial(sheets) then PartsUpTo(py, sheets, |sheets|) else []
  }

  function Tables(sheets: seq<Sheet>): seq<LayoutTable> {
    if HasMaterial(sheets) then TablesUpTo(sheets, |sheets|) else []
  }

  datatype SheetWarning = FormulaWithoutValue(sheet: string, place: Place) | EmptyWorkbook

  function SheetWarnings(sheet: Sheet): (warnings: seq<SheetWarning>)
    ensures |warnings| == |Warnings(sheet)|
    ensures forall i :: 0 <= i < |warnings| ==> warnings[i] == FormulaWithoutValue(sheet.title, Warnings(sheet)[i])
  {
    NameWarnings(sheet.title, Warnings(sheet))
  }

  function NameWarnings(title: string, places: seq<Place>): (warnings: seq<SheetWarning>)
    ensures |warnings| == |places|
    ensures forall i :: 0 <= i < |warnings| ==> warnings[i] == FormulaWithoutValue(title, places[i])
  {
    seq(|places|, i requires 0 <= i < |places| => FormulaWithoutValue(title, places[i]))
  }

  function SheetWarningsUpTo(sheets: seq<Sheet>, k: nat): seq<SheetWarning>
    requires k <= |sheets|
  {
    if k == 0 then [] else SheetWarningsUpTo(sheets, k - 1) + SheetWarnings(sheets[k - 1])
  }

  /** The warnings of the sheets, or one for the workbook when its body strips to nothing. */
  function WarningsOf(py: Python, sheets: seq<Sheet>): seq<SheetWarning> {
    if StripsToNothing(py, BodyOf(py, sheets)) then [EmptyWorkbook] else SheetWarningsUpTo(sheets, |sheets|)
  }

  function BodyOf(py: Python, sheets: seq<Sheet>): string { Joined(SEPARATOR, PartTexts(Parts(py, sheets))) }

  function LayoutOf(py: Python, sheets: seq<Sheet>): DocumentLayout {
    DocumentLayout("openpyxl-rag-parser", TableStructure, PagesOf(sheets), RegionsOf(Parts(py, sheets)), [],
                   Tables(sheets), ToVisualAssets(AssetsUpTo(sheets, |sheets|)))
  }

  method AppendPart(ghost parts: seq<Part>, part: Part, bodyParts: seq<string>, regions: seq<LayoutRegion>, offset: nat)
    returns (newParts: seq<string>, newRegions: seq<LayoutRegion>, newOffset: nat)
    requires bodyParts == PartTexts(parts) && regions == RegionsOf(parts)
    requires offset == OffsetAfter(parts)
    ensures newParts == PartTexts(parts + [part]) && newRegions == RegionsOf(parts + [part])
    ensures newOffset == OffsetAfter(parts + [part])
  {
    hide RegionAt, OffsetAfter, RegionsOf, PartTexts;
    PartAppended(parts, part);
    newParts := bodyParts + [part.text];
    newRegions := regions + [RegionAt(part, offset)];
    newOffset := offset + |part.text| + 2;
  }

  method ParseSheet(py: Python, sheet: Sheet, n: nat, rows: seq<Row>, assets: seq<SheetAsset>,
                    ghost parts: seq<Part>, bodyParts: seq<string>, regions: seq<LayoutRegion>, offset: nat)
    returns (newParts: seq<string>, newRegions: seq<LayoutRegion>, newOffset: nat)
    requires rows == Rows(sheet) && assets == SheetAssets(sheet, n)
    requires bodyParts == PartTexts(parts) && regions == RegionsOf(parts)
    requires offset == OffsetAfter(parts)
    ensures var all := parts + SheetParts(py, sheet, n);
      && newParts == PartTexts(all) && newRegions == RegionsOf(all)
      && newOffset == OffsetAfter(all)
  {
    hide RegionsOf, PartTexts, OffsetAfter, Rows, SheetAssets, TableText, AssetText;
    ghost var all := parts + [TitlePart(sheet, n)];
    newParts, newRegions, newOffset := AppendPart(parts, TitlePart(sheet, n), bodyParts, regions, offset);
    if rows != [] {
      var part := Part(Key(n, TableRegionTag), Table, TableText(rows));
      newParts, newRegions, newOffset := AppendPart(all, part, newParts, newRegions, newOffset);
      all := all + [part];
    }
    if assets != [] {
      var part := Part(Key(n, AssetsTag), FigureCaption, AssetText(py, assets));
      newParts, newRegions, newOffset := AppendPart(all, part, newParts, newRegions, newOffset);
      all := all + [part];
    }
    assert all == parts + SheetParts(py, sheet, n);
  }

  method AppendTable(tables: seq<LayoutTable>, rows: seq<Row>, n: nat) returns (result: seq<LayoutTable>)
    ensures result == tables + When(rows != [], TableOf(rows, n))
  {
    hide IdOf;
    result := tables;
    if rows != [] {
      var cells := TableCells(rows);
      var table := LayoutTable(IdOf(Key(n, TableTag)), n, IdOf(Key(n, TableRegionTag)), None, None, ToTableCells(cells));
      assert table == TableOf(rows, n);
      result := tables + [table];
    }
  }

  method ParseWithOpenpyxl(py: Python, sheets: seq<Sheet>)
    returns (body: string, layout: DocumentLayout, warnings: seq<SheetWarning>)
    ensures body == BodyOf(py, sheets) && layout == LayoutOf(py, sheets) && warnings == WarningsOf(py, sheets)
  {
    hide Joined, Rows, SheetAssets, OffsetAfter, SheetParts, RegionsOf, PartTexts, Material, When, TableOf, StripsToNothing, Warnings;
    warnings := [];
    var bodyParts: seq<string>, regions: seq<LayoutRegion>, tables: seq<LayoutTable>, assets: seq<SheetAsset> := [], [], [], [];
    var offset, material := 0, false;
    ghost var parts: seq<Part> := [];
    NothingAppended();
    for k := 0 to |sheets|
      invariant parts == PartsUpTo(py, sheets, k)
      invariant bodyParts == PartTexts(parts) && regions == RegionsOf(parts)
      invariant offset == OffsetAfter(parts)
      invariant tables == TablesUpTo(sheets, k) && assets == AssetsUpTo(sheets, k)
      invariant warnings == SheetWarningsUpTo(sheets, k)
      invariant material <==> exists i :: 0 <= i < k && Material(sheets[i])
    {
      var sheet, n := sheets[k], k + 1;
      var rows, places := MaterializedRows(sheet);
      warnings := warnings + NameWarnings(sheet.title, places);
      var sheetAssets := VisualAssetsForSheet(sheet, n);
      assets := assets + sheetAssets;
      bodyParts, regions, offset := ParseSheet(py, sheet, n, rows, sheetAssets, parts, bodyParts, regions, offset);
      parts := parts + SheetParts(py, sheet, n);
      tables := AppendTable(tables, rows, n);
      MaterialCount(sheet, n);
      material := material || rows != [] || sheetAssets != [];
    }
    if material {
      body := Joined(SEPARATOR, bodyParts);
    } else {
      body, regions, tables := "", [], [];
      assert Joined(SEPARATOR, []) == "";
    }
    if StripsToNothing(py, body) {
      warnings := [EmptyWorkbook];
    }
    layout := DocumentLayout("openpyxl-rag-parser", TableStructure, PagesOf(sheets), regions, [], tables, ToVisualAssets(assets));
  }

  lemma NothingAppended()
    ensures PartTexts([]) == [] && RegionsOf([]) == [] && OffsetAfter([]) == 0 && Joined(SEPARATOR, []) == ""
  {
  }

  lemma MaterialCount(sheet: Sheet, n: nat)
    ensures Material(sheet) <==> Rows(sheet) != [] || SheetAssets(sheet, n) != []
  {
    hide Rows;
    assert |SheetAssets(sheet, n)| == |sheet.charts| + |sheet.images|;
  }
}
