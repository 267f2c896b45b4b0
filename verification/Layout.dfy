/** Document layout and the declarative meaning of a well-formed one. */
module Layout {
  import opened Text

  datatype CoordinateUnit = Pixel | Point | Normalized | UnknownUnit(unitName: string)

  datatype LayoutStrategy =
    TextExtraction | OcrLayout | TableStructure | VisualPage | Hybrid | UnknownStrategy(strategyName: string)

  datatype RegionKind =
    | TextRegion | Title | Heading | Paragraph | ListRegion | Table | TableCaption | Figure
    | FigureCaption | Header | Footer | Reference | Equation | PageImage | UnknownRegion
    | OtherKind(kindName: string)

  datatype RelationKind = CaptionFor | Explains | ContinuesAs | References | SameSection | OtherRelation(relationName: string)

  datatype AssetKind = PageImageAsset | FigureAsset | TableCrop | PatchGrid | OtherAsset(assetName: string)

  datatype LayoutBox = LayoutBox(pageNumber: int, x: real, y: real, width: real, height: real, unit: CoordinateUnit)

  datatype LayoutPage = LayoutPage(pageNumber: int, width: real, height: real, unit: CoordinateUnit, rotationDegrees: Option<real>)

  datatype LayoutRegion = LayoutRegion(
    id: string,
    kind: RegionKind,
    pageNumber: int,
    box: Option<LayoutBox>,
    text: Option<string>,
    characterStart: Option<int>,
    characterEnd: Option<int>,
    parentId: Option<string>,
    childrenIds: seq<string>,
    confidence: Option<real>)

  datatype LayoutRelation = LayoutRelation(
    id: string, kind: RelationKind, fromRegionId: string, toRegionId: string, confidence: Option<real>)

  datatype TableCell = TableCell(
    rowIndex: int, columnIndex: int, rowSpan: Option<int>, columnSpan: Option<int>,
    regionId: Option<string>, box: Option<LayoutBox>)

  datatype LayoutTable = LayoutTable(
    id: string, pageNumber: int, regionId: string, captionRegionId: Option<string>,
    box: Option<LayoutBox>, cells: seq<TableCell>)

  datatype VisualAsset = VisualAsset(
    id: string, kind: AssetKind, pageNumber: int, mediaType: string, box: Option<LayoutBox>)

  /** Absent optional lists are empty ones, as in `layout.relations ?? []`. */
  datatype DocumentLayout = DocumentLayout(
    parserId: string,
    strategy: LayoutStrategy,
    pages: seq<LayoutPage>,
    regions: seq<LayoutRegion>,
    relations: seq<LayoutRelation>,
    tables: seq<LayoutTable>,
    visualAssets: seq<VisualAsset>)

  /** Number.EPSILON, two to the power of minus 52. */
  const EPSILON: real := 1.0 / 4503599627370496.0

  /** An optional id that is present and not the empty string. */
  predicate Given(id: Option<string>) { id.Some? && id.value != "" }

  predicate UnitInterval(c: Option<real>) { c.None? || 0.0 <= c.value <= 1.0 }

  // ---- What a well-formed layout is ----

  predicate BoxSized(box: LayoutBox) {
    box.x >= 0.0 && box.y >= 0.0 && box.width > 0.0 && box.height > 0.0
  }

  /** The box lies inside its page, or inside the unit square when it is normalized. */
  predicate BoxInPage(box: LayoutBox, page: LayoutPage) {
    && BoxSized(box)
    && if box.unit == Normalized then
         box.x + box.width <= 1.0 + EPSILON && box.y + box.height <= 1.0 + EPSILON
       else
         && box.unit == page.unit
         && box.x + box.width <= page.width && box.y + box.height <= page.height
  }

  ghost predicate BoxOnPage(box: LayoutBox, pageNumber: int, pages: seq<LayoutPage>) {
    && !box.unit.UnknownUnit?
    && box.pageNumber == pageNumber
    && exists page :: page in pages && page.pageNumber == pageNumber && BoxInPage(box, page)
  }

  ghost predicate OptionalBoxOnPage(box: Option<LayoutBox>, pageNumber: int, pages: seq<LayoutPage>) {
    box.Some? ==> BoxOnPage(box.value, pageNumber, pages)
  }

  ghost predicate HasPage(pages: seq<LayoutPage>, pageNumber: int) {
    exists page :: page in pages && page.pageNumber == pageNumber
  }

  predicate PageOk(page: LayoutPage) {
    && page.pageNumber >= 1
    && page.width > 0.0 && page.height > 0.0
    && !page.unit.UnknownUnit?
    && (page.rotationDegrees.Some? ==> -360.0 <= page.rotationDegrees.value <= 360.0)
  }

  ghost predicate PagesOk(pages: seq<LayoutPage>) {
    && (forall page :: page in pages ==> PageOk(page))
    && (forall i, j :: 0 <= i < j < |pages| ==> pages[i].pageNumber != pages[j].pageNumber)
  }

  /** Both ends or neither; a given range is non-empty, lies in the body and matches the text. */
  predicate RangeOk(region: LayoutRegion, body: string) {
    && (region.characterStart.Some? <==> region.characterEnd.Some?)
    && (region.characterStart.Some? && region.characterEnd.Some? ==>
          var start, end := region.characterStart.value, region.characterEnd.value;
          0 <= start < end <= |body| && (region.text.Some? ==> body[start..end] == region.text.value))
  }

  ghost predicate RegionOk(region: LayoutRegion, body: string, pages: seq<LayoutPage>) {
    && !region.kind.OtherKind?
    && HasPage(pages, region.pageNumber)
    && OptionalBoxOnPage(region.box, region.pageNumber, pages)
    && RangeOk(region, body)
    && UnitInterval(region.confidence)
  }

  ghost predicate HasRegion(regions: seq<LayoutRegion>, id: string) {
    exists r :: r in regions && r.id == id
  }

  ghost predicate HasRegionOfKind(regions: seq<LayoutRegion>, id: string, kind: RegionKind) {
    exists r :: r in regions && r.id == id && r.kind == kind
  }

  /** A child is another region that names this one as its parent, if it names any. */
  ghost predicate ChildOk(region: LayoutRegion, childId: string, regions: seq<LayoutRegion>) {
    && childId != region.id
    && exists child :: child in regions && child.id == childId
                    && (Given(child.parentId) ==> child.parentId.value == region.id)
  }

  ghost predicate FamilyOk(region: LayoutRegion, regions: seq<LayoutRegion>) {
    && (Given(region.parentId) ==>
          region.parentId.value != region.id && HasRegion(regions, region.parentId.value))
    && (forall childId :: childId in region.childrenIds ==> ChildOk(region, childId, regions))
  }

  ghost predicate RelationOk(relation: LayoutRelation, regions: seq<LayoutRegion>) {
    && !relation.kind.OtherRelation?
    && HasRegion(regions, relation.fromRegionId)
    && HasRegion(regions, relation.toRegionId)
    && relation.fromRegionId != relation.toRegionId
    && UnitInterval(relation.confidence)
  }

  ghost predicate CellOk(cell: TableCell, pageNumber: int, pages: seq<LayoutPage>, regions: seq<LayoutRegion>) {
    && cell.rowIndex >= 0 && cell.columnIndex >= 0
    && (cell.rowSpan.Some? ==> cell.rowSpan.value >= 1)
    && (cell.columnSpan.Some? ==> cell.columnSpan.value >= 1)
    && (Given(cell.regionId) ==> HasRegion(regions, cell.regionId.value))
    && OptionalBoxOnPage(cell.box, pageNumber, pages)
  }

  ghost predicate TableOk(table: LayoutTable, pages: seq<LayoutPage>, regions: seq<LayoutRegion>) {
    && HasPage(pages, table.pageNumber)
    && HasRegionOfKind(regions, table.regionId, Table)
    && (Given(table.captionRegionId) ==> HasRegionOfKind(regions, table.captionRegionId.value, TableCaption))
    && OptionalBoxOnPage(table.box, table.pageNumber, pages)
    && (forall cell :: cell in table.cells ==> CellOk(cell, table.pageNumber, pages, regions))
  }

  ghost predicate AssetOk(t: TextRules, asset: VisualAsset, pages: seq<LayoutPage>) {
    && HasPage(pages, asset.pageNumber)
    && !asset.kind.OtherAsset?
    && !IsBlank(t, asset.mediaType)
    && OptionalBoxOnPage(asset.box, asset.pageNumber, pages)
  }

  function RegionIds(regions: seq<LayoutRegion>): (ids: seq<string>)
    ensures |ids| == |regions| && forall i :: 0 <= i < |ids| ==> ids[i] == regions[i].id
  {
    seq(|regions|, i requires 0 <= i < |regions| => regions[i].id)
  }

  function RelationIds(relations: seq<LayoutRelation>): (ids: seq<string>)
    ensures |ids| == |relations| && forall i :: 0 <= i < |ids| ==> ids[i] == relations[i].id
  {
    seq(|relations|, i requires 0 <= i < |relations| => relations[i].id)
  }

  function TableIds(tables: seq<LayoutTable>): (ids: seq<string>)
    ensures |ids| == |tables| && forall i :: 0 <= i < |ids| ==> ids[i] == tables[i].id
  {
    seq(|tables|, i requires 0 <= i < |tables| => tables[i].id)
  }

  function AssetIds(assets: seq<VisualAsset>): (ids: seq<string>)
    ensures |ids| == |assets| && forall i :: 0 <= i < |ids| ==> ids[i] == assets[i].id
  {
    seq(|assets|, i requires 0 <= i < |assets| => assets[i].id)
  }

  /** Every id of the layout, in the order the validator registers them. */
  function AllIds(layout: DocumentLayout): seq<string> {
    RegionIds(layout.regions) + RelationIds(layout.relations) + TableIds(layout.tables) + AssetIds(layout.visualAssets)
  }

  ghost predicate Distinct<T(!new)>(xs: seq<T>) {
    forall i, j :: 0 <= i < j < |xs| ==> xs[i] != xs[j]
  }

  ghost predicate NoneBlank(t: TextRules, ids: seq<string>) {
    forall i :: 0 <= i < |ids| ==> !IsBlank(t, ids[i])
  }

  /** The validator's promise, stated without its loops and lookup tables: ids are unique across all
      four lists, every reference resolves, ranges and boxes lie where they should. */
  ghost predicate WellFormed(t: TextRules, layout: DocumentLayout, body: string) {
    && !IsBlank(t, layout.parserId)
    && !layout.strategy.UnknownStrategy?
    && layout.pages != []
    && PagesOk(layout.pages)
    && NoneBlank(t, AllIds(layout)) && Distinct(AllIds(layout))
    && (forall r :: r in layout.regions ==> RegionOk(r, body, layout.pages))
    && (forall r :: r in layout.regions ==> FamilyOk(r, layout.regions))
    && (forall r :: r in layout.relations ==> RelationOk(r, layout.regions))
    && (forall table :: table in layout.tables ==> TableOk(table, layout.pages, layout.regions))
    && (forall asset :: asset in layout.visualAssets ==> AssetOk(t, asset, layout.pages))
  }
}
