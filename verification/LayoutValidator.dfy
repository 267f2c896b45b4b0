/** The layout validator: loops over the five lists of a layout that push issues to a shared list,
    sharing one set of ids. Issues keep their code; paths and messages are not modelled. */
module LayoutValidator {
  import opened Text
  import opened Layout

  datatype LayoutIssue =
    | MissingParserId | InvalidLayoutStrategy | MissingPages | InvalidPage | DuplicatePageNumber
    | DuplicateId | InvalidRegionKind | InvalidRegionPage | InvalidRegionBox | InvalidCharacterRange
    | RegionTextMismatch | InvalidConfidence | InvalidParentReference | InvalidChildReference
    | InvalidLayoutRelation | InvalidTableReference | InvalidTableCell | InvalidVisualAsset

  type Issues = seq<LayoutIssue>

  type PageMap = map<int, LayoutPage>
  type RegionMap = map<string, LayoutRegion>

  // ---- Issues of one item ----

  function PageIssues(page: LayoutPage, seen: PageMap): Issues {
    When(page.pageNumber < 1, InvalidPage)
    + When(page.pageNumber in seen, DuplicatePageNumber)
    + When(page.width <= 0.0 || page.height <= 0.0, InvalidPage)
    + When(page.unit.UnknownUnit?, InvalidPage)
    + When(page.rotationDegrees.Some? && !(-360.0 <= page.rotationDegrees.value <= 360.0), InvalidPage)
  }

  function IdIssues(t: TextRules, id: string, seen: set<string>): Issues {
    When(IsBlank(t, id) || id in seen, DuplicateId)
  }

  function BoxIssues(box: LayoutBox, page: Option<LayoutPage>, expectedPageNumber: int, code: LayoutIssue): Issues {
    When(box.pageNumber != expectedPageNumber, code)
    + When(box.unit.UnknownUnit?, code)
    + BoxPlaceIssues(box, page, code)
  }

  function BoxPlaceIssues(box: LayoutBox, page: Option<LayoutPage>, code: LayoutIssue): Issues {
    if !BoxSized(box) then [code]
    else if box.unit == Normalized then
      When(box.x + box.width > 1.0 + EPSILON || box.y + box.height > 1.0 + EPSILON, code)
    else if page.None? then []
    else if page.value.unit == box.unit then
      When(box.x + box.width > page.value.width || box.y + box.height > page.value.height, code)
    else [code]
  }

  function OptionalBoxIssues(box: Option<LayoutBox>, page: Option<LayoutPage>, expected: int, code: LayoutIssue): Issues {
    if box.None? then [] else BoxIssues(box.value, page, expected, code)
  }

  function RangeIssues(region: LayoutRegion, body: string): Issues {
    if region.characterStart.Some? != region.characterEnd.Some? then [InvalidCharacterRange]
    else if region.characterStart.None? then []
    else
      var start, end := region.characterStart.value, region.characterEnd.value;
      if start < 0 || end <= start || end > |body| then [InvalidCharacterRange]
      else When(region.text.Some? && body[start..end] != region.text.value, RegionTextMismatch)
  }

  function Lookup<K, V>(m: map<K, V>, k: K): Option<V> { if k in m then Some(m[k]) else None }

  function RegionIssues(t: TextRules, region: LayoutRegion, body: string, pages: PageMap, seen: set<string>): Issues {
    IdIssues(t, region.id, seen)
    + When(region.kind.OtherKind?, InvalidRegionKind)
    + When(region.pageNumber !in pages, InvalidRegionPage)
    + OptionalBoxIssues(region.box, Lookup(pages, region.pageNumber), region.pageNumber, InvalidRegionBox)
    + RangeIssues(region, body)
    + When(!UnitInterval(region.confidence), InvalidConfidence)
  }

  function ParentIssues(region: LayoutRegion, regions: RegionMap): Issues {
    When(Given(region.parentId)
         && (region.parentId.value !in regions || regions[region.parentId.value].id == region.id),
         InvalidParentReference)
  }

  function ChildIssues(region: LayoutRegion, childId: string, regions: RegionMap): Issues {
    if childId !in regions || regions[childId].id == region.id then [InvalidChildReference]
    else
      var child := regions[childId];
      When(Given(child.parentId) && child.parentId.value != region.id, InvalidChildReference)
  }

  function RelationIssues(t: TextRules, relation: LayoutRelation, regions: RegionMap, seen: set<string>): Issues {
    IdIssues(t, relation.id, seen)
    + When(relation.kind.OtherRelation?, InvalidLayoutRelation)
    + When(relation.fromRegionId !in regions, InvalidLayoutRelation)
    + When(relation.toRegionId !in regions, InvalidLayoutRelation)
    + When(relation.fromRegionId in regions && relation.toRegionId in regions
           && regions[relation.fromRegionId].id == regions[relation.toRegionId].id, InvalidLayoutRelation)
    + When(!UnitInterval(relation.confidence), InvalidLayoutRelation)
  }

  function CellIssues(cell: TableCell, page: Option<LayoutPage>, pageNumber: int, regions: RegionMap): Issues {
    When(cell.rowIndex < 0, InvalidTableCell)
    + When(cell.columnIndex < 0, InvalidTableCell)
    + When(cell.rowSpan.Some? && cell.rowSpan.value < 1, InvalidTableCell)
    + When(cell.columnSpan.Some? && cell.columnSpan.value < 1, InvalidTableCell)
    + When(Given(cell.regionId) && cell.regionId.value !in regions, InvalidTableCell)
    + OptionalBoxIssues(cell.box, page, pageNumber, InvalidTableCell)
  }

  predicate NoCaption(table: LayoutTable, regions: RegionMap) {
    && Given(table.captionRegionId)
    && (table.captionRegionId.value !in regions || regions[table.captionRegionId.value].kind != TableCaption)
  }

  function TableHeadIssues(t: TextRules, table: LayoutTable, pages: PageMap, regions: RegionMap, seen: set<string>): Issues {
    IdIssues(t, table.id, seen)
    + When(table.pageNumber !in pages, InvalidTableReference)
    + When(table.regionId !in regions || regions[table.regionId].kind != Table, InvalidTableReference)
    + When(NoCaption(table, regions), InvalidTableReference)
    + OptionalBoxIssues(table.box, Lookup(pages, table.pageNumber), table.pageNumber, InvalidTableReference)
  }

  function AssetIssues(t: TextRules, asset: VisualAsset, pages: PageMap, seen: set<string>): Issues {
    IdIssues(t, asset.id, seen)
    + When(asset.pageNumber !in pages, InvalidVisualAsset)
    + When(asset.kind.OtherAsset?, InvalidVisualAsset)
    + When(IsBlank(t, asset.mediaType), InvalidVisualAsset)
    + OptionalBoxIssues(asset.box, Lookup(pages, asset.pageNumber), asset.pageNumber, InvalidVisualAsset)
  }

  // ---- Issues of the first k items of each list, and the tables built on the way ----

  /** Pages by number; the first page of a number wins. */
  function PageTable(pages: seq<LayoutPage>, k: nat): PageMap
    requires k <= |pages|
  {
    if k == 0 then map[]
    else
      var m, page := PageTable(pages, k - 1), pages[k - 1];
      if page.pageNumber in m then m else m[page.pageNumber := page]
  }

  function PagesIssues(pages: seq<LayoutPage>, k: nat): Issues
    requires k <= |pages|
  {
    if k == 0 then [] else PagesIssues(pages, k - 1) + PageIssues(pages[k - 1], PageTable(pages, k - 1))
  }

  /** Regions by id; the last region of an id wins and blank ids are left out. */
  function RegionTable(t: TextRules, regions: seq<LayoutRegion>, k: nat): RegionMap
    requires k <= |regions|
  {
    if k == 0 then map[]
    else
      var m, r := RegionTable(t, regions, k - 1), regions[k - 1];
      if IsBlank(t, r.id) then m else m[r.id := r]
  }

  /** The set of ids registered by the first k of a list: blank ones are never added. */
  function Registered(t: TextRules, ids: seq<string>, k: nat): set<string>
    requires k <= |ids|
  {
    set i | 0 <= i < k && !IsBlank(t, ids[i]) :: ids[i]
  }

  function RegionsIssues(t: TextRules, regions: seq<LayoutRegion>, body: string, pages: PageMap, seen: set<string>, k: nat): Issues
    requires k <= |regions|
  {
    if k == 0 then []
    else RegionsIssues(t, regions, body, pages, seen, k - 1)
         + RegionIssues(t, regions[k - 1], body, pages, seen + Registered(t, RegionIds(regions), k - 1))
  }

  function ChildrenIssues(region: LayoutRegion, regions: RegionMap, k: nat): Issues
    requires k <= |region.childrenIds|
  {
    if k == 0 then []
    else ChildrenIssues(region, regions, k - 1) + ChildIssues(region, region.childrenIds[k - 1], regions)
  }

  function GraphIssues(list: seq<LayoutRegion>, regions: RegionMap, k: nat): Issues
    requires k <= |list|
  {
    if k == 0 then []
    else GraphIssues(list, regions, k - 1)
         + (ParentIssues(list[k - 1], regions) + ChildrenIssues(list[k - 1], regions, |list[k - 1].childrenIds|))
  }

  function RelationsIssues(t: TextRules, relations: seq<LayoutRelation>, regions: RegionMap, seen: set<string>, k: nat): Issues
    requires k <= |relations|
  {
    if k == 0 then []
    else RelationsIssues(t, relations, regions, seen, k - 1)
         + RelationIssues(t, relations[k - 1], regions, seen + Registered(t, RelationIds(relations), k - 1))
  }

  function CellsIssues(table: LayoutTable, page: Option<LayoutPage>, regions: RegionMap, k: nat): Issues
    requires k <= |table.cells|
  {
    if k == 0 then []
    else CellsIssues(table, page, regions, k - 1) + CellIssues(table.cells[k - 1], page, table.pageNumber, regions)
  }

  function TablesIssues(t: TextRules, tables: seq<LayoutTable>, pages: PageMap, regions: RegionMap, seen: set<string>, k: nat): Issues
    requires k <= |tables|
  {
    if k == 0 then []
    else TablesIssues(t, tables, pages, regions, seen, k - 1)
         + TableIssues(t, tables[k - 1], pages, regions, seen + Registered(t, TableIds(tables), k - 1))
  }

  function TableIssues(t: TextRules, table: LayoutTable, pages: PageMap, regions: RegionMap, seen: set<string>): Issues {
    TableHeadIssues(t, table, pages, regions, seen)
    + CellsIssues(table, Lookup(pages, table.pageNumber), regions, |table.cells|)
  }

  function AssetsIssues(t: TextRules, assets: seq<VisualAsset>, pages: PageMap, seen: set<string>, k: nat): Issues
    requires k <= |assets|
  {
    if k == 0 then []
    else AssetsIssues(t, assets, pages, seen, k - 1)
         + AssetIssues(t, assets[k - 1], pages, seen + Registered(t, AssetIds(assets), k - 1))
  }

  function HeaderIssues(t: TextRules, layout: DocumentLayout): Issues {
    When(IsBlank(t, layout.parserId), MissingParserId)
    + When(layout.strategy.UnknownStrategy?, InvalidLayoutStrategy)
    + When(layout.pages == [], MissingPages)
  }

  /** Every issue of a layout against a body. */
  function LayoutIssues(t: TextRules, layout: DocumentLayout, body: string): Issues {
    var pages := PageTable(layout.pages, |layout.pages|);
    var regions := RegionTable(t, layout.regions, |layout.regions|);
    var seen1 := Registered(t, RegionIds(layout.regions), |layout.regions|);
    var seen2 := seen1 + Registered(t, RelationIds(layout.relations), |layout.relations|);
    var seen3 := seen2 + Registered(t, TableIds(layout.tables), |layout.tables|);
    HeaderIssues(t, layout)
    + PagesIssues(layout.pages, |layout.pages|)
    + RegionsIssues(t, layout.regions, body, pages, {}, |layout.regions|)
    + GraphIssues(layout.regions, regions, |layout.regions|)
    + RelationsIssues(t, layout.relations, regions, seen1, |layout.relations|)
    + TablesIssues(t, layout.tables, pages, regions, seen2, |layout.tables|)
    + AssetsIssues(t, layout.visualAssets, pages, seen3, |layout.visualAssets|)
  }

  // ---- The validator ----

  /** The issue list and id set that the validator's loops share and update. */
  class Validation {
    var issues: Issues
    var globalIds: set<string>

    constructor ()
      ensures issues == [] && globalIds == {}
    {
      issues, globalIds := [], {};
    }

    method Push(condition: bool, issue: LayoutIssue)
      modifies `issues
      ensures issues == old(issues) + When(condition, issue)
    {
      if condition {
        issues := issues + [issue];
      }
    }

    method RegisterGlobalId(t: TextRules, id: string)
      modifies this
      ensures issues == old(issues) + IdIssues(t, id, old(globalIds))
      ensures globalIds == old(globalIds) + if IsBlank(t, id) then {} else {id}
    {
      if IsBlank(t, id) {
        issues := issues + [DuplicateId];
        return;
      }
      if id in globalIds {
        issues := issues + [DuplicateId];
        return;
      }
      globalIds := globalIds + {id};
    }

    method ValidateBox(box: LayoutBox, page: Option<LayoutPage>, expectedPageNumber: int, code: LayoutIssue)
      modifies `issues
      ensures issues == old(issues) + BoxIssues(box, page, expectedPageNumber, code)
    {
      Push(box.pageNumber != expectedPageNumber, code);
      Push(box.unit.UnknownUnit?, code);
      ghost var last := BoxPlaceIssues(box, page, code);
      Append3(old(issues), When(box.pageNumber != expectedPageNumber, code), When(box.unit.UnknownUnit?, code), last);
      hide When;
      if !BoxSized(box) {
        issues := issues + [code];
      } else if box.unit == Normalized {
        Push(box.x + box.width > 1.0 + EPSILON || box.y + box.height > 1.0 + EPSILON, code);
      } else if page.Some? && page.value.unit == box.unit {
        Push(box.x + box.width > page.value.width || box.y + box.height > page.value.height, code);
      } else if page.Some? {
        issues := issues + [code];
      }
    }

    method ValidateOptionalBox(box: Option<LayoutBox>, page: Option<LayoutPage>, expected: int, code: LayoutIssue)
      modifies `issues
      ensures issues == old(issues) + OptionalBoxIssues(box, page, expected, code)
    {
      hide BoxIssues;
      if box.Some? {
        ValidateBox(box.value, page, expected, code);
      }
    }

    method ValidatePage(page: LayoutPage, seen: PageMap)
      modifies `issues
      ensures issues == old(issues) + PageIssues(page, seen)
    {
      hide When;
      var turned := page.rotationDegrees.Some? && !(-360.0 <= page.rotationDegrees.value <= 360.0);
      Push(page.pageNumber < 1, InvalidPage);
      Push(page.pageNumber in seen, DuplicatePageNumber);
      Push(page.width <= 0.0 || page.height <= 0.0, InvalidPage);
      Push(page.unit.UnknownUnit?, InvalidPage);
      Push(turned, InvalidPage);
      Append5(old(issues),
              When(page.pageNumber < 1, InvalidPage),
              When(page.pageNumber in seen, DuplicatePageNumber),
              When(page.width <= 0.0 || page.height <= 0.0, InvalidPage),
              When(page.unit.UnknownUnit?, InvalidPage),
              When(turned, InvalidPage));
    }

    method ValidatePages(pages: seq<LayoutPage>) returns (pagesByNumber: PageMap)
      modifies `issues
      ensures pagesByNumber == PageTable(pages, |pages|)
      ensures issues == old(issues) + PagesIssues(pages, |pages|)
    {
      hide PageIssues;
      pagesByNumber := map[];
      for k := 0 to |pages|
        invariant pagesByNumber == PageTable(pages, k)
        invariant issues == old(issues) + PagesIssues(pages, k)
      {
        var page := pages[k];
        ConcatAssoc(old(issues), PagesIssues(pages, k), PageIssues(page, pagesByNumber));
        ValidatePage(page, pagesByNumber);
        if page.pageNumber !in pagesByNumber {
          pagesByNumber := pagesByNumber[page.pageNumber := page];
        }
      }
    }

    method ValidateCharacterRange(region: LayoutRegion, body: string)
      modifies `issues
      ensures issues == old(issues) + RangeIssues(region, body)
    {
      if region.characterStart.Some? != region.characterEnd.Some? {
        issues := issues + [InvalidCharacterRange];
        return;
      }
      if region.characterStart.None? {
        return;
      }
      var start, end := region.characterStart.value, region.characterEnd.value;
      if start < 0 || end <= start || end > |body| {
        issues := issues + [InvalidCharacterRange];
        return;
      }
      Push(region.text.Some? && body[start..end] != region.text.value, RegionTextMismatch);
    }

    method ValidateRegion(t: TextRules, region: LayoutRegion, body: string, pages: PageMap)
      modifies this
      ensures issues == old(issues) + RegionIssues(t, region, body, pages, old(globalIds))
      ensures globalIds == old(globalIds) + if IsBlank(t, region.id) then {} else {region.id}
    {
      hide When, IdIssues, OptionalBoxIssues, RangeIssues, UnitInterval, IsBlank;
      RegisterGlobalId(t, region.id);
      Push(region.kind.OtherKind?, InvalidRegionKind);
      Push(region.pageNumber !in pages, InvalidRegionPage);
      ValidateOptionalBox(region.box, Lookup(pages, region.pageNumber), region.pageNumber, InvalidRegionBox);
      ValidateCharacterRange(region, body);
      Push(!UnitInterval(region.confidence), InvalidConfidence);
      Append6(old(issues),
              IdIssues(t, region.id, old(globalIds)),
              When(region.kind.OtherKind?, InvalidRegionKind),
              When(region.pageNumber !in pages, InvalidRegionPage),
              OptionalBoxIssues(region.box, Lookup(pages, region.pageNumber), region.pageNumber, InvalidRegionBox),
              RangeIssues(region, body),
              When(!UnitInterval(region.confidence), InvalidConfidence));
    }

    method ValidateRegions(t: TextRules, regions: seq<LayoutRegion>, body: string, pages: PageMap)
      returns (regionsById: RegionMap)
      modifies this
      ensures regionsById == RegionTable(t, regions, |regions|)
      ensures issues == old(issues) + RegionsIssues(t, regions, body, pages, old(globalIds), |regions|)
      ensures globalIds == old(globalIds) + Registered(t, RegionIds(regions), |regions|)
    {
      hide RegionIssues, Registered, IsBlank;
      regionsById := map[];
      RegisteredNone(t, RegionIds(regions), globalIds);
      for k := 0 to |regions|
        invariant regionsById == RegionTable(t, regions, k)
        invariant issues == old(issues) + RegionsIssues(t, regions, body, pages, old(globalIds), k)
        invariant globalIds == old(globalIds) + Registered(t, RegionIds(regions), k)
      {
        var region := regions[k];
        RegisteredStep(t, RegionIds(regions), k, old(globalIds));
        ConcatAssoc(old(issues), RegionsIssues(t, regions, body, pages, old(globalIds), k),
                    RegionIssues(t, region, body, pages, globalIds));
        ValidateRegion(t, region, body, pages);
        if !IsBlank(t, region.id) {
          regionsById := regionsById[region.id := region];
        }
      }
    }

    method ValidateRegionGraph(list: seq<LayoutRegion>, regions: RegionMap)
      modifies `issues
      ensures issues == old(issues) + GraphIssues(list, regions, |list|)
    {
      hide When, ChildIssues;
      for k := 0 to |list|
        invariant issues == old(issues) + GraphIssues(list, regions, k)
      {
        var region := list[k];
        ghost var before := issues;
        Push(Given(region.parentId)
             && (region.parentId.value !in regions || regions[region.parentId.value].id == region.id),
             InvalidParentReference);
        ghost var parent := ParentIssues(region, regions);
        for c := 0 to |region.childrenIds|
          invariant issues == before + parent + ChildrenIssues(region, regions, c)
        {
          ConcatAssoc(before + parent, ChildrenIssues(region, regions, c), ChildIssues(region, region.childrenIds[c], regions));
          ValidateChild(region, region.childrenIds[c], regions);
        }
        ghost var children := ChildrenIssues(region, regions, |region.childrenIds|);
        ConcatAssoc(before, parent, children);
        ConcatAssoc(old(issues), GraphIssues(list, regions, k), parent + children);
      }
    }

    method ValidateChild(region: LayoutRegion, childId: string, regions: RegionMap)
      modifies `issues
      ensures issues == old(issues) + ChildIssues(region, childId, regions)
    {
      if childId !in regions || regions[childId].id == region.id {
        issues := issues + [InvalidChildReference];
        return;
      }
      var child := regions[childId];
      Push(Given(child.parentId) && child.parentId.value != region.id, InvalidChildReference);
    }

    method ValidateLayoutRelation(t: TextRules, relation: LayoutRelation, regions: RegionMap)
      modifies this
      ensures issues == old(issues) + RelationIssues(t, relation, regions, old(globalIds))
      ensures globalIds == old(globalIds) + if IsBlank(t, relation.id) then {} else {relation.id}
    {
      hide When, IdIssues, UnitInterval, IsBlank;
      var from, to := relation.fromRegionId, relation.toRegionId;
      RegisterGlobalId(t, relation.id);
      Push(relation.kind.OtherRelation?, InvalidLayoutRelation);
      Push(from !in regions, InvalidLayoutRelation);
      Push(to !in regions, InvalidLayoutRelation);
      Push(from in regions && to in regions && regions[from].id == regions[to].id, InvalidLayoutRelation);
      Push(!UnitInterval(relation.confidence), InvalidLayoutRelation);
      Append6(old(issues),
              IdIssues(t, relation.id, old(globalIds)),
              When(relation.kind.OtherRelation?, InvalidLayoutRelation),
              When(from !in regions, InvalidLayoutRelation),
              When(to !in regions, InvalidLayoutRelation),
              When(from in regions && to in regions && regions[from].id == regions[to].id, InvalidLayoutRelation),
              When(!UnitInterval(relation.confidence), InvalidLayoutRelation));
    }

    method ValidateLayoutRelations(t: TextRules, relations: seq<LayoutRelation>, regions: RegionMap)
      modifies this
      ensures issues == old(issues) + RelationsIssues(t, relations, regions, old(globalIds), |relations|)
      ensures globalIds == old(globalIds) + Registered(t, RelationIds(relations), |relations|)
    {
      hide RelationsIssues, RelationIssues, Registered, IsBlank;
      ghost var ids, seen, before := RelationIds(relations), globalIds, issues;
      RegisteredNone(t, ids, seen);
      RelationsStart(t, relations, regions, seen);
      for k := 0 to |relations|
        invariant issues == before + RelationsIssues(t, relations, regions, seen, k)
        invariant globalIds == seen + Registered(t, ids, k)
      {
        RegisteredStep(t, ids, k, seen);
        RelationsStep(t, relations, regions, seen, k, before);
        ValidateLayoutRelation(t, relations[k], regions);
      }
    }

    method ValidateTableCell(cell: TableCell, page: Option<LayoutPage>, pageNumber: int, regions: RegionMap)
      modifies `issues
      ensures issues == old(issues) + CellIssues(cell, page, pageNumber, regions)
    {
      hide When, OptionalBoxIssues;
      Push(cell.rowIndex < 0, InvalidTableCell);
      Push(cell.columnIndex < 0, InvalidTableCell);
      Push(cell.rowSpan.Some? && cell.rowSpan.value < 1, InvalidTableCell);
      Push(cell.columnSpan.Some? && cell.columnSpan.value < 1, InvalidTableCell);
      Push(Given(cell.regionId) && cell.regionId.value !in regions, InvalidTableCell);
      ValidateOptionalBox(cell.box, page, pageNumber, InvalidTableCell);
      Append6(old(issues),
              When(cell.rowIndex < 0, InvalidTableCell),
              When(cell.columnIndex < 0, InvalidTableCell),
              When(cell.rowSpan.Some? && cell.rowSpan.value < 1, InvalidTableCell),
              When(cell.columnSpan.Some? && cell.columnSpan.value < 1, InvalidTableCell),
              When(Given(cell.regionId) && cell.regionId.value !in regions, InvalidTableCell),
              OptionalBoxIssues(cell.box, page, pageNumber, InvalidTableCell));
    }

    method ValidateTableHead(t: TextRules, table: LayoutTable, pages: PageMap, regions: RegionMap)
      modifies this
      ensures issues == old(issues) + TableHeadIssues(t, table, pages, regions, old(globalIds))
      ensures globalIds == old(globalIds) + if IsBlank(t, table.id) then {} else {table.id}
    {
      hide When, IdIssues, OptionalBoxIssues, IsBlank, Given;
      var noRegion := table.regionId !in regions || regions[table.regionId].kind != Table;
      RegisterGlobalId(t, table.id);
      Push(table.pageNumber !in pages, InvalidTableReference);
      Push(noRegion, InvalidTableReference);
      var noCaption := NoCaption(table, regions);
      Push(noCaption, InvalidTableReference);
      ValidateOptionalBox(table.box, Lookup(pages, table.pageNumber), table.pageNumber, InvalidTableReference);
      Append5(old(issues),
              IdIssues(t, table.id, old(globalIds)),
              When(table.pageNumber !in pages, InvalidTableReference),
              When(noRegion, InvalidTableReference),
              When(noCaption, InvalidTableReference),
              OptionalBoxIssues(table.box, Lookup(pages, table.pageNumber), table.pageNumber, InvalidTableReference));
    }

    method ValidateTable(t: TextRules, table: LayoutTable, pages: PageMap, regions: RegionMap)
      modifies this
      ensures issues == old(issues) + TableIssues(t, table, pages, regions, old(globalIds))
      ensures globalIds == old(globalIds) + if IsBlank(t, table.id) then {} else {table.id}
    {
      hide TableHeadIssues, CellIssues, IsBlank;
      var page := Lookup(pages, table.pageNumber);
      ghost var head := TableHeadIssues(t, table, pages, regions, globalIds);
      ValidateTableHead(t, table, pages, regions);
      ghost var ids := globalIds;
      for c := 0 to |table.cells|
        invariant issues == old(issues) + head + CellsIssues(table, page, regions, c) && globalIds == ids
      {
        ConcatAssoc(old(issues) + head, CellsIssues(table, page, regions, c),
                    CellIssues(table.cells[c], page, table.pageNumber, regions));
        ValidateTableCell(table.cells[c], page, table.pageNumber, regions);
      }
      ConcatAssoc(old(issues), head, CellsIssues(table, page, regions, |table.cells|));
    }

    method ValidateTables(t: TextRules, tables: seq<LayoutTable>, pages: PageMap, regions: RegionMap)
      modifies this
      ensures issues == old(issues) + TablesIssues(t, tables, pages, regions, old(globalIds), |tables|)
      ensures globalIds == old(globalIds) + Registered(t, TableIds(tables), |tables|)
    {
      hide TablesIssues, TableIssues, Registered, IsBlank;
      ghost var ids, seen, before := TableIds(tables), globalIds, issues;
      RegisteredNone(t, ids, seen);
      TablesStart(t, tables, pages, regions, seen);
      for k := 0 to |tables|
        invariant issues == before + TablesIssues(t, tables, pages, regions, seen, k)
        invariant globalIds == seen + Registered(t, ids, k)
      {
        RegisteredStep(t, ids, k, seen);
        TablesStep(t, tables, pages, regions, seen, k, before);
        ValidateTable(t, tables[k], pages, regions);
      }
    }

    method ValidateVisualAsset(t: TextRules, asset: VisualAsset, pages: PageMap)
      modifies this
      ensures issues == old(issues) + AssetIssues(t, asset, pages, old(globalIds))
      ensures globalIds == old(globalIds) + if IsBlank(t, asset.id) then {} else {asset.id}
    {
      hide When, IdIssues, OptionalBoxIssues, IsBlank;
      RegisterGlobalId(t, asset.id);
      Push(asset.pageNumber !in pages, InvalidVisualAsset);
      Push(asset.kind.OtherAsset?, InvalidVisualAsset);
      Push(IsBlank(t, asset.mediaType), InvalidVisualAsset);
      ValidateOptionalBox(asset.box, Lookup(pages, asset.pageNumber), asset.pageNumber, InvalidVisualAsset);
      Append5(old(issues),
              IdIssues(t, asset.id, old(globalIds)),
              When(asset.pageNumber !in pages, InvalidVisualAsset),
              When(asset.kind.OtherAsset?, InvalidVisualAsset),
              When(IsBlank(t, asset.mediaType), InvalidVisualAsset),
              OptionalBoxIssues(asset.box, Lookup(pages, asset.pageNumber), asset.pageNumber, InvalidVisualAsset));
    }

    method ValidateVisualAssets(t: TextRules, assets: seq<VisualAsset>, pages: PageMap)
      modifies this
      ensures issues == old(issues) + AssetsIssues(t, assets, pages, old(globalIds), |assets|)
      ensures globalIds == old(globalIds) + Registered(t, AssetIds(assets), |assets|)
    {
      hide AssetsIssues, AssetIssues, Registered, IsBlank;
      ghost var ids, seen, before := AssetIds(assets), globalIds, issues;
      RegisteredNone(t, ids, seen);
      AssetsStart(t, assets, pages, seen);
      for k := 0 to |assets|
        invariant issues == before + AssetsIssues(t, assets, pages, seen, k)
        invariant globalIds == seen + Registered(t, ids, k)
      {
        RegisteredStep(t, ids, k, seen);
        AssetsStep(t, assets, pages, seen, k, before);
        ValidateVisualAsset(t, assets[k], pages);
      }
    }
  }

  /** validateDocumentLayout on a layout that is present: the issues it reports, all of them errors. */
  method ValidateDocumentLayout(t: TextRules, layout: DocumentLayout, body: string) returns (issues: Issues)
    ensures issues == LayoutIssues(t, layout, body)
  {
    hide HeaderIssues, PagesIssues, RegionsIssues, GraphIssues, RelationsIssues, TablesIssues, AssetsIssues,
         Registered, PageTable, RegionTable, IsBlank;
    var v := new Validation();
    var header := ValidateHeader(t, layout);
    v.issues := header;
    var pages := v.ValidatePages(layout.pages);
    var regions := v.ValidateRegions(t, layout.regions, body, pages);
    assert v.globalIds == Registered(t, RegionIds(layout.regions), |layout.regions|);
    v.ValidateRegionGraph(layout.regions, regions);
    v.ValidateLayoutRelations(t, layout.relations, regions);
    v.ValidateTables(t, layout.tables, pages, regions);
    v.ValidateVisualAssets(t, layout.visualAssets, pages);
    issues := v.issues;
  }

  method ValidateHeader(t: TextRules, layout: DocumentLayout) returns (issues: Issues)
    ensures issues == HeaderIssues(t, layout)
  {
    issues := [];
    if IsBlank(t, layout.parserId) {
      issues := issues + [MissingParserId];
    }
    if layout.strategy.UnknownStrategy? {
      issues := issues + [InvalidLayoutStrategy];
    }
    if layout.pages == [] {
      issues := issues + [MissingPages];
    }
  }

  lemma RelationsStart(t: TextRules, relations: seq<LayoutRelation>, regions: RegionMap, seen: set<string>)
    ensures RelationsIssues(t, relations, regions, seen, 0) == []
  {
  }

  lemma RelationsStep(t: TextRules, relations: seq<LayoutRelation>, regions: RegionMap, seen: set<string>, k: nat, before: Issues)
    requires k < |relations|
    ensures before + RelationsIssues(t, relations, regions, seen, k + 1)
         == before + RelationsIssues(t, relations, regions, seen, k)
          + RelationIssues(t, relations[k], regions, seen + Registered(t, RelationIds(relations), k))
  {
    hide RelationIssues, Registered;
    ConcatAssoc(before, RelationsIssues(t, relations, regions, seen, k),
                RelationIssues(t, relations[k], regions, seen + Registered(t, RelationIds(relations), k)));
  }

  lemma TablesStart(t: TextRules, tables: seq<LayoutTable>, pages: PageMap, regions: RegionMap, seen: set<string>)
    ensures TablesIssues(t, tables, pages, regions, seen, 0) == []
  {
  }

  lemma TablesStep(t: TextRules, tables: seq<LayoutTable>, pages: PageMap, regions: RegionMap, seen: set<string>, k: nat, before: Issues)
    requires k < |tables|
    ensures before + TablesIssues(t, tables, pages, regions, seen, k + 1)
         == before + TablesIssues(t, tables, pages, regions, seen, k)
          + TableIssues(t, tables[k], pages, regions, seen + Registered(t, TableIds(tables), k))
  {
    hide TableIssues, Registered;
    ConcatAssoc(before, TablesIssues(t, tables, pages, regions, seen, k),
                TableIssues(t, tables[k], pages, regions, seen + Registered(t, TableIds(tables), k)));
  }

  lemma AssetsStart(t: TextRules, assets: seq<VisualAsset>, pages: PageMap, seen: set<string>)
    ensures AssetsIssues(t, assets, pages, seen, 0) == []
  {
  }

  lemma AssetsStep(t: TextRules, assets: seq<VisualAsset>, pages: PageMap, seen: set<string>, k: nat, before: Issues)
    requires k < |assets|
    ensures before + AssetsIssues(t, assets, pages, seen, k + 1)
         == before + AssetsIssues(t, assets, pages, seen, k)
          + AssetIssues(t, assets[k], pages, seen + Registered(t, AssetIds(assets), k))
  {
    hide AssetIssues, Registered;
    ConcatAssoc(before, AssetsIssues(t, assets, pages, seen, k),
                AssetIssues(t, assets[k], pages, seen + Registered(t, AssetIds(assets), k)));
  }

  lemma RegisteredStep(t: TextRules, ids: seq<string>, k: nat, seen: set<string>)
    requires k < |ids|
    ensures seen + Registered(t, ids, k + 1) == seen + Registered(t, ids, k) + if IsBlank(t, ids[k]) then {} else {ids[k]}
  {
    hide IsBlank;
  }

  lemma RegisteredNone(t: TextRules, ids: seq<string>, seen: set<string>)
    ensures seen + Registered(t, ids, 0) == seen
  {
  }
}
