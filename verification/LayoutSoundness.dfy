/** The validator accepts exactly the well-formed layouts. */
module LayoutSoundness {
  import opened Text
  import opened Layout
  import opened LayoutValidator

  // ---- Lists of issues are empty exactly when every part is ----

  lemma {:induction false} PagesIssuesEmpty(pages: seq<LayoutPage>, k: nat)
    requires k <= |pages|
    ensures PagesIssues(pages, k) == [] <==> forall i :: 0 <= i < k ==> PageIssues(pages[i], PageTable(pages, i)) == []
  {
    hide PageIssues, PageTable;
    if k > 0 { PagesIssuesEmpty(pages, k - 1); }
  }

  lemma {:induction false} RegionsIssuesEmpty(t: TextRules, regions: seq<LayoutRegion>, body: string, pages: PageMap, k: nat)
    requires k <= |regions|
    ensures RegionsIssues(t, regions, body, pages, {}, k) == [] <==>
      forall i :: 0 <= i < k ==> RegionIssues(t, regions[i], body, pages, {} + Registered(t, RegionIds(regions), i)) == []
  {
    hide RegionIssues, Registered;
    if k > 0 { RegionsIssuesEmpty(t, regions, body, pages, k - 1); }
  }

  lemma {:induction false} ChildrenIssuesEmpty(region: LayoutRegion, regions: RegionMap, k: nat)
    requires k <= |region.childrenIds|
    ensures ChildrenIssues(region, regions, k) == [] <==>
      forall i :: 0 <= i < k ==> ChildIssues(region, region.childrenIds[i], regions) == []
  {
    hide ChildIssues;
    if k > 0 { ChildrenIssuesEmpty(region, regions, k - 1); }
  }

  lemma {:induction false} GraphIssuesEmpty(list: seq<LayoutRegion>, regions: RegionMap, k: nat)
    requires k <= |list|
    ensures GraphIssues(list, regions, k) == [] <==>
      forall i :: 0 <= i < k ==>
        ParentIssues(list[i], regions) == [] && ChildrenIssues(list[i], regions, |list[i].childrenIds|) == []
  {
    hide ParentIssues, ChildrenIssues;
    if k > 0 { GraphIssuesEmpty(list, regions, k - 1); }
  }

  lemma {:induction false} RelationsIssuesEmpty(t: TextRules, relations: seq<LayoutRelation>, regions: RegionMap, seen: set<string>, k: nat)
    requires k <= |relations|
    ensures RelationsIssues(t, relations, regions, seen, k) == [] <==>
      forall i :: 0 <= i < k ==> RelationIssues(t, relations[i], regions, seen + Registered(t, RelationIds(relations), i)) == []
  {
    hide RelationIssues, Registered;
    if k > 0 { RelationsIssuesEmpty(t, relations, regions, seen, k - 1); }
  }

  lemma {:induction false} CellsIssuesEmpty(table: LayoutTable, page: Option<LayoutPage>, regions: RegionMap, k: nat)
    requires k <= |table.cells|
    ensures CellsIssues(table, page, regions, k) == [] <==>
      forall i :: 0 <= i < k ==> CellIssues(table.cells[i], page, table.pageNumber, regions) == []
  {
    hide CellIssues;
    if k > 0 { CellsIssuesEmpty(table, page, regions, k - 1); }
  }

  lemma {:induction false} TablesIssuesEmpty(t: TextRules, tables: seq<LayoutTable>, pages: PageMap, regions: RegionMap, seen: set<string>, k: nat)
    requires k <= |tables|
    ensures TablesIssues(t, tables, pages, regions, seen, k) == [] <==>
      forall i :: 0 <= i < k ==> TableIssues(t, tables[i], pages, regions, seen + Registered(t, TableIds(tables), i)) == []
  {
    hide TableIssues, Registered;
    if k > 0 { TablesIssuesEmpty(t, tables, pages, regions, seen, k - 1); }
  }

  lemma {:induction false} AssetsIssuesEmpty(t: TextRules, assets: seq<VisualAsset>, pages: PageMap, seen: set<string>, k: nat)
    requires k <= |assets|
    ensures AssetsIssues(t, assets, pages, seen, k) == [] <==>
      forall i :: 0 <= i < k ==> AssetIssues(t, assets[i], pages, seen + Registered(t, AssetIds(assets), i)) == []
  {
    hide AssetIssues, Registered;
    if k > 0 { AssetsIssuesEmpty(t, assets, pages, seen, k - 1); }
  }

  // ---- Lookup tables ----

  lemma {:induction false} PageTableKeys(pages: seq<LayoutPage>, k: nat)
    requires k <= |pages|
    ensures forall n :: n in PageTable(pages, k) <==> exists i :: 0 <= i < k && pages[i].pageNumber == n
    ensures forall n :: n in PageTable(pages, k) ==>
      PageTable(pages, k)[n] in pages && PageTable(pages, k)[n].pageNumber == n
  {
    if k > 0 { PageTableKeys(pages, k - 1); }
  }

  lemma PageMeaning(page: LayoutPage, seen: PageMap)
    ensures PageIssues(page, seen) == [] <==> PageOk(page) && page.pageNumber !in seen
  {
  }

  /** The page list passes exactly when every page is well-formed and numbers are unique. */
  lemma PagesIssuesMeaning(pages: seq<LayoutPage>)
    ensures PagesIssues(pages, |pages|) == [] <==> PagesOk(pages)
  {
    hide PageTable, PageIssues, PagesIssues, PageOk;
    PagesIssuesEmpty(pages, |pages|);
    forall i | 0 <= i < |pages|
      ensures PageIssues(pages[i], PageTable(pages, i)) == [] <==>
        PageOk(pages[i]) && forall j :: 0 <= j < i ==> pages[j].pageNumber != pages[i].pageNumber
    {
      PageTableKeys(pages, i);
      PageMeaning(pages[i], PageTable(pages, i));
    }
    if PagesOk(pages) {
      forall i | 0 <= i < |pages| ensures PageOk(pages[i]) {
        assert pages[i] in pages;
      }
    }
  }

  /** The table of pages holds every page under its number. */
  ghost predicate PagesExact(pages: seq<LayoutPage>, m: PageMap) {
    && (forall page :: page in pages ==> page.pageNumber in m && m[page.pageNumber] == page)
    && (forall n :: n in m ==> m[n] in pages && m[n].pageNumber == n)
  }

  lemma PageTableExact(pages: seq<LayoutPage>)
    requires PagesOk(pages)
    ensures PagesExact(pages, PageTable(pages, |pages|))
  {
    PageTableKeys(pages, |pages|);
    var m := PageTable(pages, |pages|);
    hide PageTable;
    forall page | page in pages ensures page.pageNumber in m && m[page.pageNumber] == page {
      var i :| 0 <= i < |pages| && pages[i] == page;
      assert page.pageNumber in m;
      var j :| 0 <= j < |pages| && pages[j] == m[page.pageNumber];
    }
  }

  lemma {:induction false} RegionTableKeys(t: TextRules, regions: seq<LayoutRegion>, k: nat)
    requires k <= |regions|
    ensures forall i :: 0 <= i < k && !IsBlank(t, regions[i].id) ==> regions[i].id in RegionTable(t, regions, k)
    ensures forall id :: id in RegionTable(t, regions, k) ==>
      RegionTable(t, regions, k)[id] in regions && RegionTable(t, regions, k)[id].id == id
  {
    hide IsBlank;
    if k > 0 { RegionTableKeys(t, regions, k - 1); }
  }

  ghost predicate RegionsExact(regions: seq<LayoutRegion>, m: RegionMap) {
    && (forall r :: r in regions ==> r.id in m && m[r.id] == r)
    && (forall id :: id in m ==> m[id] in regions && m[id].id == id)
  }

  lemma RegionTableExact(t: TextRules, regions: seq<LayoutRegion>)
    requires NoneBlank(t, RegionIds(regions)) && Distinct(RegionIds(regions))
    ensures RegionsExact(regions, RegionTable(t, regions, |regions|))
  {
    RegionTableKeys(t, regions, |regions|);
    var m, ids := RegionTable(t, regions, |regions|), RegionIds(regions);
    hide RegionTable, IsBlank;
    forall r | r in regions ensures r.id in m && m[r.id] == r {
      var i :| 0 <= i < |regions| && regions[i] == r;
      assert !IsBlank(t, ids[i]);
      var j :| 0 <= j < |regions| && regions[j] == m[r.id];
      assert ids[i] == ids[j];
    }
  }

  // ---- Ids ----

  /** No id is blank or already registered when its turn comes. */
  ghost predicate IdsClean(t: TextRules, ids: seq<string>, seen: set<string>) {
    forall k :: 0 <= k < |ids| ==> IdIssues(t, ids[k], seen + Registered(t, ids, k)) == []
  }

  lemma IdsCleanMeaning(t: TextRules, ids: seq<string>, seen: set<string>)
    ensures IdsClean(t, ids, seen) <==>
      NoneBlank(t, ids) && Distinct(ids) && forall i :: 0 <= i < |ids| ==> ids[i] !in seen
  {
    hide IsBlank;
    if IdsClean(t, ids, seen) {
      forall k | 0 <= k < |ids| ensures !IsBlank(t, ids[k]) && ids[k] !in seen + Registered(t, ids, k) {
        assert IdIssues(t, ids[k], seen + Registered(t, ids, k)) == [];
      }
    }
  }

  /** The ids of a list without blank ones are all registered. */
  lemma RegisteredAll(t: TextRules, ids: seq<string>)
    requires NoneBlank(t, ids)
    ensures forall id :: id in Registered(t, ids, |ids|) <==> id in ids
  {
    hide IsBlank;
  }

  lemma DistinctConcat<T(!new)>(xs: seq<T>, ys: seq<T>)
    ensures Distinct(xs + ys) <==> Distinct(xs) && Distinct(ys) && forall y :: y in ys ==> y !in xs
  {
    var zs := xs + ys;
    if Distinct(zs) {
      forall i, j | 0 <= i < j < |xs| ensures xs[i] != xs[j] { assert zs[i] != zs[j]; }
      forall i, j | 0 <= i < j < |ys| ensures ys[i] != ys[j] { assert zs[|xs| + i] != zs[|xs| + j]; }
      forall y | y in ys ensures y !in xs {
        var j :| 0 <= j < |ys| && ys[j] == y;
        forall i | 0 <= i < |xs| ensures xs[i] != y {
          assert zs[i] != zs[|xs| + j];
        }
      }
    }
    if Distinct(xs) && Distinct(ys) && forall y :: y in ys ==> y !in xs {
      forall i, j | 0 <= i < j < |zs| ensures zs[i] != zs[j] {
        if |xs| <= j {
          assert zs[j] in ys;
        }
      }
    }
  }

  lemma NoneBlankConcat(t: TextRules, xs: seq<string>, ys: seq<string>)
    ensures NoneBlank(t, xs + ys) <==> NoneBlank(t, xs) && NoneBlank(t, ys)
  {
    hide IsBlank;
    if NoneBlank(t, xs + ys) {
      forall i | 0 <= i < |ys| ensures !IsBlank(t, ys[i]) { assert (xs + ys)[|xs| + i] == ys[i]; }
      forall i | 0 <= i < |xs| ensures !IsBlank(t, xs[i]) { assert (xs + ys)[i] == xs[i]; }
    }
  }

  /** Appending a list keeps ids unique exactly when its ids are clean against those before. */
  lemma IdsCleanAppend(t: TextRules, before: seq<string>, ids: seq<string>, seen: set<string>)
    requires forall id :: id in seen <==> id in before
    ensures NoneBlank(t, before + ids) && Distinct(before + ids) <==>
      NoneBlank(t, before) && Distinct(before) && IdsClean(t, ids, seen)
  {
    hide IsBlank;
    IdsCleanMeaning(t, ids, seen);
    DistinctConcat(before, ids);
    NoneBlankConcat(t, before, ids);
    hide IdsClean, NoneBlank, Distinct;
    assert (forall i :: 0 <= i < |ids| ==> ids[i] !in seen) <==> forall y :: y in ids ==> y !in before;
  }

  // ---- Items ----

  lemma BoxMeaning(box: Option<LayoutBox>, n: int, pages: seq<LayoutPage>, m: PageMap, code: LayoutIssue)
    requires PagesExact(pages, m) && n in m
    ensures OptionalBoxIssues(box, Lookup(m, n), n, code) == [] <==> OptionalBoxOnPage(box, n, pages)
  {
    if box.Some? && OptionalBoxOnPage(box, n, pages) {
      var page :| page in pages && page.pageNumber == n && BoxInPage(box.value, page);
      assert m[n] == page;
    }
  }

  lemma HasPageMeaning(pages: seq<LayoutPage>, m: PageMap, n: int)
    requires PagesExact(pages, m)
    ensures HasPage(pages, n) <==> n in m
  {
  }

  lemma HasRegionMeaning(regions: seq<LayoutRegion>, m: RegionMap, id: string)
    requires RegionsExact(regions, m)
    ensures HasRegion(regions, id) <==> id in m
  {
  }

  lemma HasKindMeaning(regions: seq<LayoutRegion>, m: RegionMap, id: string, kind: RegionKind)
    requires RegionsExact(regions, m)
    ensures HasRegionOfKind(regions, id, kind) <==> id in m && m[id].kind == kind
  {
  }

  lemma RegionMeaning(t: TextRules, region: LayoutRegion, body: string, pages: seq<LayoutPage>, m: PageMap, seen: set<string>)
    requires PagesExact(pages, m)
    ensures RegionIssues(t, region, body, m, seen) == [] <==>
      IdIssues(t, region.id, seen) == [] && RegionOk(region, body, pages)
  {
    hide IdIssues, OptionalBoxIssues, OptionalBoxOnPage, UnitInterval;
    HasPageMeaning(pages, m, region.pageNumber);
    if region.pageNumber in m {
      BoxMeaning(region.box, region.pageNumber, pages, m, InvalidRegionBox);
    }
    hide PagesExact, HasPage;
  }

  lemma ChildMeaning(region: LayoutRegion, childId: string, regions: seq<LayoutRegion>, m: RegionMap)
    requires RegionsExact(regions, m)
    ensures ChildIssues(region, childId, m) == [] <==> ChildOk(region, childId, regions)
  {
  }

  lemma FamilyMeaning(region: LayoutRegion, regions: seq<LayoutRegion>, m: RegionMap)
    requires RegionsExact(regions, m)
    ensures FamilyOk(region, regions) <==>
      ParentIssues(region, m) == [] && ChildrenIssues(region, m, |region.childrenIds|) == []
  {
    if Given(region.parentId) {
      HasRegionMeaning(regions, m, region.parentId.value);
    }
    ChildrenIssuesEmpty(region, m, |region.childrenIds|);
    forall i | 0 <= i < |region.childrenIds|
      ensures ChildIssues(region, region.childrenIds[i], m) == [] <==> ChildOk(region, region.childrenIds[i], regions)
    {
      ChildMeaning(region, region.childrenIds[i], regions, m);
    }
    hide ChildIssues, ChildOk, ChildrenIssues, HasRegion;
  }

  lemma RelationMeaning(t: TextRules, relation: LayoutRelation, regions: seq<LayoutRegion>, m: RegionMap, seen: set<string>)
    requires RegionsExact(regions, m)
    ensures RelationIssues(t, relation, m, seen) == [] <==>
      IdIssues(t, relation.id, seen) == [] && RelationOk(relation, regions)
  {
    hide IdIssues, UnitInterval;
    HasRegionMeaning(regions, m, relation.fromRegionId);
    HasRegionMeaning(regions, m, relation.toRegionId);
    hide HasRegion;
  }

  lemma CellMeaning(cell: TableCell, n: int, pages: seq<LayoutPage>, pm: PageMap, regions: seq<LayoutRegion>, rm: RegionMap)
    requires PagesExact(pages, pm) && RegionsExact(regions, rm) && n in pm
    ensures CellIssues(cell, Lookup(pm, n), n, rm) == [] <==> CellOk(cell, n, pages, regions)
  {
    hide OptionalBoxIssues, OptionalBoxOnPage;
    BoxMeaning(cell.box, n, pages, pm, InvalidTableCell);
    if Given(cell.regionId) {
      HasRegionMeaning(regions, rm, cell.regionId.value);
    }
    hide HasRegion, PagesExact, RegionsExact;
  }

  lemma TableMeaning(t: TextRules, table: LayoutTable, pages: seq<LayoutPage>, pm: PageMap,
                     regions: seq<LayoutRegion>, rm: RegionMap, seen: set<string>)
    requires PagesExact(pages, pm) && RegionsExact(regions, rm)
    ensures TableIssues(t, table, pm, rm, seen) == [] <==>
      IdIssues(t, table.id, seen) == [] && TableOk(table, pages, regions)
  {
    hide IdIssues, OptionalBoxIssues, OptionalBoxOnPage, CellIssues, CellOk, CellsIssues, HasRegionOfKind, HasPage;
    var n := table.pageNumber;
    HasPageMeaning(pages, pm, n);
    HasKindMeaning(regions, rm, table.regionId, Table);
    if Given(table.captionRegionId) {
      HasKindMeaning(regions, rm, table.captionRegionId.value, TableCaption);
    }
    if n in pm {
      BoxMeaning(table.box, n, pages, pm, InvalidTableReference);
      CellsIssuesEmpty(table, Lookup(pm, n), rm, |table.cells|);
      forall i | 0 <= i < |table.cells|
        ensures CellIssues(table.cells[i], Lookup(pm, n), n, rm) == [] <==> CellOk(table.cells[i], n, pages, regions)
      {
        CellMeaning(table.cells[i], n, pages, pm, regions, rm);
      }
    }
    hide PagesExact, RegionsExact;
  }

  lemma AssetMeaning(t: TextRules, asset: VisualAsset, pages: seq<LayoutPage>, pm: PageMap, seen: set<string>)
    requires PagesExact(pages, pm)
    ensures AssetIssues(t, asset, pm, seen) == [] <==>
      IdIssues(t, asset.id, seen) == [] && AssetOk(t, asset, pages)
  {
    hide IdIssues, OptionalBoxIssues, OptionalBoxOnPage, IsBlank;
    HasPageMeaning(pages, pm, asset.pageNumber);
    if asset.pageNumber in pm {
      BoxMeaning(asset.box, asset.pageNumber, pages, pm, InvalidVisualAsset);
    }
    hide PagesExact, HasPage;
  }

  // ---- Whole lists ----

  lemma RegionsMeaning(t: TextRules, regions: seq<LayoutRegion>, body: string, pages: seq<LayoutPage>, m: PageMap)
    requires PagesExact(pages, m)
    ensures RegionsIssues(t, regions, body, m, {}, |regions|) == [] <==>
      IdsClean(t, RegionIds(regions), {}) && forall r :: r in regions ==> RegionOk(r, body, pages)
  {
    RegionsIssuesEmpty(t, regions, body, m, |regions|);
    var ids := RegionIds(regions);
    hide PagesExact, RegionIssues, IdIssues, Registered, RegionOk, RegionsIssues;
    forall i | 0 <= i < |regions|
      ensures RegionIssues(t, regions[i], body, m, {} + Registered(t, ids, i)) == [] <==>
        IdIssues(t, ids[i], {} + Registered(t, ids, i)) == [] && RegionOk(regions[i], body, pages)
    {
      RegionMeaning(t, regions[i], body, pages, m, {} + Registered(t, ids, i));
    }
  }

  lemma GraphMeaning(regions: seq<LayoutRegion>, m: RegionMap)
    requires RegionsExact(regions, m)
    ensures GraphIssues(regions, m, |regions|) == [] <==> forall r :: r in regions ==> FamilyOk(r, regions)
  {
    GraphIssuesEmpty(regions, m, |regions|);
    hide ParentIssues, ChildrenIssues, FamilyOk, GraphIssues;
    forall i | 0 <= i < |regions|
      ensures FamilyOk(regions[i], regions) <==>
        ParentIssues(regions[i], m) == [] && ChildrenIssues(regions[i], m, |regions[i].childrenIds|) == []
    {
      FamilyMeaning(regions[i], regions, m);
    }
    hide RegionsExact;
  }

  lemma RelationsMeaning(t: TextRules, relations: seq<LayoutRelation>, regions: seq<LayoutRegion>, m: RegionMap, seen: set<string>)
    requires RegionsExact(regions, m)
    ensures RelationsIssues(t, relations, m, seen, |relations|) == [] <==>
      IdsClean(t, RelationIds(relations), seen) && forall r :: r in relations ==> RelationOk(r, regions)
  {
    RelationsIssuesEmpty(t, relations, m, seen, |relations|);
    var ids := RelationIds(relations);
    hide RelationIssues, IdIssues, Registered, RelationOk, RelationsIssues;
    forall i | 0 <= i < |relations|
      ensures RelationIssues(t, relations[i], m, seen + Registered(t, ids, i)) == [] <==>
        IdIssues(t, ids[i], seen + Registered(t, ids, i)) == [] && RelationOk(relations[i], regions)
    {
      RelationMeaning(t, relations[i], regions, m, seen + Registered(t, ids, i));
    }
    hide RegionsExact;
  }

  lemma TablesMeaning(t: TextRules, tables: seq<LayoutTable>, pages: seq<LayoutPage>, pm: PageMap,
                      regions: seq<LayoutRegion>, rm: RegionMap, seen: set<string>)
    requires PagesExact(pages, pm) && RegionsExact(regions, rm)
    ensures TablesIssues(t, tables, pm, rm, seen, |tables|) == [] <==>
      IdsClean(t, TableIds(tables), seen) && forall table :: table in tables ==> TableOk(table, pages, regions)
  {
    TablesIssuesEmpty(t, tables, pm, rm, seen, |tables|);
    var ids := TableIds(tables);
    hide TableIssues, IdIssues, Registered, TableOk, TablesIssues;
    forall i | 0 <= i < |tables|
      ensures TableIssues(t, tables[i], pm, rm, seen + Registered(t, ids, i)) == [] <==>
        IdIssues(t, ids[i], seen + Registered(t, ids, i)) == [] && TableOk(tables[i], pages, regions)
    {
      TableMeaning(t, tables[i], pages, pm, regions, rm, seen + Registered(t, ids, i));
    }
    hide RegionsExact, PagesExact;
  }

  lemma AssetsMeaning(t: TextRules, assets: seq<VisualAsset>, pages: seq<LayoutPage>, pm: PageMap, seen: set<string>)
    requires PagesExact(pages, pm)
    ensures AssetsIssues(t, assets, pm, seen, |assets|) == [] <==>
      IdsClean(t, AssetIds(assets), seen) && forall asset :: asset in assets ==> AssetOk(t, asset, pages)
  {
    AssetsIssuesEmpty(t, assets, pm, seen, |assets|);
    var ids := AssetIds(assets);
    hide AssetIssues, IdIssues, Registered, AssetOk, AssetsIssues;
    forall i | 0 <= i < |assets|
      ensures AssetIssues(t, assets[i], pm, seen + Registered(t, ids, i)) == [] <==>
        IdIssues(t, ids[i], seen + Registered(t, ids, i)) == [] && AssetOk(t, assets[i], pages)
    {
      AssetMeaning(t, assets[i], pages, pm, seen + Registered(t, ids, i));
    }
    hide PagesExact;
  }

  /** The four lists of ids, each clean against those registered before it, are together unique. */
  lemma AllIdsMeaning(t: TextRules, layout: DocumentLayout)
    ensures var a, b, c, d := RegionIds(layout.regions), RelationIds(layout.relations), TableIds(layout.tables), AssetIds(layout.visualAssets);
      var s1 := Registered(t, a, |a|);
      var s2 := s1 + Registered(t, b, |b|);
      var s3 := s2 + Registered(t, c, |c|);
      NoneBlank(t, AllIds(layout)) && Distinct(AllIds(layout)) <==>
        IdsClean(t, a, {}) && IdsClean(t, b, s1) && IdsClean(t, c, s2) && IdsClean(t, d, s3)
  {
    var a, b, c, d := RegionIds(layout.regions), RelationIds(layout.relations), TableIds(layout.tables), AssetIds(layout.visualAssets);
    hide IdsClean, Registered, Distinct;
    IdsCleanMeaning(t, a, {});
    assert IdsClean(t, a, {}) <==> NoneBlank(t, a) && Distinct(a);
    NoneBlankConcat(t, a, b);
    NoneBlankConcat(t, a + b, c);
    NoneBlankConcat(t, a + b + c, d);
    DistinctConcat(a, b);
    DistinctConcat(a + b, c);
    DistinctConcat(a + b + c, d);
    hide NoneBlank;
    if NoneBlank(t, a) {
      RegisteredAll(t, a);
      IdsCleanAppend(t, a, b, Registered(t, a, |a|));
      if NoneBlank(t, b) {
        RegisteredAll(t, b);
        var s2 := Registered(t, a, |a|) + Registered(t, b, |b|);
        IdsCleanAppend(t, a + b, c, s2);
        if NoneBlank(t, c) {
          RegisteredAll(t, c);
          IdsCleanAppend(t, a + b + c, d, s2 + Registered(t, c, |c|));
        }
      }
    }
    IdsCleanNoneBlank(t, b, Registered(t, a, |a|));
    IdsCleanNoneBlank(t, c, Registered(t, a, |a|) + Registered(t, b, |b|));
  }

  lemma IdsCleanNoneBlank(t: TextRules, ids: seq<string>, seen: set<string>)
    ensures IdsClean(t, ids, seen) ==> NoneBlank(t, ids)
  {
    IdsCleanMeaning(t, ids, seen);
  }

  lemma IssuesSplit(t: TextRules, layout: DocumentLayout, body: string)
    ensures var pages := PageTable(layout.pages, |layout.pages|);
      var regions := RegionTable(t, layout.regions, |layout.regions|);
      var s1 := Registered(t, RegionIds(layout.regions), |layout.regions|);
      var s2 := s1 + Registered(t, RelationIds(layout.relations), |layout.relations|);
      var s3 := s2 + Registered(t, TableIds(layout.tables), |layout.tables|);
      LayoutIssues(t, layout, body) == [] <==>
        && HeaderIssues(t, layout) == []
        && PagesIssues(layout.pages, |layout.pages|) == []
        && RegionsIssues(t, layout.regions, body, pages, {}, |layout.regions|) == []
        && GraphIssues(layout.regions, regions, |layout.regions|) == []
        && RelationsIssues(t, layout.relations, regions, s1, |layout.relations|) == []
        && TablesIssues(t, layout.tables, pages, regions, s2, |layout.tables|) == []
        && AssetsIssues(t, layout.visualAssets, pages, s3, |layout.visualAssets|) == []
  {
    hide HeaderIssues, PagesIssues, RegionsIssues, GraphIssues, RelationsIssues, TablesIssues, AssetsIssues,
         PageTable, RegionTable, Registered;
  }

  /** The validator reports nothing exactly when the layout is well-formed for the body. */
  lemma LayoutValidIffWellFormed(t: TextRules, layout: DocumentLayout, body: string)
    ensures LayoutIssues(t, layout, body) == [] <==> WellFormed(t, layout, body)
  {
    IssuesSplit(t, layout, body);
    PagesIssuesMeaning(layout.pages);
    AllIdsMeaning(t, layout);
    HeaderMeaning(t, layout);
    var a := RegionIds(layout.regions);
    IdsCleanMeaning(t, a, {});
    hide LayoutIssues, HeaderIssues, PagesIssues, RegionsIssues, GraphIssues, RelationsIssues, TablesIssues, AssetsIssues,
         PageTable, RegionTable, Registered, PagesOk, NoneBlank, Distinct, IdsClean, AllIds,
         RegionOk, FamilyOk, RelationOk, TableOk, AssetOk, IsBlank;
    if PagesOk(layout.pages) {
      var pm := PageTable(layout.pages, |layout.pages|);
      PageTableExact(layout.pages);
      RegionsMeaning(t, layout.regions, body, layout.pages, pm);
      if IdsClean(t, a, {}) {
        var rm := RegionTable(t, layout.regions, |layout.regions|);
        RegionTableExact(t, layout.regions);
        var s1 := Registered(t, a, |layout.regions|);
        var s2 := s1 + Registered(t, RelationIds(layout.relations), |layout.relations|);
        var s3 := s2 + Registered(t, TableIds(layout.tables), |layout.tables|);
        GraphMeaning(layout.regions, rm);
        RelationsMeaning(t, layout.relations, layout.regions, rm, s1);
        TablesMeaning(t, layout.tables, layout.pages, pm, layout.regions, rm, s2);
        AssetsMeaning(t, layout.visualAssets, layout.pages, pm, s3);
      }
    }
  }

  lemma HeaderMeaning(t: TextRules, layout: DocumentLayout)
    ensures HeaderIssues(t, layout) == [] <==>
      !IsBlank(t, layout.parserId) && !layout.strategy.UnknownStrategy? && layout.pages != []
  {
    hide IsBlank;
  }
}
