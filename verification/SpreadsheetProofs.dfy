/** What the spreadsheet parser's layout says about its body, and that the validator accepts it. */
module SpreadsheetProofs {
  import opened Text
  import opened Decimal
  import opened Layout
  import opened LayoutValidator
  import opened LayoutSoundness
  import opened PythonStrings
  import opened ParsedRegions
  import opened SheetRows
  import opened SpreadsheetParser

  /** The characters that ids and media types are made of are not whitespace. */
  predicate LettersVisible(t: TextRules) {
    forall c :: 'a' <= c <= 'z' ==> !t.isSpace(c)
  }

  // ---- No part is empty ----

  lemma JoinedNotEmpty(separator: string, parts: seq<string>)
    requires parts != [] && parts[|parts| - 1] != ""
    ensures Joined(separator, parts) != ""
  {
  }

  lemma {:induction false} JoinedFirst(separator: string, parts: seq<string>)
    requires parts != [] && parts[0] != ""
    ensures Joined(separator, parts) != "" && Joined(separator, parts)[0] == parts[0][0]
  {
    if |parts| > 1 {
      JoinedFirst(separator, parts[..|parts| - 1]);
    }
  }

  lemma TableTextNotEmpty(sheet: Sheet)
    requires Rows(sheet) != []
    ensures TableText(Rows(sheet)) != ""
  {
    var rows := Rows(sheet);
    RowsMeaning(sheet, Height(sheet));
    var last := rows[|rows| - 1];
    assert last in rows;
    assert IsRow(sheet, last);
    assert last.values[|last.values| - 1] != "";
    hide Rows, RowTexts, Trimmed;
    JoinedNotEmpty(" | ", last.values);
    JoinedNotEmpty("\n", RowLines(rows));
  }

  lemma SummaryNotEmpty(py: Python, a: SheetAsset)
    requires !py.isSpace('V')
    ensures AssetSummary(py, a) != ""
  {
    hide IdOf;
    var parts := ["Visual asset", IdOf(a.key), a.assetType, a.chartType, a.title, a.anchor];
    assert NotEmpty(parts) == ["Visual asset"] + NotEmpty(parts[1..]);
    JoinedFirst(" ", NotEmpty(parts));
    var joined := Joined(" ", NotEmpty(parts));
    hide Joined, NotEmpty;
    assert joined[0] == 'V';
    assert LStrip(py.isSpace, joined) == joined;
    hide LStrip, RStrip;
    assert RStrip(py.isSpace, joined) != "";
  }

  lemma AssetTextNotEmpty(py: Python, assets: seq<SheetAsset>)
    requires !py.isSpace('V') && assets != []
    ensures AssetText(py, assets) != ""
  {
    hide AssetSummary;
    SummaryNotEmpty(py, assets[|assets| - 1]);
    JoinedNotEmpty("\n", Summaries(py, assets));
  }

  /** What every part of the first k sheets is like. */
  predicate PartOk(part: Part, k: nat) {
    && part.text != "" && !part.kind.OtherKind? && 1 <= part.key.sheet <= k
    && (part.key.tag.TitleTag? || part.key.tag.TableRegionTag? || part.key.tag.AssetsTag?)
  }

  lemma SheetPartsOk(py: Python, sheet: Sheet, n: nat)
    requires !py.isSpace('V') && n >= 1
    ensures forall part :: part in SheetParts(py, sheet, n) ==> PartOk(part, n) && part.key.sheet == n
  {
    hide Rows, SheetAssets, TableText, AssetText;
    if Rows(sheet) != [] { TableTextNotEmpty(sheet); }
    if SheetAssets(sheet, n) != [] { AssetTextNotEmpty(py, SheetAssets(sheet, n)); }
  }

  lemma {:induction false} PartsOk(py: Python, sheets: seq<Sheet>, k: nat)
    requires !py.isSpace('V') && k <= |sheets|
    ensures forall part :: part in PartsUpTo(py, sheets, k) ==> PartOk(part, k)
  {
    hide SheetParts;
    if k > 0 {
      PartsOk(py, sheets, k - 1);
      SheetPartsOk(py, sheets[k - 1], k);
    }
  }

  // ---- Regions and the body ----

  lemma {:induction false} RegionsAt(parts: seq<Part>, i: nat)
    requires i < |parts|
    ensures PartTexts(parts)[i] == parts[i].text
    ensures RegionsOf(parts)[i] == RegionAt(parts[i], StartOf(SEPARATOR, PartTexts(parts), i))
  {
    hide RegionAt, StartOf;
    var before, last := parts[..|parts| - 1], parts[|parts| - 1];
    if i < |before| {
      RegionsAt(before, i);
    }
    StartOfPrefix(SEPARATOR, PartTexts(before), [last.text], i);
  }

  /** Every region slices the joined body to exactly the text of its part. */
  lemma {:induction false} RegionSlices(parts: seq<Part>, i: nat)
    requires i < |parts| && parts[i].text != "" && !parts[i].kind.OtherKind?
    ensures var r := RegionsOf(parts)[i];
      SlicesBody(Joined(SEPARATOR, PartTexts(parts)), r) && Bare(r) && r.text == Some(parts[i].text)
      && r.id == IdOf(parts[i].key) && r.kind == parts[i].kind && r.pageNumber == parts[i].key.sheet
  {
    hide IdOf, StartOf, Joined, RegionsOf, PartTexts;
    RegionsAt(parts, i);
    JoinedAt(SEPARATOR, PartTexts(parts), i);
  }

  lemma RegionsInOrder(parts: seq<Part>)
    ensures InOrder(RegionsOf(parts))
  {
    hide IdOf, StartOf, RegionsOf, PartTexts;
    var regions := RegionsOf(parts);
    forall i, j | 0 <= i < j < |regions| ensures To(regions[i]) <= From(regions[j]) {
      RegionsAt(parts, i);
      RegionsAt(parts, j);
      StartOfOrdered(SEPARATOR, PartTexts(parts), i, j);
    }
  }

  /** The regions cover the body in order: each is an exact, non-empty slice, one per part, and the
      parts are all there is. */
  lemma RegionsSliceBody(py: Python, sheets: seq<Sheet>)
    requires !py.isSpace('V')
    ensures var regions, parts, body := LayoutOf(py, sheets).regions, Parts(py, sheets), BodyOf(py, sheets);
      && InOrder(regions) && |regions| == |parts|
      && (forall i :: 0 <= i < |regions| ==> SlicesBody(body, regions[i]) && regions[i].text == Some(parts[i].text))
      && body == Joined(SEPARATOR, PartTexts(parts))
  {
    hide RegionsOf, PartTexts, PartsUpTo, IdOf, Joined, HasMaterial;
    var parts := Parts(py, sheets);
    PartsOk(py, sheets, |sheets|);
    RegionsInOrder(parts);
    forall i | 0 <= i < |parts|
      ensures SlicesBody(Joined(SEPARATOR, PartTexts(parts)), RegionsOf(parts)[i])
           && RegionsOf(parts)[i].text == Some(parts[i].text)
    {
      assert parts[i] in parts;
      RegionSlices(parts, i);
    }
    hide SlicesBody, InOrder;
  }

  // ---- The warning about an empty workbook ----

  lemma {:induction false} FirstPart(py: Python, sheets: seq<Sheet>, k: nat)
    requires 1 <= k <= |sheets|
    ensures PartsUpTo(py, sheets, k) != [] && PartsUpTo(py, sheets, k)[0] == TitlePart(sheets[0], 1)
  {
    hide TablePart, AssetsPart, TitlePart, Rows, SheetAssets;
    if k > 1 { FirstPart(py, sheets, k - 1); }
  }

  lemma {:induction false} FirstText(parts: seq<Part>)
    requires parts != []
    ensures PartTexts(parts)[0] == parts[0].text
  {
    if |parts| > 1 { FirstText(parts[..|parts| - 1]); }
  }

  /** The workbook is reported as empty exactly when no sheet has rows, charts or images; otherwise the
      formula warnings of all sheets are passed on. */
  lemma EmptyWorkbookIff(py: Python, sheets: seq<Sheet>)
    requires !py.isSpace('#')
    ensures WarningsOf(py, sheets) == if HasMaterial(sheets) then SheetWarningsUpTo(sheets, |sheets|) else [EmptyWorkbook]
    ensures HasMaterial(sheets) <==> BodyOf(py, sheets) != ""
  {
    hide Material, PartsUpTo, PartTexts, Joined, SheetWarningsUpTo;
    if HasMaterial(sheets) {
      var parts := PartsUpTo(py, sheets, |sheets|);
      FirstPart(py, sheets, |sheets|);
      FirstText(parts);
      JoinedFirst(SEPARATOR, PartTexts(parts));
      assert BodyOf(py, sheets)[0] == '#';
    } else {
      NothingAppended();
    }
  }

  // ---- Unique ids ----

  ghost predicate Named(ids: seq<string>, keys: seq<Key>) {
    |ids| == |keys| && forall i :: 0 <= i < |ids| ==> ids[i] == IdOf(keys[i])
  }

  lemma IdVisible(t: TextRules, key: Key)
    requires LettersVisible(t)
    ensures !IsBlank(t, IdOf(key))
  {
    assert IdOf(key)[0] == 's';
  }

  lemma NamedDistinct(t: TextRules, ids: seq<string>, keys: seq<Key>)
    requires LettersVisible(t) && Named(ids, keys) && Distinct(keys)
    ensures NoneBlank(t, ids) && Distinct(ids)
  {
    hide IdOf, IsBlank, LettersVisible;
    forall i | 0 <= i < |ids| ensures !IsBlank(t, ids[i]) { IdVisible(t, keys[i]); }
    forall i, j | 0 <= i < j < |ids| ensures ids[i] != ids[j] {
      if ids[i] == ids[j] { IdInjects(keys[i], keys[j]); }
    }
  }

  function PartKeys(parts: seq<Part>): (keys: seq<Key>)
    ensures |keys| == |parts| && forall i :: 0 <= i < |keys| ==> keys[i] == parts[i].key
  {
    seq(|parts|, i requires 0 <= i < |parts| => parts[i].key)
  }

  function AssetKeys(assets: seq<SheetAsset>): (keys: seq<Key>)
    ensures |keys| == |assets| && forall i :: 0 <= i < |keys| ==> keys[i] == assets[i].key
  {
    seq(|assets|, i requires 0 <= i < |assets| => assets[i].key)
  }

  function TableKeysUpTo(sheets: seq<Sheet>, k: nat): seq<Key>
    requires k <= |sheets|
  {
    if k == 0 then [] else TableKeysUpTo(sheets, k - 1) + When(Rows(sheets[k - 1]) != [], Key(k, TableTag))
  }

  predicate PartTag(tag: Tag) { tag.TitleTag? || tag.TableRegionTag? || tag.AssetsTag? }

  predicate AssetTag(tag: Tag) { tag.ChartTag? || tag.ImageTag? }

  /** Distinct keys on the sheets up to k, with tags of the given class. */
  ghost predicate KeysUpTo(keys: seq<Key>, k: nat, tag: Tag -> bool) {
    Distinct(keys) && forall key :: key in keys ==> key.sheet <= k && tag(key.tag)
  }

  lemma KeysGrow(before: seq<Key>, own: seq<Key>, k: nat, tag: Tag -> bool)
    requires KeysUpTo(before, k, tag) && Distinct(own)
    requires forall key :: key in own ==> key.sheet == k + 1 && tag(key.tag)
    ensures KeysUpTo(before + own, k + 1, tag)
  {
    DistinctConcat(before, own);
  }

  lemma SheetPartKeys(py: Python, sheet: Sheet, n: nat)
    ensures var keys := PartKeys(SheetParts(py, sheet, n));
      Distinct(keys) && forall key :: key in keys ==> key.sheet == n && PartTag(key.tag)
  {
    hide Rows, SheetAssets, TableText, AssetText;
    var parts := SheetParts(py, sheet, n);
    assert parts[0].key == Key(n, TitleTag);
    assert |parts| <= 3;
    assert |parts| == 3 ==> parts[1].key == Key(n, TableRegionTag) && parts[2].key == Key(n, AssetsTag);
    assert |parts| == 2 ==> parts[1].key in {Key(n, TableRegionTag), Key(n, AssetsTag)};
  }

  lemma {:induction false} PartKeysDistinct(py: Python, sheets: seq<Sheet>, k: nat)
    requires k <= |sheets|
    ensures KeysUpTo(PartKeys(PartsUpTo(py, sheets, k)), k, PartTag)
  {
    hide SheetParts;
    if k > 0 {
      PartKeysDistinct(py, sheets, k - 1);
      SheetPartKeys(py, sheets[k - 1], k);
      var before, own := PartsUpTo(py, sheets, k - 1), SheetParts(py, sheets[k - 1], k);
      KeysGrow(PartKeys(before), PartKeys(own), k - 1, PartTag);
      assert PartKeys(before + own) == PartKeys(before) + PartKeys(own);
      hide KeysUpTo;
    }
  }

  lemma SheetAssetKeys(sheet: Sheet, n: nat)
    ensures var keys := AssetKeys(SheetAssets(sheet, n));
      Distinct(keys) && forall key :: key in keys ==> key.sheet == n && AssetTag(key.tag)
  {
    hide MediaTypeName;
    var charts, images := ChartAssets(sheet, n), ImageAssets(sheet, n);
    assert AssetKeys(charts + images) == AssetKeys(charts) + AssetKeys(images);
    DistinctConcat(AssetKeys(charts), AssetKeys(images));
  }

  lemma {:induction false} AssetKeysDistinct(sheets: seq<Sheet>, k: nat)
    requires k <= |sheets|
    ensures KeysUpTo(AssetKeys(AssetsUpTo(sheets, k)), k, AssetTag)
  {
    hide SheetAssets;
    if k > 0 {
      AssetKeysDistinct(sheets, k - 1);
      SheetAssetKeys(sheets[k - 1], k);
      var before, own := AssetsUpTo(sheets, k - 1), SheetAssets(sheets[k - 1], k);
      KeysGrow(AssetKeys(before), AssetKeys(own), k - 1, AssetTag);
      assert AssetKeys(before + own) == AssetKeys(before) + AssetKeys(own);
      hide KeysUpTo;
    }
  }

  lemma {:induction false} TableKeysDistinct(sheets: seq<Sheet>, k: nat)
    requires k <= |sheets|
    ensures KeysUpTo(TableKeysUpTo(sheets, k), k, tag => tag == TableTag)
    ensures Named(TableIds(TablesUpTo(sheets, k)), TableKeysUpTo(sheets, k))
  {
    hide Rows, IdOf;
    if k > 0 {
      TableKeysDistinct(sheets, k - 1);
      KeysGrow(TableKeysUpTo(sheets, k - 1), When(Rows(sheets[k - 1]) != [], Key(k, TableTag)), k - 1, tag => tag == TableTag);
    }
  }

  lemma KeysTogether(pk: seq<Key>, tk: seq<Key>, ak: seq<Key>, n: nat)
    requires KeysUpTo(pk, n, PartTag) && KeysUpTo(tk, n, tag => tag == TableTag) && KeysUpTo(ak, n, AssetTag)
    ensures Distinct(pk + tk + ak)
  {
    DistinctConcat(pk, tk);
    DistinctConcat(pk + tk, ak);
    hide Distinct;
    assert forall key :: key in pk ==> PartTag(key.tag);
  }

  lemma NamedConcat(xs: seq<string>, a: seq<Key>, ys: seq<string>, b: seq<Key>)
    requires Named(xs, a) && Named(ys, b)
    ensures Named(xs + ys, a + b)
  {
    hide IdOf;
  }

  function TableKeys(sheets: seq<Sheet>): seq<Key> {
    if HasMaterial(sheets) then TableKeysUpTo(sheets, |sheets|) else []
  }

  lemma TablesNamed(sheets: seq<Sheet>)
    ensures KeysUpTo(TableKeys(sheets), |sheets|, tag => tag == TableTag)
    ensures Named(TableIds(Tables(sheets)), TableKeys(sheets))
  {
    hide HasMaterial, TableKeysUpTo, TablesUpTo, IdOf;
    TableKeysDistinct(sheets, |sheets|);
  }

  lemma PartsNamed(py: Python, sheets: seq<Sheet>)
    ensures KeysUpTo(PartKeys(Parts(py, sheets)), |sheets|, PartTag)
    ensures Named(RegionIds(RegionsOf(Parts(py, sheets))), PartKeys(Parts(py, sheets)))
  {
    hide HasMaterial, PartsUpTo, IdOf, RegionsOf, Named;
    PartKeysDistinct(py, sheets, |sheets|);
    RegionIdsNamed(Parts(py, sheets));
  }

  lemma AssetsNamed(assets: seq<SheetAsset>)
    ensures Named(AssetIds(ToVisualAssets(assets)), AssetKeys(assets))
  {
    hide IdOf;
  }

  /** No id is blank or used twice, in one list or across the lists. */
  lemma AllIdsDistinct(t: TextRules, py: Python, sheets: seq<Sheet>)
    requires LettersVisible(t)
    ensures NoneBlank(t, AllIds(LayoutOf(py, sheets))) && Distinct(AllIds(LayoutOf(py, sheets)))
  {
    var n, layout, assets := |sheets|, LayoutOf(py, sheets), AssetsUpTo(sheets, |sheets|);
    hide Parts, Tables, AssetsUpTo, TableKeys, IdOf, KeysUpTo, Distinct, Named, NoneBlank, RegionsOf, LettersVisible;
    var pk, tk, ak := PartKeys(Parts(py, sheets)), TableKeys(sheets), AssetKeys(assets);
    PartsNamed(py, sheets);
    TablesNamed(sheets);
    AssetsNamed(assets);
    AssetKeysDistinct(sheets, n);
    KeysTogether(pk, tk, ak, n);
    var regionIds, tableIds, assetIds := RegionIds(layout.regions), TableIds(layout.tables), AssetIds(layout.visualAssets);
    NamedConcat(regionIds, pk, tableIds, tk);
    NamedConcat(regionIds + tableIds, pk + tk, assetIds, ak);
    assert regionIds + [] == regionIds;
    assert AllIds(layout) == regionIds + tableIds + assetIds;
    NamedDistinct(t, AllIds(layout), pk + tk + ak);
  }

  lemma RegionIdsNamed(parts: seq<Part>)
    ensures Named(RegionIds(RegionsOf(parts)), PartKeys(parts))
  {
    hide RegionsOf, IdOf, StartOf, PartTexts;
    forall i | 0 <= i < |parts| ensures RegionsOf(parts)[i].id == IdOf(parts[i].key) {
      RegionsAt(parts, i);
    }
  }

  // ---- The validator accepts it ----

  lemma PagesPass(sheets: seq<Sheet>)
    ensures PagesOf(sheets) != [] && PagesOk(PagesOf(sheets))
    ensures forall n :: 1 <= n <= |sheets| ==> HasPage(PagesOf(sheets), n)
  {
    var pages := PagesOf(sheets);
    forall n | 1 <= n <= |sheets| ensures HasPage(pages, n) {
      assert pages[n - 1].pageNumber == n;
    }
    forall page | page in pages ensures PageOk(page) {
      if sheets != [] {
        var i :| 0 <= i < |pages| && pages[i] == page;
      }
    }
  }

  lemma RegionsPass(py: Python, sheets: seq<Sheet>, i: nat)
    requires !py.isSpace('V') && i < |Parts(py, sheets)|
    ensures var regions := RegionsOf(Parts(py, sheets));
      RegionOk(regions[i], BodyOf(py, sheets), PagesOf(sheets)) && FamilyOk(regions[i], regions)
  {
    hide PartsUpTo, HasMaterial, RegionsOf, PartTexts, IdOf, Joined, PagesOk, HasPage, RegionOk, FamilyOk, SlicesBody, PagesOf;
    var parts := Parts(py, sheets);
    PartsOk(py, sheets, |sheets|);
    assert parts[i] in parts;
    RegionSlices(parts, i);
    PagesPass(sheets);
    RegionPasses(BodyOf(py, sheets), RegionsOf(parts)[i], PagesOf(sheets), RegionsOf(parts));
  }

  lemma {:induction false} TablePartThere(py: Python, sheets: seq<Sheet>, k: nat, n: nat) returns (i: nat)
    requires 1 <= n <= k <= |sheets| && Rows(sheets[n - 1]) != []
    ensures i < |PartsUpTo(py, sheets, k)| && PartsUpTo(py, sheets, k)[i] == TablePart(sheets[n - 1], n)
  {
    hide Rows, SheetAssets, TablePart, TitlePart, AssetsPart;
    if n < k {
      hide SheetParts;
      i := TablePartThere(py, sheets, k - 1, n);
    } else {
      i := |PartsUpTo(py, sheets, k - 1)| + 1;
      assert SheetParts(py, sheets[n - 1], n)[1] == TablePart(sheets[n - 1], n);
    }
  }

  lemma {:induction false} TablesMeaning(sheets: seq<Sheet>, k: nat, table: LayoutTable) returns (n: nat)
    requires k <= |sheets| && table in TablesUpTo(sheets, k)
    ensures 1 <= n <= k && Rows(sheets[n - 1]) != [] && table == TableOf(Rows(sheets[n - 1]), n)
  {
    hide Rows, TableOf;
    if table in TablesUpTo(sheets, k - 1) {
      n := TablesMeaning(sheets, k - 1, table);
    } else {
      n := k;
    }
  }

  /** Every table stands on a table region of its own sheet. */
  lemma TablesPass(py: Python, sheets: seq<Sheet>, table: LayoutTable)
    requires !py.isSpace('V') && table in Tables(sheets)
    ensures TableOk(table, PagesOf(sheets), RegionsOf(Parts(py, sheets)))
  {
    hide PartsUpTo, TablesUpTo, Rows, HasMaterial, RegionsOf, PartTexts, IdOf, Joined, PagesOk, SlicesBody, PagesOf, CellsUpTo, TableText;
    var n := TablesMeaning(sheets, |sheets|, table);
    var i := TablePartThere(py, sheets, |sheets|, n);
    var parts := Parts(py, sheets);
    PartsOk(py, sheets, |sheets|);
    assert parts[i] in parts;
    RegionSlices(parts, i);
    assert RegionsOf(parts)[i] in RegionsOf(parts);
    PagesPass(sheets);
  }

  lemma {:induction false} AssetsMeaning(sheets: seq<Sheet>, k: nat)
    requires k <= |sheets|
    ensures forall a :: a in AssetsUpTo(sheets, k) ==> 1 <= a.key.sheet <= k && 'm' in a.mediaType
  {
    if k > 0 {
      AssetsMeaning(sheets, k - 1);
      SheetAssetsMeaning(sheets[k - 1], k);
      hide SheetAssets;
    }
  }

  lemma SheetAssetsMeaning(sheet: Sheet, n: nat)
    ensures forall a :: a in SheetAssets(sheet, n) ==> a.key.sheet == n && 'm' in a.mediaType
  {
    forall a | a in SheetAssets(sheet, n) ensures a.key.sheet == n && 'm' in a.mediaType {
      assert a.mediaType[1] == 'm';
    }
  }

  lemma AssetsPass(t: TextRules, sheets: seq<Sheet>, asset: VisualAsset)
    requires LettersVisible(t) && asset in ToVisualAssets(AssetsUpTo(sheets, |sheets|))
    ensures AssetOk(t, asset, PagesOf(sheets))
  {
    hide AssetsUpTo, IdOf, PagesOf, HasPage, PagesOk, LettersVisible;
    var assets := AssetsUpTo(sheets, |sheets|);
    AssetsMeaning(sheets, |sheets|);
    PagesPass(sheets);
    var i :| 0 <= i < |assets| && ToVisualAsset(assets[i]) == asset;
    assert assets[i] in assets;
    MediaTypeVisible(t, asset.mediaType);
  }

  lemma MediaTypeVisible(t: TextRules, mediaType: string)
    requires LettersVisible(t) && 'm' in mediaType
    ensures !IsBlank(t, mediaType)
  {
  }

  /** The layout is well formed for the body, whatever the sheets hold: the independent validator finds
      nothing wrong with it. */
  lemma SpreadsheetLayoutValid(t: TextRules, py: Python, sheets: seq<Sheet>)
    requires LettersVisible(t) && !py.isSpace('V')
    ensures LayoutIssues(t, LayoutOf(py, sheets), BodyOf(py, sheets)) == []
  {
    hide Parts, Tables, AssetsUpTo, PagesOf, BodyOf, RegionsOf, ToVisualAssets, PagesOk, NoneBlank, Distinct, AllIds,
         RegionOk, FamilyOk, TableOk, AssetOk, LayoutIssues;
    var layout, body := LayoutOf(py, sheets), BodyOf(py, sheets);
    AllIdsDistinct(t, py, sheets);
    PagesPass(sheets);
    assert layout.parserId[1] == 'p';
    forall r | r in layout.regions ensures RegionOk(r, body, layout.pages) && FamilyOk(r, layout.regions) {
      var i :| 0 <= i < |layout.regions| && layout.regions[i] == r;
      RegionsPass(py, sheets, i);
    }
    forall table | table in layout.tables ensures TableOk(table, layout.pages, layout.regions) {
      TablesPass(py, sheets, table);
    }
    forall asset | asset in layout.visualAssets ensures AssetOk(t, asset, layout.pages) {
      AssetsPass(t, sheets, asset);
    }
    LayoutValidIffWellFormed(t, layout, body);
  }
}
