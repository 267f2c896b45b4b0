/** Which layout regions, boxes and page a window's chunk cites. */
module LayoutEvidence {
  import opened Text
  import opened Layout
  import opened Windows
  import opened RelatedRegions

  datatype Evidence = Evidence(layoutRegionIds: seq<string>, boundingBoxes: seq<LayoutBox>, pageNumber: Option<int>)

  predicate Overlaps(region: LayoutRegion, w: TextWindow) {
    && region.characterStart.Some? && region.characterEnd.Some?
    && region.characterStart.value < w.end && region.characterEnd.value > w.start
  }

  /** Regions by id; a later region of the same id replaces an earlier one. */
  function RegionsById(regions: seq<LayoutRegion>, k: nat): map<string, LayoutRegion>
    requires k <= |regions|
  {
    if k == 0 then map[] else RegionsById(regions, k - 1)[regions[k - 1].id := regions[k - 1]]
  }

  function AddRegion(ids: seq<string>, id: string, byId: map<string, LayoutRegion>): seq<string> {
    if id in ids || id !in byId then ids else ids + [id]
  }

  function OverlapIds(regions: seq<LayoutRegion>, byId: map<string, LayoutRegion>, w: TextWindow, k: nat): seq<string>
    requires k <= |regions|
  {
    if k == 0 then []
    else
      var ids := OverlapIds(regions, byId, w, k - 1);
      if Overlaps(regions[k - 1], w) then AddRegion(ids, regions[k - 1].id, byId) else ids
  }

  /** The page of the first region that overlaps the window. */
  function OverlapPage(regions: seq<LayoutRegion>, w: TextWindow, k: nat): Option<int>
    requires k <= |regions|
  {
    if k == 0 then None
    else
      var page := OverlapPage(regions, w, k - 1);
      if page.None? && Overlaps(regions[k - 1], w) then Some(regions[k - 1].pageNumber) else page
  }

  function AddAll(ids: seq<string>, more: seq<string>, byId: map<string, LayoutRegion>, k: nat): seq<string>
    requires k <= |more|
  {
    if k == 0 then ids else AddRegion(AddAll(ids, more, byId, k - 1), more[k - 1], byId)
  }

  function OrderedIds(regions: seq<LayoutRegion>, selected: set<string>): (ids: seq<string>)
    ensures forall id :: id in ids <==> exists r :: r in regions && r.id == id && id in selected
  {
    if regions == [] then []
    else
      assert forall r :: r in regions <==> r == regions[0] || r in regions[1..];
      (if regions[0].id in selected then [regions[0].id] else []) + OrderedIds(regions[1..], selected)
  }

  function BoxesOf(ids: seq<string>, byId: map<string, LayoutRegion>): (boxes: seq<LayoutBox>)
    ensures forall box :: box in boxes <==> exists id :: id in ids && id in byId && byId[id].box == Some(box)
  {
    if ids == [] then []
    else
      assert forall id :: id in ids <==> id == ids[0] || id in ids[1..];
      (if ids[0] in byId && byId[ids[0]].box.Some? then [byId[ids[0]].box.value] else []) + BoxesOf(ids[1..], byId)
  }

  /** The window's own regions, then those related to them. */
  function SelectedIds(layout: DocumentLayout, w: TextWindow): seq<string> {
    var byId := RegionsById(layout.regions, |layout.regions|);
    var own := OverlapIds(layout.regions, byId, w, |layout.regions|);
    var related := RelatedIds(layout.relations, own);
    AddAll(own, related, byId, |related|)
  }

  function EvidenceFor(layout: Option<DocumentLayout>, w: TextWindow): Evidence {
    if layout.None? then Evidence([], [], None)
    else
      var regions := layout.value.regions;
      var ids := OrderedIds(regions, SetOf(SelectedIds(layout.value, w)));
      Evidence(ids, BoxesOf(ids, RegionsById(regions, |regions|)), OverlapPage(regions, w, |regions|))
  }

  method CollectRegions(regions: seq<LayoutRegion>) returns (byId: map<string, LayoutRegion>)
    ensures byId == RegionsById(regions, |regions|)
  {
    byId := map[];
    for k := 0 to |regions|
      invariant byId == RegionsById(regions, k)
    {
      byId := byId[regions[k].id := regions[k]];
    }
  }

  method LayoutEvidenceForWindow(layout: Option<DocumentLayout>, w: TextWindow) returns (evidence: Evidence)
    ensures evidence == EvidenceFor(layout, w)
  {
    if layout.None? {
      return Evidence([], [], None);
    }
    var regions := layout.value.regions;
    var ids: seq<string> := [];
    var pageNumber: Option<int> := None;
    var byId := CollectRegions(regions);
    hide RegionsById, Search, OrderedIds, BoxesOf;
    for k := 0 to |regions|
      invariant ids == OverlapIds(regions, byId, w, k)
      invariant pageNumber == OverlapPage(regions, w, k)
    {
      if Overlaps(regions[k], w) {
        ids := AddRegion(ids, regions[k].id, byId);
        if pageNumber.None? {
          pageNumber := Some(regions[k].pageNumber);
        }
      }
    }
    ghost var own := ids;
    var related := RelatedLayoutRegionIds(layout.value.relations, ids);
    for k := 0 to |related|
      invariant ids == AddAll(own, related, byId, k)
    {
      ids := AddRegion(ids, related[k], byId);
    }
    var ordered := OrderedIds(regions, SetOf(ids));
    evidence := Evidence(ordered, BoxesOf(ordered, byId), pageNumber);
  }

  // ---- What the evidence means ----

  lemma {:induction false} RegionsByIdKeys(regions: seq<LayoutRegion>, k: nat)
    requires k <= |regions|
    ensures forall i :: 0 <= i < k ==> regions[i].id in RegionsById(regions, k)
    ensures forall id :: id in RegionsById(regions, k) ==>
      RegionsById(regions, k)[id] in regions && RegionsById(regions, k)[id].id == id
  {
    if k > 0 { RegionsByIdKeys(regions, k - 1); }
  }

  lemma {:induction false} OverlapIdsMeaning(regions: seq<LayoutRegion>, byId: map<string, LayoutRegion>, w: TextWindow, k: nat)
    requires k <= |regions| && forall i :: 0 <= i < |regions| ==> regions[i].id in byId
    ensures forall id :: id in OverlapIds(regions, byId, w, k) <==>
      exists i :: 0 <= i < k && regions[i].id == id && Overlaps(regions[i], w)
  {
    hide Overlaps;
    if k > 0 { OverlapIdsMeaning(regions, byId, w, k - 1); }
  }

  lemma {:induction false} AddAllMeaning(ids: seq<string>, more: seq<string>, byId: map<string, LayoutRegion>, k: nat)
    requires k <= |more|
    ensures forall id :: id in AddAll(ids, more, byId, k) <==>
      id in ids || (id in byId && exists i :: 0 <= i < k && more[i] == id)
  {
    if k > 0 { AddAllMeaning(ids, more, byId, k - 1); }
  }

  lemma {:induction false} OverlapPageMeaning(regions: seq<LayoutRegion>, w: TextWindow, k: nat)
    requires k <= |regions|
    ensures var page := OverlapPage(regions, w, k);
      && (page.Some? ==> exists i :: 0 <= i < k && Overlaps(regions[i], w) && regions[i].pageNumber == page.value
                          && forall j :: 0 <= j < i ==> !Overlaps(regions[j], w))
      && (page.None? ==> forall i :: 0 <= i < k ==> !Overlaps(regions[i], w))
  {
    hide Overlaps;
    if k > 0 { OverlapPageMeaning(regions, w, k - 1); }
  }

  ghost predicate OwnRegion(regions: seq<LayoutRegion>, w: TextWindow, id: string) {
    exists r :: r in regions && r.id == id && Overlaps(r, w)
  }

  /** A region id is cited exactly when the region overlaps the window or the search found it. */
  lemma EvidenceIdsMeaning(layout: DocumentLayout, w: TextWindow)
    ensures var byId := RegionsById(layout.regions, |layout.regions|);
      var own := OverlapIds(layout.regions, byId, w, |layout.regions|);
      && (forall id :: id in own <==> OwnRegion(layout.regions, w, id))
      && (forall id :: id in EvidenceFor(Some(layout), w).layoutRegionIds <==>
            (exists r :: r in layout.regions && r.id == id) && (id in own || id in RelatedIds(layout.relations, own)))
  {
    var byId := RegionsById(layout.regions, |layout.regions|);
    var own := OverlapIds(layout.regions, byId, w, |layout.regions|);
    var related := RelatedIds(layout.relations, own);
    RegionsByIdKeys(layout.regions, |layout.regions|);
    OverlapIdsMeaning(layout.regions, byId, w, |layout.regions|);
    AddAllMeaning(own, related, byId, |related|);
    hide RegionsById, OverlapIds, Search, AddAll, Overlaps, OrderedIds, BoxesOf;
  }

  /** When fewer than a hundred regions are reachable from the window's own regions, exactly those
      of them that are regions of the layout are cited. */
  lemma EvidenceComplete(layout: DocumentLayout, w: TextWindow, bound: set<string>)
    requires |bound| < MAX_SEEN
    requires var byId := RegionsById(layout.regions, |layout.regions|);
      var own := OverlapIds(layout.regions, byId, w, |layout.regions|);
      forall id :: Reachable(layout.relations, SetOf(own), id) ==> id in bound
    ensures var byId := RegionsById(layout.regions, |layout.regions|);
      var own := OverlapIds(layout.regions, byId, w, |layout.regions|);
      forall id :: id in EvidenceFor(Some(layout), w).layoutRegionIds <==>
        (exists r :: r in layout.regions && r.id == id) && Reachable(layout.relations, SetOf(own), id)
  {
    hide RegionsById, OverlapIds, Search, Reachable, EvidenceFor;
    EvidenceIdsMeaning(layout, w);
    var own := OverlapIds(layout.regions, RegionsById(layout.regions, |layout.regions|), w, |layout.regions|);
    RelatedIdsComplete(layout.relations, own, bound);
  }

  /** The cited boxes are those of the cited regions; where an id repeats, of the last region of the id. */
  lemma EvidenceBoxesMeaning(layout: DocumentLayout, w: TextWindow)
    ensures var e, byId := EvidenceFor(Some(layout), w), RegionsById(layout.regions, |layout.regions|);
      && (forall box :: box in e.boundingBoxes <==>
            exists id :: id in e.layoutRegionIds && id in byId && byId[id].box == Some(box))
      && (forall id :: id in e.layoutRegionIds ==> id in byId && byId[id] in layout.regions && byId[id].id == id)
  {
    RegionsByIdKeys(layout.regions, |layout.regions|);
    hide RegionsById, SelectedIds, BoxesOf;
    var e, byId := EvidenceFor(Some(layout), w), RegionsById(layout.regions, |layout.regions|);
    forall id | id in e.layoutRegionIds ensures id in byId {
      var r :| r in layout.regions && r.id == id;
      var i :| 0 <= i < |layout.regions| && layout.regions[i] == r;
    }
  }
}
