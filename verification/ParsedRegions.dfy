/** Regions as the two parser scripts write them: a slice of the body, without box or family. */
module ParsedRegions {
  import opened Text
  import opened Layout

  function From(r: LayoutRegion): int { if r.characterStart.Some? then r.characterStart.value else 0 }

  function To(r: LayoutRegion): int { if r.characterEnd.Some? then r.characterEnd.value else 0 }

  /** The region's range slices the body to exactly its text, which is not empty. */
  ghost predicate SlicesBody(body: string, r: LayoutRegion) {
    && r.characterStart.Some? && r.characterEnd.Some? && r.text.Some?
    && 0 <= From(r) < To(r) <= |body| && body[From(r)..To(r)] == r.text.value
  }

  predicate Bare(r: LayoutRegion) {
    !r.kind.OtherKind? && r.box.None? && r.confidence.None? && r.parentId.None? && r.childrenIds == []
  }

  predicate InOrder(regions: seq<LayoutRegion>) {
    forall i, j :: 0 <= i < j < |regions| ==> To(regions[i]) <= From(regions[j])
  }

  predicate Holds(r: LayoutRegion, pos: int) { From(r) <= pos < To(r) }

  lemma SliceOfSlice(body: string, start: nat, part: string, i: nat, j: nat)
    requires start + |part| <= |body| && body[start..start + |part|] == part && i <= j <= |part|
    ensures body[start + i..start + j] == part[i..j]
  {
    forall k | i <= k < j ensures body[start + k] == part[k] {
      assert body[start..start + |part|][k] == part[k];
    }
  }

  lemma RegionPasses(body: string, r: LayoutRegion, pages: seq<LayoutPage>, regions: seq<LayoutRegion>)
    requires SlicesBody(body, r) && Bare(r) && HasPage(pages, r.pageNumber)
    ensures RegionOk(r, body, pages) && FamilyOk(r, regions)
  {
  }
}
