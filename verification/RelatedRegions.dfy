/** The capped breadth-first search from a window's regions to the regions they are related to. */
module RelatedRegions {
  import opened Text
  import opened Layout

  const MAX_SEEN: nat := 100

  /** The other end of a relation that touches `current`. */
  function Neighbor(relation: LayoutRelation, current: string): Option<string> {
    if relation.fromRegionId == current then Some(relation.toRegionId)
    else if relation.toRegionId == current then Some(relation.fromRegionId)
    else None
  }

  function SetOf<T>(xs: seq<T>): set<T> { set x | x in xs }

  function Endpoints(relations: seq<LayoutRelation>): set<string> {
    (set r | r in relations :: r.fromRegionId) + (set r | r in relations :: r.toRegionId)
  }

  /** The neighbours of `current` met for the first time, in relation order. */
  function Expand(relations: seq<LayoutRelation>, current: string, seen: set<string>): (added: seq<string>)
    ensures forall x :: x in added ==> x !in seen && x in Endpoints(relations)
  {
    if relations == [] then []
    else
      var neighbor := Neighbor(relations[0], current);
      assert Endpoints(relations[1..]) <= Endpoints(relations);
      if neighbor.None? || neighbor.value in seen then Expand(relations[1..], current, seen)
      else
        assert relations[0] in relations;
        [neighbor.value] + Expand(relations[1..], current, seen + {neighbor.value})
  }

  lemma SearchShrinks(relations: seq<LayoutRelation>, queue: seq<string>, seen: set<string>)
    requires queue != []
    ensures var added := Expand(relations, queue[0], seen);
      var left, before := Endpoints(relations) - (seen + SetOf(added)), Endpoints(relations) - seen;
      if added == [] then left == before else |left| < |before|
  {
    var added := Expand(relations, queue[0], seen);
    var left, before := Endpoints(relations) - (seen + SetOf(added)), Endpoints(relations) - seen;
    hide Endpoints, Expand;
    if added == [] {
      assert left == before;
    } else {
      assert added[0] in added;
      assert left < before;
      SubsetSize(left, before);
    }
  }

  lemma SubsetSize<T>(a: set<T>, b: set<T>)
    requires a < b
    ensures |a| < |b|
  {
    assert b == a + (b - a);
  }

  /** The search loop. */
  function Search(relations: seq<LayoutRelation>, queue: seq<string>, seen: set<string>, related: seq<string>): seq<string>
    decreases |Endpoints(relations) - seen|, |queue|
  {
    if queue == [] || |seen| >= MAX_SEEN then related
    else if queue[0] == "" then Search(relations, queue[1..], seen, related)
    else
      var added := Expand(relations, queue[0], seen);
      SearchShrinks(relations, queue, seen);
      assert added == [] ==> queue[1..] + added == queue[1..];
      Search(relations, queue[1..] + added, seen + SetOf(added), related + added)
  }

  function RelatedIds(relations: seq<LayoutRelation>, seeds: seq<string>): seq<string> {
    Search(relations, seeds, SetOf(seeds), [])
  }

  method RelatedLayoutRegionIds(relations: seq<LayoutRelation>, seeds: seq<string>) returns (related: seq<string>)
    ensures related == RelatedIds(relations, seeds)
  {
    hide Endpoints, Expand, Search;
    var seen := SetOf(seeds);
    var queue := seeds;
    related := [];
    while queue != [] && |seen| < MAX_SEEN
      invariant Search(relations, queue, seen, related) == RelatedIds(relations, seeds)
      decreases |Endpoints(relations) - seen|, |queue|
    {
      SearchStep(relations, queue, seen, related);
      SearchShrinks(relations, queue, seen);
      var current := queue[0];
      queue := queue[1..];
      if current != "" {
        seen, related, queue := Visit(relations, current, seen, related, queue);
      }
    }
    SearchDone(relations, queue, seen, related);
  }

  /** The inner loop: one region's relations, updating all three collections. */
  method Visit(relations: seq<LayoutRelation>, current: string, seen0: set<string>, related0: seq<string>, queue0: seq<string>)
    returns (seen: set<string>, related: seq<string>, queue: seq<string>)
    ensures var added := Expand(relations, current, seen0);
      related == related0 + added && queue == queue0 + added && seen == seen0 + SetOf(added)
  {
    hide Endpoints, Expand;
    seen, related, queue := seen0, related0, queue0;
    ghost var added := Expand(relations, current, seen0);
    assert relations[0..] == relations;
    for k := 0 to |relations|
      invariant related + Expand(relations[k..], current, seen) == related0 + added
      invariant queue + Expand(relations[k..], current, seen) == queue0 + added
      invariant seen + SetOf(Expand(relations[k..], current, seen)) == seen0 + SetOf(added)
    {
      var neighbor := Neighbor(relations[k], current);
      ExpandStep(relations, k, current, seen);
      if neighbor.Some? && neighbor.value !in seen {
        ghost var later := Expand(relations[k + 1..], current, seen + {neighbor.value});
        ConcatAssoc(related, [neighbor.value], later);
        ConcatAssoc(queue, [neighbor.value], later);
        seen := seen + {neighbor.value};
        related := related + [neighbor.value];
        queue := queue + [neighbor.value];
      }
    }
    ExpandNone(relations[|relations|..], current, seen);
  }

  lemma SearchStep(relations: seq<LayoutRelation>, queue: seq<string>, seen: set<string>, related: seq<string>)
    requires queue != [] && |seen| < MAX_SEEN
    ensures Search(relations, queue, seen, related) ==
      if queue[0] == "" then Search(relations, queue[1..], seen, related)
      else
        var added := Expand(relations, queue[0], seen);
        Search(relations, queue[1..] + added, seen + SetOf(added), related + added)
  {
  }

  lemma SearchDone(relations: seq<LayoutRelation>, queue: seq<string>, seen: set<string>, related: seq<string>)
    requires queue == [] || |seen| >= MAX_SEEN
    ensures Search(relations, queue, seen, related) == related
  {
  }

  lemma ExpandStep(relations: seq<LayoutRelation>, k: nat, current: string, seen: set<string>)
    requires k < |relations|
    ensures var neighbor := Neighbor(relations[k], current);
      if neighbor.Some? && neighbor.value !in seen then
        && Expand(relations[k..], current, seen)
           == [neighbor.value] + Expand(relations[k + 1..], current, seen + {neighbor.value})
        && SetOf(Expand(relations[k..], current, seen))
           == {neighbor.value} + SetOf(Expand(relations[k + 1..], current, seen + {neighbor.value}))
      else Expand(relations[k..], current, seen) == Expand(relations[k + 1..], current, seen)
  {
    hide Endpoints;
    assert relations[k..][1..] == relations[k + 1..] && relations[k..][0] == relations[k];
  }

  lemma ExpandNone(relations: seq<LayoutRelation>, current: string, seen: set<string>)
    requires relations == []
    ensures Expand(relations, current, seen) == [] && SetOf(Expand(relations, current, seen)) == {}
  {
  }

  // ---- Reachability ----

  /** One undirected hop. The search never leaves from the empty id. */
  ghost predicate Hop(relations: seq<LayoutRelation>, a: string, b: string) {
    a != "" && exists r :: r in relations && Neighbor(r, a) == Some(b)
  }

  ghost predicate Path(relations: seq<LayoutRelation>, path: seq<string>) {
    path != [] && forall i :: 0 <= i < |path| - 1 ==> Hop(relations, path[i], path[i + 1])
  }

  ghost predicate Reachable(relations: seq<LayoutRelation>, seeds: set<string>, id: string) {
    exists path :: Path(relations, path) && path[0] in seeds && path[|path| - 1] == id
  }

  lemma SeedsReachable(relations: seq<LayoutRelation>, seeds: set<string>, id: string)
    requires id in seeds
    ensures Reachable(relations, seeds, id)
  {
    assert Path(relations, [id]) && [id][0] in seeds;
  }

  lemma HopReachable(relations: seq<LayoutRelation>, seeds: set<string>, a: string, b: string)
    requires Reachable(relations, seeds, a) && Hop(relations, a, b)
    ensures Reachable(relations, seeds, b)
  {
    hide Hop;
    var path :| Path(relations, path) && path[0] in seeds && path[|path| - 1] == a;
    var longer := path + [b];
    assert Path(relations, longer) && longer[0] in seeds && longer[|longer| - 1] == b;
  }

  lemma {:induction false} ExpandMeaning(relations: seq<LayoutRelation>, current: string, seen: set<string>)
    ensures var added := Expand(relations, current, seen);
      && (forall x :: x in added ==> exists r :: r in relations && Neighbor(r, current) == Some(x))
      && (forall r :: r in relations && Neighbor(r, current).Some? ==>
            Neighbor(r, current).value in seen || Neighbor(r, current).value in added)
      && Distinct(added)
  {
    hide Endpoints, Neighbor;
    if relations != [] {
      var neighbor := Neighbor(relations[0], current);
      assert relations == [relations[0]] + relations[1..];
      if neighbor.None? || neighbor.value in seen {
        ExpandMeaning(relations[1..], current, seen);
      } else {
        ExpandMeaning(relations[1..], current, seen + {neighbor.value});
      }
    }
  }

  /** What every turn of the search keeps. */
  ghost predicate SearchInv(relations: seq<LayoutRelation>, seeds: set<string>, queue: seq<string>, seen: set<string>, related: seq<string>) {
    && seen == seeds + SetOf(related)
    && (forall id :: id in queue ==> id in seen)
    && Distinct(related)
    && (forall id :: id in related ==> id !in seeds)
    && (forall id :: id in seen ==> Reachable(relations, seeds, id))
    && (forall a, b :: a in seen && a !in queue && Hop(relations, a, b) ==> b in seen)
  }

  lemma SkipKeepsInv(relations: seq<LayoutRelation>, seeds: set<string>, queue: seq<string>, seen: set<string>, related: seq<string>)
    requires queue != [] && queue[0] == "" && SearchInv(relations, seeds, queue, seen, related)
    ensures SearchInv(relations, seeds, queue[1..], seen, related)
  {
    hide Reachable;
    assert queue == [queue[0]] + queue[1..];
  }

  lemma ExpandKeepsInv(relations: seq<LayoutRelation>, seeds: set<string>, queue: seq<string>, seen: set<string>, related: seq<string>)
    requires queue != [] && queue[0] != "" && SearchInv(relations, seeds, queue, seen, related)
    ensures var added := Expand(relations, queue[0], seen);
      SearchInv(relations, seeds, queue[1..] + added, seen + SetOf(added), related + added)
  {
    var current := queue[0];
    var added := Expand(relations, current, seen);
    var queue', seen', related' := queue[1..] + added, seen + SetOf(added), related + added;
    ExpandMeaning(relations, current, seen);
    assert queue == [current] + queue[1..];
    assert forall x :: x in related' <==> x in related || x in added;
    assert forall x :: x in queue' <==> x in queue[1..] || x in added;
    assert seen' == seeds + SetOf(related');
    forall x | x in added ensures Reachable(relations, seeds, x) {
      assert Hop(relations, current, x);
      HopReachable(relations, seeds, current, x);
    }
    forall a, b | a in seen' && a !in queue' && Hop(relations, a, b) ensures b in seen' {
      if a == current {
        var r :| r in relations && Neighbor(r, a) == Some(b);
      } else {
        assert a in seen && a !in queue;
      }
    }
    hide Hop, Expand, Reachable;
    forall i, j | 0 <= i < j < |related'| ensures related'[i] != related'[j] {
      if j < |related| {
      } else if i < |related| {
        assert related'[j] in added && related'[i] in related;
      }
    }
  }

  /** The search ends with the invariant, and either the queue is empty or the cap was reached. */
  lemma {:induction false} SearchResult(relations: seq<LayoutRelation>, seeds: set<string>, queue: seq<string>, seen: set<string>, related: seq<string>)
    returns (rest: seq<string>, found: set<string>)
    requires SearchInv(relations, seeds, queue, seen, related)
    ensures SearchInv(relations, seeds, rest, found, Search(relations, queue, seen, related))
    ensures rest == [] || |found| >= MAX_SEEN
    decreases |Endpoints(relations) - seen|, |queue|
  {
    hide SearchInv, Endpoints, Expand;
    if queue == [] || |seen| >= MAX_SEEN {
      rest, found := queue, seen;
    } else if queue[0] == "" {
      SkipKeepsInv(relations, seeds, queue, seen, related);
      rest, found := SearchResult(relations, seeds, queue[1..], seen, related);
    } else {
      var added := Expand(relations, queue[0], seen);
      ExpandKeepsInv(relations, seeds, queue, seen, related);
      SearchShrinks(relations, queue, seen);
      assert added == [] ==> queue[1..] + added == queue[1..];
      rest, found := SearchResult(relations, seeds, queue[1..] + added, seen + SetOf(added), related + added);
    }
  }

  lemma InitialInv(relations: seq<LayoutRelation>, seeds: seq<string>)
    ensures SearchInv(relations, SetOf(seeds), seeds, SetOf(seeds), [])
  {
    hide Hop, Reachable;
    forall id | id in SetOf(seeds) ensures Reachable(relations, SetOf(seeds), id) {
      SeedsReachable(relations, SetOf(seeds), id);
    }
  }

  /** Only reachable regions are returned, none twice, and no seed. */
  lemma RelatedIdsSound(relations: seq<LayoutRelation>, seeds: seq<string>)
    ensures var related := RelatedIds(relations, seeds);
      && Distinct(related)
      && forall id :: id in related ==> id !in seeds && Reachable(relations, SetOf(seeds), id)
  {
    hide Search, Reachable;
    InitialInv(relations, seeds);
    var rest, found := SearchResult(relations, SetOf(seeds), seeds, SetOf(seeds), []);
  }

  lemma {:induction false} PathStaysInside(relations: seq<LayoutRelation>, path: seq<string>, closed: set<string>, i: nat)
    requires Path(relations, path) && i < |path| && path[0] in closed
    requires Closed(relations, closed)
    ensures path[i] in closed
  {
    hide Hop;
    if i > 0 {
      PathStaysInside(relations, path, closed, i - 1);
      assert Hop(relations, path[i - 1], path[i - 1 + 1]);
    }
  }

  /** Either everything reachable was found, or the seeds and the result reach the cap. */
  lemma RelatedIdsCompleteOrCapped(relations: seq<LayoutRelation>, seeds: seq<string>)
    ensures var related := RelatedIds(relations, seeds);
      || |SetOf(seeds) + SetOf(related)| >= MAX_SEEN
      || forall id :: Reachable(relations, SetOf(seeds), id) <==> id in seeds || id in related
  {
    hide Search, Reachable, SearchInv;
    var related := RelatedIds(relations, seeds);
    InitialInv(relations, seeds);
    var rest, found := SearchResult(relations, SetOf(seeds), seeds, SetOf(seeds), []);
    InvFacts(relations, SetOf(seeds), rest, found, related);
    if |found| < MAX_SEEN {
      forall id ensures Reachable(relations, SetOf(seeds), id) <==> id in seeds || id in related {
        if Reachable(relations, SetOf(seeds), id) {
          ReachableStaysInside(relations, SetOf(seeds), found, id);
        }
        assert id in found <==> id in SetOf(seeds) + SetOf(related);
      }
    }
  }

  /** When fewer than a hundred regions are reachable, the seeds and the result are all of them. */
  lemma RelatedIdsComplete(relations: seq<LayoutRelation>, seeds: seq<string>, bound: set<string>)
    requires |bound| < MAX_SEEN
    requires forall id :: Reachable(relations, SetOf(seeds), id) ==> id in bound
    ensures var related := RelatedIds(relations, seeds);
      forall id :: Reachable(relations, SetOf(seeds), id) <==> id in seeds || id in related
  {
    hide RelatedIds, Reachable;
    var related := RelatedIds(relations, seeds);
    RelatedIdsCompleteOrCapped(relations, seeds);
    RelatedIdsSound(relations, seeds);
    forall id | id in seeds ensures Reachable(relations, SetOf(seeds), id) { SeedsReachable(relations, SetOf(seeds), id); }
    FewerThanBound(SetOf(seeds) + SetOf(related), bound);
  }

  lemma InvFacts(relations: seq<LayoutRelation>, seeds: set<string>, queue: seq<string>, seen: set<string>, related: seq<string>)
    requires SearchInv(relations, seeds, queue, seen, related)
    ensures seen == seeds + SetOf(related)
    ensures forall id :: id in seen ==> Reachable(relations, seeds, id)
    ensures queue == [] ==> Closed(relations, seen)
  {
    hide Hop, Reachable;
  }

  ghost predicate Closed(relations: seq<LayoutRelation>, ids: set<string>) {
    forall a, b :: a in ids && Hop(relations, a, b) ==> b in ids
  }

  lemma ReachableStaysInside(relations: seq<LayoutRelation>, seeds: set<string>, closed: set<string>, id: string)
    requires seeds <= closed && Closed(relations, closed) && Reachable(relations, seeds, id)
    ensures id in closed
  {
    var path :| Path(relations, path) && path[0] in seeds && path[|path| - 1] == id;
    PathStaysInside(relations, path, closed, |path| - 1);
  }

  lemma FewerThanBound<T>(found: set<T>, bound: set<T>)
    requires found <= bound
    ensures |found| <= |bound|
  {
    if found != bound {
      SubsetSize(found, bound);
    }
  }
}
