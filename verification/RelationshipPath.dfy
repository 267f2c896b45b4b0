/** The check of relationship-path evidence: when a list of graph edges counts as a path. */
module RelationshipPath {
  import opened Text
  import opened Retrieval

  predicate ValidEntity(t: TextRules, e: Entity) { !IsBlank(t, e.id) && !IsBlank(t, e.name) }

  predicate ValidEdge(t: TextRules, e: PathEdge) {
    && !IsBlank(t, e.relationId) && !IsBlank(t, e.relationType)
    && e.depth >= 1
    && ValidEntity(t, e.from) && ValidEntity(t, e.to)
  }

  predicate Touches(e: PathEdge, id: string) { e.from.id == id || e.to.id == id }

  predicate ShareEndpoint(a: PathEdge, b: PathEdge) { Touches(a, b.from.id) || Touches(a, b.to.id) }

  /** What the loop requires of the edge at `index`. */
  predicate EdgeFits(t: TextRules, p: PathEvidence, index: nat)
    requires index < |p.edges|
  {
    && ValidEdge(t, p.edges[index]) && p.edges[index].depth == index + 1
    && (index == 0 ==> Touches(p.edges[0], p.seed.id))
    && (index > 0 ==> ShareEndpoint(p.edges[index - 1], p.edges[index]))
  }

  predicate ValidPath(t: TextRules, p: PathEvidence) {
    && p.depth >= 1 && |p.edges| == p.depth
    && ValidEntity(t, p.seed) && ValidEntity(t, p.target)
    && (forall i :: 0 <= i < |p.edges| ==> EdgeFits(t, p, i))
    && Touches(p.edges[|p.edges| - 1], p.target.id)
  }

  method IsValidRelationshipPath(t: TextRules, p: PathEvidence) returns (valid: bool)
    ensures valid == ValidPath(t, p)
  {
    if p.depth < 1 {
      return false;
    }
    if |p.edges| != p.depth || |p.edges| == 0 {
      return false;
    }
    if !ValidEntity(t, p.seed) || !ValidEntity(t, p.target) {
      return false;
    }
    hide ValidEdge, ValidEntity, ShareEndpoint;
    var previous: Option<PathEdge> := None;
    for index := 0 to |p.edges|
      invariant forall i :: 0 <= i < index ==> EdgeFits(t, p, i)
      invariant previous == if index == 0 then None else Some(p.edges[index - 1])
    {
      var edge := p.edges[index];
      if !ValidEdge(t, edge) || edge.depth != index + 1 {
        assert !EdgeFits(t, p, index);
        return false;
      }
      if index == 0 && !Touches(edge, p.seed.id) {
        assert !EdgeFits(t, p, index);
        return false;
      }
      if previous.Some? && !ShareEndpoint(previous.value, edge) {
        assert !EdgeFits(t, p, index);
        return false;
      }
      previous := Some(edge);
    }
    var finalEdge := p.edges[|p.edges| - 1];
    return Touches(finalEdge, p.target.id);
  }

  // ---- What acceptance means ----

  /** The edge joins a and b, in either direction. */
  predicate Joins(e: PathEdge, a: string, b: string) {
    (e.from.id == a && e.to.id == b) || (e.from.id == b && e.to.id == a)
  }

  ghost predicate JoinedBySome(edges: seq<PathEdge>, a: string, b: string) {
    exists e :: e in edges && Joins(e, a, b)
  }

  /** A walk over entity ids in which every hop is one of the edges. */
  ghost predicate WalkOver(edges: seq<PathEdge>, nodes: seq<string>, from: string, to: string) {
    && nodes != [] && nodes[0] == from && nodes[|nodes| - 1] == to
    && forall i :: 0 <= i < |nodes| - 1 ==> JoinedBySome(edges, nodes[i], nodes[i + 1])
  }

  lemma WalkExtends(edges: seq<PathEdge>, nodes: seq<string>, from: string, mid: string, to: string, e: PathEdge)
    requires WalkOver(edges, nodes, from, mid) && e in edges && Joins(e, mid, to)
    ensures WalkOver(edges, nodes + [to], from, to)
  {
    var longer := nodes + [to];
    forall i | 0 <= i < |longer| - 1 ensures JoinedBySome(edges, longer[i], longer[i + 1]) {
      if i < |nodes| - 1 {
        assert JoinedBySome(edges, nodes[i], nodes[i + 1]);
      }
    }
  }

  lemma WalkPrefix(edges: seq<PathEdge>, more: seq<PathEdge>, nodes: seq<string>, from: string, to: string)
    requires WalkOver(edges, nodes, from, to) && edges <= more
    ensures WalkOver(more, nodes, from, to)
  {
    forall i | 0 <= i < |nodes| - 1 ensures JoinedBySome(more, nodes[i], nodes[i + 1]) {
      assert JoinedBySome(edges, nodes[i], nodes[i + 1]);
      var e :| e in edges && Joins(e, nodes[i], nodes[i + 1]);
      assert e in more;
    }
  }

  /** Both ends of the k-th edge are within k + 1 hops of the seed, over the edges up to it. */
  lemma {:induction false} EndpointsReached(t: TextRules, p: PathEvidence, k: nat, id: string) returns (nodes: seq<string>)
    requires k < |p.edges| && Touches(p.edges[k], id)
    requires forall i :: 0 <= i <= k ==> EdgeFits(t, p, i)
    ensures WalkOver(p.edges[..k + 1], nodes, p.seed.id, id) && |nodes| <= k + 2
    decreases k
  {
    hide ValidEdge, WalkOver;
    var edge, edges := p.edges[k], p.edges[..k + 1];
    assert EdgeFits(t, p, k);
    assert edges[k] == edge && edge in edges;
    var near: string;
    if k == 0 {
      near := p.seed.id;
      nodes := [near];
      StandStill(edges, near);
    } else {
      near := if Touches(p.edges[k - 1], edge.from.id) then edge.from.id else edge.to.id;
      nodes := EndpointsReached(t, p, k - 1, near);
      WalkPrefix(p.edges[..k], edges, nodes, p.seed.id, near);
    }
    if near != id {
      WalkExtends(edges, nodes, p.seed.id, near, id, edge);
      nodes := nodes + [id];
    }
  }

  lemma StandStill(edges: seq<PathEdge>, id: string)
    ensures WalkOver(edges, [id], id, id)
  {
  }

  /** An accepted path really connects seed and target through its edges, in at most `depth` hops. */
  lemma AcceptedPathConnects(t: TextRules, p: PathEvidence) returns (nodes: seq<string>)
    requires ValidPath(t, p)
    ensures WalkOver(p.edges, nodes, p.seed.id, p.target.id)
    ensures |nodes| - 1 <= p.depth
  {
    nodes := EndpointsReached(t, p, |p.edges| - 1, p.target.id);
    assert p.edges[..|p.edges| - 1 + 1] == p.edges;
  }

  /** The edges, taken in order, lead hop by hop from seed to target. */
  ghost predicate EdgeByEdge(p: PathEvidence, nodes: seq<string>) {
    && |nodes| == |p.edges| + 1
    && nodes[0] == p.seed.id && nodes[|p.edges|] == p.target.id
    && forall i :: 0 <= i < |p.edges| ==> Joins(p.edges[i], nodes[i], nodes[i + 1])
  }

  /** Every genuine walk with non-blank names and ids and edges numbered from 1 is accepted. */
  lemma GenuineWalkIsAccepted(t: TextRules, p: PathEvidence, nodes: seq<string>)
    requires EdgeByEdge(p, nodes) && p.depth == |p.edges| >= 1
    requires ValidEntity(t, p.seed) && ValidEntity(t, p.target)
    requires forall i :: 0 <= i < |p.edges| ==> ValidEdge(t, p.edges[i]) && p.edges[i].depth == i + 1
    ensures ValidPath(t, p)
  {
    hide ValidEntity, ValidEdge;
    forall i | 0 <= i < |p.edges| ensures EdgeFits(t, p, i) {
      assert Joins(p.edges[i], nodes[i], nodes[i + 1]);
      if i > 0 {
        assert Joins(p.edges[i - 1], nodes[i - 1], nodes[i - 1 + 1]);
      }
    }
    assert Joins(p.edges[|p.edges| - 1], nodes[|p.edges| - 1], nodes[|p.edges| - 1 + 1]);
  }

  /** The other end of an edge, seen from one of its ends. */
  function Across(e: PathEdge, id: string): string { if e.from.id == id then e.to.id else e.from.id }

  /** Where one is after k edges, leaving each edge by the end it was not entered at. */
  function At(p: PathEvidence, k: nat): string
    requires k <= |p.edges|
  {
    if k == 0 then p.seed.id else Across(p.edges[k - 1], At(p, k - 1))
  }

  /** Following the edges from the seed never meets one that begins elsewhere, and ends at the target. */
  predicate Traceable(p: PathEvidence) {
    (forall k :: 0 <= k < |p.edges| ==> Touches(p.edges[k], At(p, k))) && At(p, |p.edges|) == p.target.id
  }

  lemma {:induction false} WalkIsTrace(p: PathEvidence, nodes: seq<string>, k: nat)
    requires EdgeByEdge(p, nodes) && k <= |p.edges|
    ensures nodes[k] == At(p, k)
  {
    if k > 0 {
      WalkIsTrace(p, nodes, k - 1);
      assert Joins(p.edges[k - 1], nodes[k - 1], nodes[k - 1 + 1]);
    }
  }

  function NodesOf(p: PathEvidence): (nodes: seq<string>)
    ensures |nodes| == |p.edges| + 1 && forall k :: 0 <= k < |nodes| ==> nodes[k] == At(p, k)
  {
    seq(|p.edges| + 1, k requires 0 <= k <= |p.edges| => At(p, k))
  }

  lemma WalkIsTraceable(p: PathEvidence, nodes: seq<string>)
    requires EdgeByEdge(p, nodes)
    ensures Traceable(p) && nodes == NodesOf(p)
  {
    hide At;
    forall k | 0 <= k <= |p.edges| ensures nodes[k] == At(p, k) { WalkIsTrace(p, nodes, k); }
    forall k | 0 <= k < |p.edges| ensures Touches(p.edges[k], At(p, k)) {
      assert Joins(p.edges[k], nodes[k], nodes[k + 1]);
    }
  }

  lemma TraceIsWalk(p: PathEvidence)
    requires Traceable(p)
    ensures EdgeByEdge(p, NodesOf(p))
  {
    forall k | 0 <= k < |p.edges| ensures Joins(p.edges[k], At(p, k), At(p, k + 1)) {
      assert Touches(p.edges[k], At(p, k));
    }
    hide At, Touches;
  }

  /** Exactly which paths are walks in the order of their edges: those that can be traced, and the
      trace is the only such walk. */
  lemma WalkIffTraceable(p: PathEvidence)
    ensures (exists nodes :: EdgeByEdge(p, nodes)) <==> Traceable(p)
    ensures forall nodes :: EdgeByEdge(p, nodes) ==> nodes == NodesOf(p)
  {
    hide Traceable, EdgeByEdge, At, NodesOf;
    forall nodes | EdgeByEdge(p, nodes) ensures Traceable(p) && nodes == NodesOf(p) { WalkIsTraceable(p, nodes); }
    if Traceable(p) { TraceIsWalk(p); }
  }

  /** The edge of a star: from the hub to a leaf. */
  function Spoke(hub: Entity, leaf: Entity, depth: int): PathEdge {
    PathEdge("r", "r", depth, hub, leaf, [])
  }

  /** Acceptance does not mean that the edges form a walk in their order: two spokes of one hub are
      accepted as a path from the hub to the second leaf, although the first spoke leads elsewhere. */
  lemma AcceptedPathNeedNotBeAWalk(t: TextRules, hub: Entity, a: Entity, b: Entity)
    requires ValidEntity(t, hub) && ValidEntity(t, a) && ValidEntity(t, b) && !IsBlank(t, "r")
    requires hub.id != a.id && hub.id != b.id && a.id != b.id
    ensures var p := PathEvidence(hub, b, 2, [Spoke(hub, a, 1), Spoke(hub, b, 2)]);
      ValidPath(t, p) && !exists nodes :: EdgeByEdge(p, nodes)
  {
    var p := PathEvidence(hub, b, 2, [Spoke(hub, a, 1), Spoke(hub, b, 2)]);
    hide IsBlank;
    assert EdgeFits(t, p, 0) && EdgeFits(t, p, 1);
    forall nodes ensures !EdgeByEdge(p, nodes) { SpokesAreNoWalk(hub, a, b, p, nodes); }
  }

  /** The first hop leads from the hub to a, where the second spoke does not begin. */
  lemma SpokesAreNoWalk(hub: Entity, a: Entity, b: Entity, p: PathEvidence, nodes: seq<string>)
    requires hub.id != a.id && hub.id != b.id && a.id != b.id
    requires p == PathEvidence(hub, b, 2, [Spoke(hub, a, 1), Spoke(hub, b, 2)])
    ensures !EdgeByEdge(p, nodes)
  {
    if |nodes| == 3 && nodes[0] == hub.id && nodes[2] == b.id {
      assert Joins(p.edges[0], nodes[0], nodes[0 + 1]) ==> nodes[1] == a.id;
      assert Joins(p.edges[1], nodes[1], nodes[1 + 1]) ==> nodes[1] == hub.id;
    }
  }
}
