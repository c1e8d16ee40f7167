/** The pointer assignment graph (src/graph/pag.rs): interned nodes, edges without duplicates, one index
    per edge kind and direction, and the queue of address edges. */
module Pag {
  import opened Options
  import opened Paths
  import opened Constraints
  import opened Solver

  type NodeId = nat
  type EdgeId = nat

  datatype GraphEdge = GraphEdge(src: NodeId, dst: NodeId, kind: Kind)

  /** The kinds without their projections: one index exists for each. */
  datatype Tag = AddrTag | DirectTag | LoadTag | StoreTag | GepTag | OffsetTag

  function TagOf(k: Kind): Tag
  {
    match k
    case Addr => AddrTag
    case Direct => DirectTag
    case Load(_) => LoadTag
    case Store(_) => StoreTag
    case Gep(_) => GepTag
    case Offset => OffsetTag
  }

  type EdgeMap = map<(Tag, NodeId), seq<EdgeId>>

  function Entry(m: EdgeMap, tag: Tag, n: NodeId): seq<EdgeId>
  {
    if (tag, n) in m then m[(tag, n)] else []
  }

  /** The ids of the edges of a kind that leave (or enter) a node, ascending. */
  ghost function Ids(arcs: seq<GraphEdge>, tag: Tag, n: NodeId, out: bool): (r: seq<EdgeId>)
    ensures forall i: EdgeId :: i in r <==> i < |arcs| && TagOf(arcs[i].kind) == tag && (if out then arcs[i].src else arcs[i].dst) == n
    ensures InRange(|arcs|, r)
  {
    if arcs == [] then []
    else
      var last := |arcs| - 1;
      var before := Ids(arcs[..last], tag, n, out);
      var e := arcs[last];
      if TagOf(e.kind) == tag && (if out then e.src else e.dst) == n then before + [last] else before
  }

  /** The edges with the paths of their nodes. */
  ghost function EdgesOf(nodes: seq<Path>, arcs: seq<GraphEdge>): (r: seq<Edge>)
    requires forall e :: e in arcs ==> e.src < |nodes| && e.dst < |nodes|
    ensures |r| == |arcs|
    ensures forall i :: 0 <= i < |arcs| ==> r[i] == Edge(nodes[arcs[i].src], nodes[arcs[i].dst], arcs[i].kind)
  {
    if arcs == [] then []
    else
      var last := |arcs| - 1;
      EdgesOf(nodes, arcs[..last]) + [Edge(nodes[arcs[last].src], nodes[arcs[last].dst], arcs[last].kind)]
  }

  function IndexTag(i: Index): Tag
  {
    match i
    case DirectOut => DirectTag
    case LoadOut => LoadTag
    case StoreIn => StoreTag
    case GepOut => GepTag
    case OffsetOut => OffsetTag
  }

  predicate InRange(n: nat, ids: seq<EdgeId>)
  {
    forall k :: 0 <= k < |ids| ==> ids[k] < n
  }

  function Select(edges: seq<Edge>, ids: seq<EdgeId>): (r: seq<Edge>)
    requires InRange(|edges|, ids)
    ensures |r| == |ids| && forall k :: 0 <= k < |ids| ==> r[k] == edges[ids[k]]
  {
    if ids == [] then [] else Select(edges, ids[..|ids| - 1]) + [edges[ids[|ids| - 1]]]
  }

  lemma {:induction false} SelectFromPrefix(all: seq<Edge>, some: seq<Edge>, ids: seq<EdgeId>)
    requires |some| <= |all| && some == all[..|some|] && InRange(|some|, ids)
    ensures Select(all, ids) == Select(some, ids)
  {
  }

  /** An index entry lists exactly the edges that the solver's handlers look for, in the same order. */
  lemma {:induction false} IndexEntryIsPick(nodes: seq<Path>, arcs: seq<GraphEdge>, i: Index, n: NodeId)
    requires n < |nodes| && forall e :: e in arcs ==> e.src < |nodes| && e.dst < |nodes|
    requires forall a, b :: 0 <= a < b < |nodes| ==> nodes[a] != nodes[b]
    ensures Select(EdgesOf(nodes, arcs), Ids(arcs, IndexTag(i), n, i != StoreIn)) == Pick(EdgesOf(nodes, arcs), i, nodes[n])
  {
    if arcs != [] {
      var last := |arcs| - 1;
      var before := arcs[..last];
      IndexEntryIsPick(nodes, before, i, n);
      var all, some := EdgesOf(nodes, arcs), EdgesOf(nodes, before);
      assert all == some + [all[last]];
      var ids := Ids(before, IndexTag(i), n, i != StoreIn);
      SelectFromPrefix(all, some, ids);
      EntryMatches(nodes, arcs, i, n);
      SelectOneMore(all, ids, last);
      assert all[..last] == some;
    }
  }

  lemma SelectOneMore(all: seq<Edge>, ids: seq<EdgeId>, last: EdgeId)
    requires InRange(|all|, ids) && last < |all|
    ensures InRange(|all|, ids + [last]) && Select(all, ids + [last]) == Select(all, ids) + [all[last]]
  {
  }

  lemma EntryMatches(nodes: seq<Path>, arcs: seq<GraphEdge>, i: Index, n: NodeId)
    requires arcs != [] && n < |nodes| && forall e :: e in arcs ==> e.src < |nodes| && e.dst < |nodes|
    requires forall a, b :: 0 <= a < b < |nodes| ==> nodes[a] != nodes[b]
    ensures var last := arcs[|arcs| - 1];
      Indexed(i, nodes[n], EdgesOf(nodes, arcs)[|arcs| - 1]) <==>
      TagOf(last.kind) == IndexTag(i) && (if i != StoreIn then last.src else last.dst) == n
  {
  }

  /** Nodes in the order of their creation, one for each path. */
  function WithNode(nodes: seq<Path>, p: Path): seq<Path>
  {
    if p in nodes then nodes else nodes + [p]
  }

  class PAG {
    var nodes: seq<Path>
    var values: map<Path, NodeId>
    var arcs: seq<GraphEdge>
    var outEdges: EdgeMap
    var inEdges: EdgeMap
    var addrEdgesQueue: seq<EdgeId>

    /** Paths and node ids are in bijection; edges join nodes and are pairwise different; each index entry
        lists exactly its edges in ascending order; address edges are queued once, in creation order. */
    ghost predicate Valid()
      reads this
    {
      && (forall p :: p in values ==> values[p] < |nodes| && nodes[values[p]] == p)
      && (forall i :: 0 <= i < |nodes| ==> nodes[i] in values && values[nodes[i]] == i)
      && (forall e :: e in arcs ==> e.src < |nodes| && e.dst < |nodes|)
      && (forall i, j :: 0 <= i < j < |arcs| ==> arcs[i] != arcs[j])
      && (forall tag, n :: Entry(outEdges, tag, n) == Ids(arcs, tag, n, true))
      && (forall tag, n :: Entry(inEdges, tag, n) == Ids(arcs, tag, n, false))
      && addrEdgesQueue == AddrIds(arcs)
    }

    ghost function Edges(): seq<Edge>
      requires Valid()
      reads this
    {
      EdgesOf(nodes, arcs)
    }

    constructor ()
      ensures Valid() && nodes == [] && arcs == [] && addrEdgesQueue == []
    {
      nodes, values, arcs := [], map[], [];
      outEdges, inEdges, addrEdgesQueue := map[], map[], [];
    }

    /** The id of a path; a new node if it has none. */
    method GetOrInsertNode(p: Path) returns (id: NodeId)
      requires Valid()
      modifies this`nodes, this`values
      ensures Valid() && id < |nodes| && nodes[id] == p && values[p] == id
      ensures nodes == WithNode(old(nodes), p)
      ensures Edges() == old(Edges())
    {
      if p in values {
        id := values[p];
      } else {
        id := |nodes|;
        nodes, values := nodes + [p], values[p := id];
      }
    }

    method ContainsEdge(src: NodeId, dst: NodeId, kind: Kind) returns (found: bool)
      ensures found <==> GraphEdge(src, dst, kind) in arcs
    {
      for i := 0 to |arcs|
        invariant GraphEdge(src, dst, kind) !in arcs[..i]
      {
        if arcs[i].src == src && arcs[i].dst == dst && arcs[i].kind == kind {
          return true;
        }
      }
      return false;
    }

    /** Appends an edge that is not there yet and enters it into its two index entries. */
    method Append(e: GraphEdge)
      requires Valid() && e !in arcs && e.src < |nodes| && e.dst < |nodes|
      modifies this`arcs, this`outEdges, this`inEdges, this`addrEdgesQueue
      ensures Valid() && arcs == old(arcs) + [e]
      ensures Edges() == old(Edges()) + [Edge(nodes[e.src], nodes[e.dst], e.kind)]
      ensures addrEdgesQueue == old(addrEdgesQueue) + (if e.kind.Addr? then [|old(arcs)|] else [])
    {
      hide Entry, Ids, AddrIds, EdgesOf;
      var id, tag := |arcs|, TagOf(e.kind);
      ghost var before := arcs;
      EntriesGrow(outEdges, before, e, true);
      EntriesGrow(inEdges, before, e, false);
      AppendEdge(nodes, before, e);
      arcs := arcs + [e];
      outEdges := outEdges[(tag, e.src) := Entry(outEdges, tag, e.src) + [id]];
      inEdges := inEdges[(tag, e.dst) := Entry(inEdges, tag, e.dst) + [id]];
      if e.kind.Addr? {
        addrEdgesQueue := addrEdgesQueue + [id];
      }
    }

    /** Adds an edge unless it is there: the edge list grows by exactly this edge, which gets the next id;
        an address edge is also queued. */
    method AddEdge(src: Path, dst: Path, kind: Kind) returns (r: Option<EdgeId>)
      requires Valid()
      modifies this
      ensures Valid()
      ensures r.Some? <==> Edge(src, dst, kind) !in old(Edges())
      ensures Edges() == if r.Some? then old(Edges()) + [Edge(src, dst, kind)] else old(Edges())
      ensures r.Some? ==> r.value == |old(arcs)| && |arcs| == |old(arcs)| + 1
      ensures r.None? ==> arcs == old(arcs)
      ensures nodes == WithNode(WithNode(old(nodes), src), dst)
      ensures addrEdgesQueue == old(addrEdgesQueue) + (if r.Some? && kind.Addr? then [r.value] else [])
    {
      hide EdgesOf, Ids, AddrIds, Entry;
      var srcId := GetOrInsertNode(src);
      var dstId := GetOrInsertNode(dst);
      var found := ContainsEdge(srcId, dstId, kind);
      ContainedMeans(GraphEdge(srcId, dstId, kind));
      if !found {
        Append(GraphEdge(srcId, dstId, kind));
        r := Some(|arcs| - 1);
      } else {
        r := None;
      }
    }

    lemma Ranges()
      requires Valid()
      ensures InRange(|arcs|, addrEdgesQueue) && |Edges()| == |arcs|
    {
    }

    lemma ContainedMeans(e: GraphEdge)
      requires Valid() && e.src < |nodes| && e.dst < |nodes|
      ensures e in arcs <==> Edge(nodes[e.src], nodes[e.dst], e.kind) in Edges()
    {
    }

    /** The source, target and kind of an edge id. */
    method Endpoints(id: EdgeId) returns (e: Edge)
      requires Valid() && id < |arcs|
      ensures e == Edges()[id]
    {
      var a := arcs[id];
      assert a in arcs;
      e := Edge(nodes[a.src], nodes[a.dst], a.kind);
    }

    /** The edge ids that a handler of node p goes through. */
    method Indexed(i: Index, p: Path) returns (ids: seq<EdgeId>)
      requires Valid()
      ensures InRange(|arcs|, ids)
      ensures Select(Edges(), ids) == Pick(Edges(), i, p)
    {
      if p in values {
        ids := Entry(if i == StoreIn then inEdges else outEdges, IndexTag(i), values[p]);
        assert ids == Ids(arcs, IndexTag(i), values[p], i != StoreIn);
        IndexEntryIsPick(nodes, arcs, i, values[p]);
      } else {
        ids := [];
        UnknownPathHasNoEdges(i, p);
      }
    }

    lemma UnknownPathHasNoEdges(i: Index, p: Path)
      requires Valid() && p !in values
      ensures Pick(Edges(), i, p) == []
    {
      forall e | e in Edges() ensures e.src != p && e.dst != p {
        var k :| 0 <= k < |arcs| && Edges()[k] == e;
        assert arcs[k] in arcs;
      }
      PickNone(Edges(), i, p);
    }
  }

  ghost function AddrIds(arcs: seq<GraphEdge>): (r: seq<EdgeId>)
    ensures forall i: EdgeId :: i in r <==> i < |arcs| && arcs[i].kind.Addr?
    ensures InRange(|arcs|, r) && forall i, j :: 0 <= i < j < |r| ==> r[i] < r[j]
  {
    if arcs == [] then []
    else
      var last := |arcs| - 1;
      var before := AddrIds(arcs[..last]);
      if arcs[last].kind.Addr? then before + [last] else before
  }

  /** Entering the next edge id into its index entry keeps the index right. */
  lemma EntriesGrow(m: EdgeMap, arcs: seq<GraphEdge>, e: GraphEdge, out: bool)
    requires forall tag, n :: Entry(m, tag, n) == Ids(arcs, tag, n, out)
    ensures var tag, n := TagOf(e.kind), if out then e.src else e.dst;
      forall t, k :: Entry(m[(tag, n) := Entry(m, tag, n) + [|arcs|]], t, k) == Ids(arcs + [e], t, k, out)
  {
  }

  lemma AppendEdge(nodes: seq<Path>, arcs: seq<GraphEdge>, e: GraphEdge)
    requires forall f :: f in arcs + [e] ==> f.src < |nodes| && f.dst < |nodes|
    ensures forall f :: f in arcs ==> f.src < |nodes| && f.dst < |nodes|
    ensures EdgesOf(nodes, arcs + [e]) == EdgesOf(nodes, arcs) + [Edge(nodes[e.src], nodes[e.dst], e.kind)]
    ensures AddrIds(arcs + [e]) == AddrIds(arcs) + (if e.kind.Addr? then [|arcs|] else [])
  {
    assert (arcs + [e])[..|arcs|] == arcs;
    forall f | f in arcs ensures f.src < |nodes| && f.dst < |nodes| {
      assert f in arcs + [e];
    }
  }

  /** What validity means for the indexes: an edge is in exactly the out-entry of its own kind at its
      source and in exactly the in-entry of its own kind at its target, once. */
  lemma EdgeIsIndexedOnce(g: PAG, id: EdgeId, tag: Tag, n: NodeId)
    requires g.Valid() && id < |g.arcs|
    ensures id in Entry(g.outEdges, tag, n) <==> tag == TagOf(g.arcs[id].kind) && n == g.arcs[id].src
    ensures id in Entry(g.inEdges, tag, n) <==> tag == TagOf(g.arcs[id].kind) && n == g.arcs[id].dst
    ensures multiset(Entry(g.outEdges, tag, n))[id] <= 1 && multiset(Entry(g.inEdges, tag, n))[id] <= 1
  {
    assert Entry(g.outEdges, tag, n) == Ids(g.arcs, tag, n, true);
    assert Entry(g.inEdges, tag, n) == Ids(g.arcs, tag, n, false);
    IdsAreDistinct(g.arcs, tag, n, true, id);
    IdsAreDistinct(g.arcs, tag, n, false, id);
  }

  lemma {:induction false} IdsAreDistinct(arcs: seq<GraphEdge>, tag: Tag, n: NodeId, out: bool, id: EdgeId)
    ensures multiset(Ids(arcs, tag, n, out))[id] <= 1
  {
    if arcs != [] {
      IdsAreDistinct(arcs[..|arcs| - 1], tag, n, out, id);
      assert |arcs| - 1 !in Ids(arcs[..|arcs| - 1], tag, n, out);
    }
  }

  /** Every path that occurs in the graph has exactly one node. */
  lemma NodesAndPathsBijective(g: PAG, p: Path, i: NodeId, j: NodeId)
    requires g.Valid() && i < |g.nodes| && j < |g.nodes|
    ensures g.nodes[i] == g.nodes[j] <==> i == j
    ensures p in g.values <==> p in g.nodes
  {
  }
}
