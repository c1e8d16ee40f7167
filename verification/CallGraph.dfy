/** The call graph (src/graph/call_graph.rs): one node per function, one edge per call site and callee, and
    the queue of reachable functions. */
module CallGraph {
  import opened Paths

  /** A base call site: the function and the location of the call, without the arguments. */
  datatype BaseSite = BaseSite(func: FuncId, location: Location)

  datatype CallGraphEdge = CallGraphEdge(src: nat, dst: nat, site: BaseSite)

  type CallKey = (BaseSite, FuncId)

  ghost function EdgeIds(edges: seq<CallGraphEdge>, site: BaseSite): set<nat>
  {
    set i: nat | i < |edges| && edges[i].site == site
  }

  ghost function Keys(nodes: seq<FuncId>, edges: seq<CallGraphEdge>): set<CallKey>
    requires forall e :: e in edges ==> e.dst < |nodes|
  {
    set i | 0 <= i < |edges| :: (edges[i].site, nodes[edges[i].dst])
  }

  /** Functions in the order of their creation, without repetition. */
  function Insert(nodes: seq<FuncId>, f: FuncId): seq<FuncId>
  {
    if f in nodes then nodes else nodes + [f]
  }

  class CallGraph {
    var nodes: seq<FuncId>
    var funcNodes: map<FuncId, nat>
    var edges: seq<CallGraphEdge>
    var siteToEdges: map<BaseSite, set<nat>>
    var reachFuncs: seq<FuncId>

    /** Functions and nodes are in bijection, the queue holds every function once in creation order, each
        site lists exactly its edges, and no site has two edges to the same function. */
    ghost predicate Valid()
      reads this
    {
      && (forall f :: f in funcNodes ==> funcNodes[f] < |nodes| && nodes[funcNodes[f]] == f)
      && (forall i :: 0 <= i < |nodes| ==> nodes[i] in funcNodes && funcNodes[nodes[i]] == i)
      && reachFuncs == nodes
      && (forall e :: e in edges ==> e.src < |nodes| && e.dst < |nodes|)
      && (forall s :: (if s in siteToEdges then siteToEdges[s] else {}) == EdgeIds(edges, s))
      && (forall i, j :: 0 <= i < j < |edges| ==> edges[i].site != edges[j].site || edges[i].dst != edges[j].dst)
    }

    ghost function CallEdges(): set<CallKey>
      requires Valid()
      reads this
    {
      Keys(nodes, edges)
    }

    constructor ()
      ensures Valid() && nodes == [] && CallEdges() == {}
    {
      nodes, funcNodes, edges, siteToEdges, reachFuncs := [], map[], [], map[], [];
    }

    /** The node of a function; a function that gets a node also enters the queue. */
    method GetOrInsertNode(f: FuncId) returns (id: nat)
      requires Valid()
      modifies this`nodes, this`funcNodes, this`reachFuncs
      ensures Valid() && id < |nodes| && nodes[id] == f
      ensures nodes == Insert(old(nodes), f)
      ensures CallEdges() == old(CallEdges())
    {
      if f in funcNodes {
        id := funcNodes[f];
      } else {
        id := |nodes|;
        reachFuncs := reachFuncs + [f];
        nodes, funcNodes := nodes + [f], funcNodes[f := id];
      }
    }

    method AddNode(f: FuncId)
      requires Valid()
      modifies this`nodes, this`funcNodes, this`reachFuncs
      ensures Valid() && CallEdges() == old(CallEdges())
      ensures nodes == Insert(old(nodes), f)
    {
      var id := GetOrInsertNode(f);
    }

    /** The functions that a call site may call. */
    method GetCallees(site: BaseSite) returns (callees: set<FuncId>)
      requires Valid()
      ensures forall f :: f in callees <==> (site, f) in CallEdges()
    {
      callees := {};
      if site in siteToEdges {
        var todo := siteToEdges[site];
        while todo != {}
          invariant todo <= EdgeIds(edges, site)
          invariant forall f :: f in callees <==> exists i :: i in EdgeIds(edges, site) - todo && nodes[edges[i].dst] == f
          decreases todo
        {
          var i :| i in todo;
          assert edges[i] in edges;
          callees := callees + {nodes[edges[i].dst]};
          todo := todo - {i};
        }
        forall f ensures f in callees <==> (site, f) in CallEdges() {
          if (site, f) in CallEdges() {
            var i :| 0 <= i < |edges| && (site, f) == (edges[i].site, nodes[edges[i].dst]);
            assert i in EdgeIds(edges, site) - todo;
          }
        }
      } else {
        forall i | 0 <= i < |edges| ensures edges[i].site != site {
          assert i !in EdgeIds(edges, site);
        }
      }
    }

    /** Appends an edge that the site does not have yet. */
    method Append(e: CallGraphEdge)
      requires Valid() && e.src < |nodes| && e.dst < |nodes| && (e.site, nodes[e.dst]) !in CallEdges()
      modifies this`edges, this`siteToEdges
      ensures Valid() && CallEdges() == old(CallEdges()) + {(e.site, nodes[e.dst])}
    {
      hide EdgeIds, Keys;
      var id := |edges|;
      ghost var before := edges;
      forall i | 0 <= i < |edges| ensures edges[i].site != e.site || edges[i].dst != e.dst {
        KeyAt(i);
      }
      EdgeIdsGrow(siteToEdges, edges, e);
      KeysOneMore(nodes, edges, e);
      edges := edges + [e];
      siteToEdges := siteToEdges[e.site := (if e.site in siteToEdges then siteToEdges[e.site] else {}) + {id}];
    }

    /** Adds the edge unless the site already calls the function. */
    method AddEdge(site: BaseSite, caller: FuncId, callee: FuncId) returns (isNew: bool)
      requires Valid()
      modifies this
      ensures Valid()
      ensures isNew <==> (site, callee) !in old(CallEdges())
      ensures CallEdges() == old(CallEdges()) + {(site, callee)}
      ensures nodes == Insert(Insert(old(nodes), caller), callee)
    {
      var callerNode := GetOrInsertNode(caller);
      var calleeNode := GetOrInsertNode(callee);
      var callees := GetCallees(site);
      isNew := callee !in callees;
      if isNew {
        Append(CallGraphEdge(callerNode, calleeNode, site));
      }
    }

    lemma KeyAt(i: nat)
      requires Valid() && i < |edges|
      ensures edges[i].dst < |nodes| && (edges[i].site, nodes[edges[i].dst]) in CallEdges()
    {
    }
  }

  /** Entering the next edge id at its site keeps the map right. */
  lemma EdgeIdsGrow(m: map<BaseSite, set<nat>>, edges: seq<CallGraphEdge>, e: CallGraphEdge)
    requires forall s :: (if s in m then m[s] else {}) == EdgeIds(edges, s)
    ensures var m' := m[e.site := (if e.site in m then m[e.site] else {}) + {|edges|}];
      forall s :: (if s in m' then m'[s] else {}) == EdgeIds(edges + [e], s)
  {
  }

  lemma KeysOneMore(nodes: seq<FuncId>, edges: seq<CallGraphEdge>, e: CallGraphEdge)
    requires e.dst < |nodes| && forall f :: f in edges ==> f.dst < |nodes|
    ensures Keys(nodes, edges + [e]) == Keys(nodes, edges) + {(e.site, nodes[e.dst])}
  {
    var all := edges + [e];
    forall i | 0 <= i < |edges| ensures (edges[i].site, nodes[edges[i].dst]) in Keys(nodes, all) {
      assert all[i] == edges[i] && all[i] in all;
    }
    assert all[|edges|] == e;
    assert (all[|edges|].site, nodes[all[|edges|].dst]) in Keys(nodes, all);
  }
}
