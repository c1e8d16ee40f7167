/** Function reachability (src/pta/strategies/stack_filtering.rs): a depth-first search from every node of the
    call graph. */
module Reachability {
  import opened CallGraph

  type Matrix = seq<seq<bool>>

  /** The targets of the edges that leave a node, latest edge first. */
  function Neighbors(edges: seq<CallGraphEdge>, n: nat): (r: seq<nat>)
    ensures forall m :: m in r <==> Succ(edges, n, m)
  {
    if edges == [] then []
    else
      var last := edges[|edges| - 1];
      var rest := Neighbors(edges[..|edges| - 1], n);
      assert edges == edges[..|edges| - 1] + [last];
      if last.src == n then [last.dst] + rest else rest
  }

  predicate Succ(edges: seq<CallGraphEdge>, n: nat, m: nat)
  {
    exists e :: e in edges && e.src == n && e.dst == m
  }

  /** A non-empty path along edges: at least two nodes. */
  ghost predicate IsPath(edges: seq<CallGraphEdge>, p: seq<nat>, i: nat, j: nat)
  {
    |p| >= 2 && p[0] == i && p[|p| - 1] == j && forall t :: 0 <= t < |p| - 1 ==> Succ(edges, p[t], p[t + 1])
  }

  ghost predicate Reaches(edges: seq<CallGraphEdge>, i: nat, j: nat)
  {
    exists p :: IsPath(edges, p, i, j)
  }

  lemma StepReaches(edges: seq<CallGraphEdge>, i: nat, j: nat)
    requires Succ(edges, i, j)
    ensures Reaches(edges, i, j)
  {
    assert IsPath(edges, [i, j], i, j);
  }

  lemma ReachesStep(edges: seq<CallGraphEdge>, i: nat, j: nat, k: nat)
    requires Reaches(edges, i, j) && Succ(edges, j, k)
    ensures Reaches(edges, i, k)
  {
    var p :| IsPath(edges, p, i, j);
    assert IsPath(edges, p + [k], i, k);
  }

  /** Whatever holds the successors of i and is closed under successors holds all that i reaches. */
  lemma {:induction false} ReachedInClosed(edges: seq<CallGraphEdge>, i: nat, p: seq<nat>, j: nat, S: set<nat>)
    requires IsPath(edges, p, i, j)
    requires forall m :: Succ(edges, i, m) ==> m in S
    requires forall n, m :: n in S && Succ(edges, n, m) ==> m in S
    ensures j in S
    decreases |p|
  {
    if |p| > 2 {
      var q := p[..|p| - 1];
      assert IsPath(edges, q, i, p[|p| - 2]);
      ReachedInClosed(edges, i, q, p[|p| - 2], S);
      assert Succ(edges, p[|p| - 2], p[|p| - 1]);
    } else {
      assert Succ(edges, p[0], p[1]);
    }
  }

  ghost function RowSet(row: seq<bool>): set<nat>
  {
    set n: nat | n < |row| && row[n]
  }

  /** The nodes of a row that are not set yet. */
  ghost function Unset(row: seq<bool>): set<nat>
  {
    set n: nat | n < |row| && !row[n]
  }

  ghost predicate EdgesInside(edges: seq<CallGraphEdge>, n: nat)
  {
    forall e :: e in edges ==> e.src < n && e.dst < n
  }

  /** A search state: what is set and what waits is reached, and nothing has been dropped. */
  ghost predicate Searching(edges: seq<CallGraphEdge>, i: nat, row: seq<bool>, worklist: seq<nat>)
  {
    && (forall n :: n in RowSet(row) || n in worklist ==> Reaches(edges, i, n))
    && (forall n :: n in worklist ==> n < |row|)
    && (forall m :: Succ(edges, i, m) ==> m in RowSet(row) || m in worklist)
    && (forall n, m :: n in RowSet(row) && Succ(edges, n, m) ==> m in RowSet(row) || m in worklist)
  }

  /** A row is right when it is set exactly at the nodes that a non-empty path reaches. */
  ghost predicate RowIsRight(edges: seq<CallGraphEdge>, i: nat, row: seq<bool>)
  {
    forall j: nat :: (j < |row| && row[j]) <==> Reaches(edges, i, j)
  }

  lemma SearchEnds(edges: seq<CallGraphEdge>, i: nat, row: seq<bool>)
    requires Searching(edges, i, row, [])
    ensures RowIsRight(edges, i, row)
  {
    forall j: nat ensures (j < |row| && row[j]) <==> Reaches(edges, i, j) {
      assert (j < |row| && row[j]) <==> j in RowSet(row);
      if Reaches(edges, i, j) {
        var p :| IsPath(edges, p, i, j);
        ReachedInClosed(edges, i, p, j, RowSet(row));
      }
    }
  }

  lemma SearchStarts(edges: seq<CallGraphEdge>, i: nat, row: seq<bool>, worklist: seq<nat>)
    requires RowSet(row) == {} && worklist == Neighbors(edges, i) && EdgesInside(edges, |row|)
    ensures Searching(edges, i, row, worklist)
  {
    forall n | n in worklist ensures Reaches(edges, i, n) && n < |row| {
      StepReaches(edges, i, n);
    }
  }

  /** One step: the last waiting node is set, and its successors wait, unless it was set before. */
  lemma SearchSteps(edges: seq<CallGraphEdge>, i: nat, row: seq<bool>, worklist: seq<nat>)
    requires Searching(edges, i, row, worklist) && worklist != [] && EdgesInside(edges, |row|)
    requires worklist[|worklist| - 1] < |row|
    ensures var n := worklist[|worklist| - 1];
      var rest := worklist[..|worklist| - 1];
      if row[n] then Searching(edges, i, row, rest)
      else Searching(edges, i, row[n := true], rest + Neighbors(edges, n)) && Unset(row[n := true]) < Unset(row)
  {
    var n, rest := worklist[|worklist| - 1], worklist[..|worklist| - 1];
    assert worklist == rest + [n];
    assert forall m :: m in worklist <==> m in rest || m == n;
    if row[n] {
      assert n in RowSet(row);
    } else {
      var row' := row[n := true];
      assert RowSet(row') == RowSet(row) + {n};
      assert Unset(row') == Unset(row) - {n} && n in Unset(row);
      var all := rest + Neighbors(edges, n);
      assert forall m :: m in all <==> m in rest || Succ(edges, n, m);
      forall m: nat | Succ(edges, n, m) ensures Reaches(edges, i, m) && m < |row| {
        ReachesStep(edges, i, n, m);
      }
    }
  }

  class ReachabilityRelation {
    var numNodes: nat
    var relationMatrix: Matrix

    ghost predicate Valid()
      reads this
    {
      |relationMatrix| == numNodes && forall i :: 0 <= i < numNodes ==> |relationMatrix[i]| == numNodes
    }

    ghost predicate Holds(i: nat, j: nat)
      requires Valid()
      reads this
    {
      i < numNodes && j < numNodes && relationMatrix[i][j]
    }

    constructor (numNodes: nat)
      ensures Valid() && this.numNodes == numNodes && forall i: nat, j: nat :: !Holds(i, j)
    {
      this.numNodes := numNodes;
      relationMatrix := seq(numNodes, _ => seq(numNodes, _ => false));
    }

    method IsReachable(from: nat, to: nat) returns (r: bool)
      requires Valid()
      ensures r <==> Holds(from, to)
    {
      if from >= numNodes || to >= numNodes {
        r := false;
      } else {
        r := relationMatrix[from][to];
      }
    }

    method AddReachable(from: nat, to: nat)
      requires Valid() && from < numNodes && to < numNodes
      modifies this`relationMatrix
      ensures Valid() && relationMatrix == old(relationMatrix)[from := old(relationMatrix[from])[to := true]]
    {
      relationMatrix := relationMatrix[from := relationMatrix[from][to := true]];
    }

    /** The search from one node, into its own row. */
    method ComputeRow(func: nat, edges: seq<CallGraphEdge>)
      requires Valid() && func < numNodes && EdgesInside(edges, numNodes) && RowSet(relationMatrix[func]) == {}
      modifies this`relationMatrix
      ensures Valid() && RowIsRight(edges, func, relationMatrix[func])
      ensures forall i :: 0 <= i < numNodes && i != func ==> relationMatrix[i] == old(relationMatrix[i])
    {
      hide Searching, Reaches, RowSet, Unset;
      var worklist := Neighbors(edges, func);
      SearchStarts(edges, func, relationMatrix[func], worklist);
      while worklist != []
        invariant Valid() && Searching(edges, func, relationMatrix[func], worklist)
        invariant forall i :: 0 <= i < numNodes && i != func ==> relationMatrix[i] == old(relationMatrix[i])
        decreases Unset(relationMatrix[func]), |worklist|
      {
        WaitingInside(edges, func, relationMatrix[func], worklist);
        assert worklist[|worklist| - 1] in worklist;
        SearchSteps(edges, func, relationMatrix[func], worklist);
        var reachNode := worklist[|worklist| - 1];
        worklist := worklist[..|worklist| - 1];
        var known := IsReachable(func, reachNode);
        if !known {
          AddReachable(func, reachNode);
          worklist := worklist + Neighbors(edges, reachNode);
        }
      }
      SearchEnds(edges, func, relationMatrix[func]);
    }
  }

  lemma WaitingInside(edges: seq<CallGraphEdge>, i: nat, row: seq<bool>, worklist: seq<nat>)
    requires Searching(edges, i, row, worklist)
    ensures forall n :: n in worklist ==> n < |row|
  {
  }

  lemma RightMatrix(edges: seq<CallGraphEdge>, r: ReachabilityRelation)
    requires r.Valid() && EdgesInside(edges, r.numNodes)
    requires forall i :: 0 <= i < r.numNodes ==> RowIsRight(edges, i, r.relationMatrix[i])
    ensures forall i: nat, j: nat :: r.Holds(i, j) <==> Reaches(edges, i, j)
  {
    forall i: nat, j: nat ensures r.Holds(i, j) <==> Reaches(edges, i, j) {
      if Reaches(edges, i, j) {
        var p :| IsPath(edges, p, i, j);
        assert Succ(edges, p[0], p[1]);
      }
      if i < r.numNodes {
        assert RowIsRight(edges, i, r.relationMatrix[i]);
      }
    }
  }

  lemma NothingSet(row: seq<bool>)
    requires forall j :: 0 <= j < |row| ==> !row[j]
    ensures RowSet(row) == {}
  {
  }

  /** The search driven by the queue of reachable functions. */
  method ComputeFuncReachRelations(callGraph: CallGraph) returns (r: ReachabilityRelation)
    requires callGraph.Valid()
    ensures fresh(r) && r.Valid() && r.numNodes == |callGraph.nodes|
    ensures forall i: nat, j: nat :: r.Holds(i, j) <==> Reaches(callGraph.edges, i, j)
  {
    hide RowIsRight, Reaches, RowSet;
    var edges := callGraph.edges;
    r := new ReachabilityRelation(|callGraph.nodes|);
    assert EdgesInside(edges, r.numNodes);
    forall i | 0 <= i < r.numNodes ensures RowSet(r.relationMatrix[i]) == {} {
      forall j | 0 <= j < r.numNodes ensures !r.relationMatrix[i][j] {
        assert !r.Holds(i, j);
      }
      NothingSet(r.relationMatrix[i]);
    }
    for t := 0 to |callGraph.reachFuncs|
      invariant fresh(r) && r.Valid() && r.numNodes == |callGraph.nodes|
      invariant forall i :: 0 <= i < t ==> RowIsRight(edges, i, r.relationMatrix[i])
      invariant forall i :: t <= i < r.numNodes ==> RowSet(r.relationMatrix[i]) == {}
    {
      var func := callGraph.reachFuncs[t];
      r.ComputeRow(callGraph.funcNodes[func], edges);
    }
    RightMatrix(edges, r);
  }

  /** The search of one row on its own, as the parallel version runs it. */
  method SearchFrom(node: nat, edges: seq<CallGraphEdge>, nodeCount: nat) returns (row: seq<bool>)
    requires EdgesInside(edges, nodeCount)
    ensures |row| == nodeCount && RowIsRight(edges, node, row)
  {
    hide Searching, Reaches, RowSet, Unset;
    row := seq(nodeCount, _ => false);
    NothingSet(row);
    var worklist := Neighbors(edges, node);
    SearchStarts(edges, node, row, worklist);
    while worklist != []
      invariant |row| == nodeCount && Searching(edges, node, row, worklist)
      decreases Unset(row), |worklist|
    {
      WaitingInside(edges, node, row, worklist);
      assert worklist[|worklist| - 1] in worklist;
      SearchSteps(edges, node, row, worklist);
      var reachNode := worklist[|worklist| - 1];
      worklist := worklist[..|worklist| - 1];
      if !row[reachNode] {
        row := row[reachNode := true];
        worklist := worklist + Neighbors(edges, reachNode);
      }
    }
    SearchEnds(edges, node, row);
  }

  /** The parallel version: one independent search per node, whose rows are stored under a lock. */
  method ComputeFuncReachRelationsMt(callGraph: CallGraph) returns (r: ReachabilityRelation)
    requires callGraph.Valid()
    ensures fresh(r) && r.Valid() && r.numNodes == |callGraph.nodes|
    ensures forall i: nat, j: nat :: r.Holds(i, j) <==> Reaches(callGraph.edges, i, j)
  {
    hide RowIsRight, Reaches;
    var edges, n := callGraph.edges, |callGraph.nodes|;
    assert EdgesInside(edges, n);
    var matrix: Matrix := [];
    for i := 0 to n
      invariant |matrix| == i
      invariant forall t :: 0 <= t < i ==> |matrix[t]| == n && RowIsRight(edges, t, matrix[t])
    {
      var row := SearchFrom(i, edges, n);
      matrix := matrix + [row];
    }
    r := new ReachabilityRelation(n);
    r.relationMatrix := matrix;
    RightMatrix(edges, r);
  }
}
