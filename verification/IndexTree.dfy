/** A tree in one vector (src/util/index_tree.rs): nodes link to their parent, first and last child and next
    sibling by index; iterators walk the links. */
module IndexTree {
  import opened Options

  type NodeId = nat

  datatype Node<T> = Node(
    parent: Option<NodeId>,
    nextSibling: Option<NodeId>,
    firstChild: Option<NodeId>,
    lastChild: Option<NodeId>,
    data: T)

  // ----- trees as lists of children

  type Kids = seq<seq<NodeId>>

  /** Children have larger ids than their parent, and no node occurs twice as a child. */
  ghost predicate WellNumbered(kids: Kids)
  {
    && (forall p, i {:trigger kids[p][i]} :: 0 <= p < |kids| && 0 <= i < |kids[p]| ==> p < kids[p][i] < |kids|)
    && (forall p, i, q, j {:trigger kids[p][i], kids[q][j]} ::
          0 <= p < |kids| && 0 <= i < |kids[p]| && 0 <= q < |kids| && 0 <= j < |kids[q]| && kids[p][i] == kids[q][j]
          ==> p == q && i == j)
  }

  ghost predicate IsChild(kids: Kids, p: NodeId, c: NodeId)
  {
    p < |kids| && c in kids[p]
  }

  ghost predicate HasParent(kids: Kids, c: NodeId)
  {
    exists p: NodeId :: IsChild(kids, p, c)
  }

  /** Every node but the root is somebody's child. */
  ghost predicate Rooted(kids: Kids)
  {
    kids != [] && forall c: NodeId :: 0 < c < |kids| ==> HasParent(kids, c)
  }

  /** The proper descendants of a node in recursive pre-order, children in order. */
  ghost function Below(kids: Kids, n: NodeId): seq<NodeId>
    requires WellNumbered(kids) && n < |kids|
    decreases |kids| - n, |kids[n]| + 1
  {
    Forest(kids, n, 0)
  }

  /** The children of p from the i-th on, each followed by its descendants. */
  ghost function Forest(kids: Kids, p: NodeId, i: nat): seq<NodeId>
    requires WellNumbered(kids) && p < |kids| && i <= |kids[p]|
    decreases |kids| - p, |kids[p]| - i
  {
    if i == |kids[p]| then []
    else [kids[p][i]] + Below(kids, kids[p][i]) + Forest(kids, p, i + 1)
  }

  ghost predicate Descends(kids: Kids, n: NodeId, x: NodeId)
    requires WellNumbered(kids)
    decreases x
  {
    exists p: NodeId :: IsChild(kids, p, x) && p < x && (p == n || Descends(kids, n, p))
  }

  // ----- links

  ghost predicate EndsOk<T>(nodes: seq<Node<T>>, kids: Kids, p: NodeId)
    requires |kids| == |nodes| && p < |nodes|
  {
    && nodes[p].firstChild == (if kids[p] == [] then None else Some(kids[p][0]))
    && nodes[p].lastChild == (if kids[p] == [] then None else Some(kids[p][|kids[p]| - 1]))
  }

  ghost predicate LinksOk<T>(nodes: seq<Node<T>>, kids: Kids, p: NodeId, i: nat)
    requires |kids| == |nodes| && p < |nodes| && i < |kids[p]|
  {
    var c := kids[p][i];
    && c < |nodes| && nodes[c].parent == Some(p)
    && nodes[c].nextSibling == (if i + 1 < |kids[p]| then Some(kids[p][i + 1]) else None)
  }

  /** The links of the nodes are those of the lists of children. */
  ghost predicate Linked<T>(nodes: seq<Node<T>>, kids: Kids)
  {
    && |kids| == |nodes| && WellNumbered(kids) && Rooted(kids)
    && nodes[0].parent == None && nodes[0].nextSibling == None
    && (forall p: NodeId :: p < |nodes| ==> EndsOk(nodes, kids, p))
    && (forall p: NodeId, i: nat :: p < |nodes| && i < |kids[p]| ==> LinksOk(nodes, kids, p, i))
  }

  ghost function WithChild(kids: Kids, parent: NodeId): Kids
    requires parent < |kids|
  {
    kids[parent := kids[parent] + [|kids|]] + [[]]
  }

  /** The kids of the larger tree are the old ones and the new child. */
  lemma KidsOfWithChild(kids: Kids, parent: NodeId, p: NodeId, i: nat)
    requires parent < |kids| && p < |WithChild(kids, parent)| && i < |WithChild(kids, parent)[p]|
    ensures var k := WithChild(kids, parent)[p][i];
      (p == parent && i == |kids[parent]| && k == |kids|) || (p < |kids| && i < |kids[p]| && k == kids[p][i])
  {
  }

  /** Appending a fresh child keeps the numbering. */
  lemma WithChildWellNumbered(kids: Kids, parent: NodeId)
    requires WellNumbered(kids) && Rooted(kids) && parent < |kids|
    ensures WellNumbered(WithChild(kids, parent)) && Rooted(WithChild(kids, parent))
  {
    var more := WithChild(kids, parent);
    forall c: NodeId | 0 < c < |more| ensures HasParent(more, c) {
      if c == |kids| {
        assert more[parent][|kids[parent]|] == c;
        assert IsChild(more, parent, c);
      } else {
        assert HasParent(kids, c);
        var p: NodeId :| IsChild(kids, p, c);
        var i :| 0 <= i < |kids[p]| && kids[p][i] == c;
        assert more[p][i] == c;
        assert IsChild(more, p, c);
      }
    }
    forall p: NodeId, i: nat | p < |more| && i < |more[p]| ensures p < more[p][i] < |more| {
      KidsOfWithChild(kids, parent, p, i);
    }
    forall p: NodeId, i: nat, q: NodeId, j: nat
      | p < |more| && i < |more[p]| && q < |more| && j < |more[q]| && more[p][i] == more[q][j]
      ensures p == q && i == j
    {
      KidsOfWithChild(kids, parent, p, i);
      KidsOfWithChild(kids, parent, q, j);
    }
  }

  /** What `AddChild` does to the nodes. */
  ghost predicate ChildAdded<T>(nodes: seq<Node<T>>, parent: NodeId, data: T, more: seq<Node<T>>)
    requires parent < |nodes|
  {
    var child, last := |nodes|, nodes[parent].lastChild;
    && |more| == child + 1 && more[child] == Node(Some(parent), None, None, None, data)
    && more[parent] == nodes[parent].(firstChild := if last.None? then Some(child) else nodes[parent].firstChild,
                                      lastChild := Some(child))
    && forall i :: 0 <= i < child && i != parent ==>
      more[i] == if last == Some(i) then nodes[i].(nextSibling := Some(child)) else nodes[i]
  }

  lemma AddedChildIsLinked<T>(nodes: seq<Node<T>>, kids: Kids, parent: NodeId, data: T, more: seq<Node<T>>)
    requires Linked(nodes, kids) && parent < |nodes| && ChildAdded(nodes, parent, data, more)
    ensures Linked(more, WithChild(kids, parent))
  {
    var kids' := WithChild(kids, parent);
    WithChildWellNumbered(kids, parent);
    assert EndsOk(nodes, kids, parent);
    if kids[parent] != [] {
      assert LinksOk(nodes, kids, parent, |kids[parent]| - 1);
    }
    forall p: NodeId | p < |more| ensures EndsOk(more, kids', p) {
      if p < |nodes| {
        assert EndsOk(nodes, kids, p);
      }
    }
    forall p: NodeId, i: nat | p < |more| && i < |kids'[p]| ensures LinksOk(more, kids', p, i) {
      KidsOfWithChild(kids, parent, p, i);
      if p < |nodes| && i < |kids[p]| {
        AddedKeepsLink(nodes, kids, parent, data, more, p, i);
      }
    }
    LastIsLater(nodes, kids, parent);
  }

  lemma AddedKeepsLink<T>(nodes: seq<Node<T>>, kids: Kids, parent: NodeId, data: T, more: seq<Node<T>>, p: NodeId, i: nat)
    requires Linked(nodes, kids) && parent < |nodes| && ChildAdded(nodes, parent, data, more)
    requires p < |nodes| && i < |kids[p]| && WellNumbered(WithChild(kids, parent))
    ensures LinksOk(more, WithChild(kids, parent), p, i)
  {
    assert LinksOk(nodes, kids, p, i) && EndsOk(nodes, kids, parent);
    var c := kids[p][i];
    var last := nodes[parent].lastChild;
    if last == Some(c) {
      var j := |kids[parent]| - 1;
      assert kids[parent][j] == kids[p][i];
    }
  }

  class IndexTree<T> {
    var nodes: seq<Node<T>>
    /** The children of every node, in insertion order. */
    ghost var kids: Kids

    ghost predicate Valid()
      reads this
    {
      Linked(nodes, kids)
    }

    constructor NewRoot(data: T)
      ensures Valid() && kids == [[]] && nodes == [Node(None, None, None, None, data)]
    {
      nodes := [Node(None, None, None, None, data)];
      kids := [[]];
    }

    /** Appends a child after the existing children; nothing else moves. */
    method AddChild(parent: NodeId, data: T) returns (child: NodeId)
      requires Valid() && parent < |nodes|
      modifies this
      ensures Valid() && child == old(|nodes|) && kids == WithChild(old(kids), parent)
      ensures ChildAdded(old(nodes), parent, data, nodes)
    {
      hide Linked;
      child := |nodes|;
      ghost var before := nodes;
      LastIsLater(nodes, kids, parent);
      nodes := nodes + [Node(None, None, None, None, data)];
      match nodes[parent].lastChild {
        case None =>
          nodes := nodes[parent := nodes[parent].(firstChild := Some(child), lastChild := Some(child))];
        case Some(id) =>
          nodes := nodes[parent := nodes[parent].(lastChild := Some(child))];
          nodes := nodes[id := nodes[id].(nextSibling := Some(child))];
      }
      nodes := nodes[child := nodes[child].(parent := Some(parent))];
      AddedChildIsLinked(before, kids, parent, data, nodes);
      kids := WithChild(kids, parent);
    }
  }

  lemma LastIsLater<T>(nodes: seq<Node<T>>, kids: Kids, p: NodeId)
    requires Linked(nodes, kids) && p < |nodes|
    ensures |kids| == |nodes| && (nodes[p].lastChild.Some? ==> p < nodes[p].lastChild.value < |nodes|)
  {
    assert EndsOk(nodes, kids, p);
  }

  // ----- traversal

  /** The sides of a node: before and after its descendants. */
  datatype NodeEdge = Start(node: NodeId) | End(node: NodeId)

  ghost function Events(kids: Kids, n: NodeId): seq<NodeEdge>
    requires WellNumbered(kids) && n < |kids|
    decreases |kids| - n, |kids[n]| + 1
  {
    [Start(n)] + EventsOf(kids, n, 0) + [End(n)]
  }

  ghost function EventsOf(kids: Kids, p: NodeId, i: nat): seq<NodeEdge>
    requires WellNumbered(kids) && p < |kids| && i <= |kids[p]|
    decreases |kids| - p, |kids[p]| - i
  {
    if i == |kids[p]| then [] else Events(kids, kids[p][i]) + EventsOf(kids, p, i + 1)
  }

  ghost predicate KidAt(kids: Kids, p: NodeId, i: nat, c: NodeId)
  {
    p < |kids| && i < |kids[p]| && kids[p][i] == c
  }

  lemma KidHasPlace(kids: Kids, c: NodeId)
    requires Rooted(kids) && 0 < c < |kids|
    ensures exists p: NodeId, i: nat :: KidAt(kids, p, i, c)
  {
    assert HasParent(kids, c);
    var p: NodeId :| IsChild(kids, p, c);
    var i :| 0 <= i < |kids[p]| && kids[p][i] == c;
    assert KidAt(kids, p, i, c);
  }

  /** The place of a node among the children of its parent. */
  ghost function PlaceOf(kids: Kids, c: NodeId): (r: (NodeId, nat))
    requires WellNumbered(kids) && Rooted(kids) && 0 < c < |kids|
    ensures KidAt(kids, r.0, r.1, c) && r.0 < c
  {
    KidHasPlace(kids, c);
    var p: NodeId, i: nat :| KidAt(kids, p, i, c);
    (p, i)
  }

  /** What follows the end of a node in the traversal of a subtree. */
  ghost function After(kids: Kids, root: NodeId, n: NodeId): seq<NodeEdge>
    requires WellNumbered(kids) && Rooted(kids) && n < |kids|
    decreases n
  {
    if n == root || n == 0 then []
    else
      var (p, i) := PlaceOf(kids, n);
      EventsOf(kids, p, i + 1) + [End(p)] + After(kids, root, p)
  }

  ghost predicate Within(kids: Kids, root: NodeId, n: NodeId)
    requires WellNumbered(kids) && Rooted(kids) && n < |kids|
    decreases n
  {
    n == root || (n != 0 && Within(kids, root, PlaceOf(kids, n).0))
  }

  ghost function Rest(kids: Kids, root: NodeId, e: NodeEdge): seq<NodeEdge>
    requires WellNumbered(kids) && Rooted(kids) && e.node < |kids|
  {
    match e
    case Start(n) => Events(kids, n) + After(kids, root, n)
    case End(n) => [e] + After(kids, root, n)
  }

  function NextOfNext<T>(nodes: seq<Node<T>>, root: NodeId, next: NodeEdge): Option<NodeEdge>
    requires next.node < |nodes|
  {
    match next
    case Start(n) =>
      (match nodes[n].firstChild
       case Some(first) => Some(Start(first))
       case None => Some(End(n)))
    case End(n) =>
      if n == root then None
      else if nodes[n].nextSibling.Some? then Some(Start(nodes[n].nextSibling.value))
      else if nodes[n].parent.Some? then Some(End(nodes[n].parent.value))
      else None
  }

  lemma PlaceIsUnique(kids: Kids, p: NodeId, i: nat, c: NodeId)
    requires WellNumbered(kids) && Rooted(kids) && KidAt(kids, p, i, c)
    ensures 0 < c < |kids| && PlaceOf(kids, c) == (p, i)
  {
  }

  lemma AfterUnfolds(kids: Kids, root: NodeId, p: NodeId, i: nat, n: NodeId)
    requires WellNumbered(kids) && Rooted(kids) && KidAt(kids, p, i, n) && n != root
    ensures p < n < |kids| && (Within(kids, root, n) <==> Within(kids, root, p))
    ensures After(kids, root, n) == EventsOf(kids, p, i + 1) + [End(p)] + After(kids, root, p)
  {
    PlaceIsUnique(kids, p, i, n);
  }

  lemma {:induction false} WithinIsLater(kids: Kids, root: NodeId, n: NodeId)
    requires WellNumbered(kids) && Rooted(kids) && n < |kids| && Within(kids, root, n)
    ensures root <= n
    decreases n
  {
    if n != root {
      WithinIsLater(kids, root, PlaceOf(kids, n).0);
    }
  }

  lemma EventsUnfold(kids: Kids, p: NodeId, i: nat)
    requires WellNumbered(kids) && p < |kids| && i < |kids[p]|
    ensures p < kids[p][i] < |kids|
    ensures EventsOf(kids, p, i) == Events(kids, kids[p][i]) + EventsOf(kids, p, i + 1)
  {
  }

  lemma RestUnfolds(kids: Kids, root: NodeId, n: NodeId)
    requires WellNumbered(kids) && Rooted(kids) && n < |kids|
    ensures Rest(kids, root, Start(n)) == Events(kids, n) + After(kids, root, n)
    ensures Rest(kids, root, End(n)) == [End(n)] + After(kids, root, n)
    ensures Events(kids, n) == [Start(n)] + EventsOf(kids, n, 0) + [End(n)]
    ensures kids[n] == [] ==> EventsOf(kids, n, 0) == []
  {
  }

  lemma Regroup(a: seq<NodeEdge>, b: seq<NodeEdge>, c: seq<NodeEdge>, d: seq<NodeEdge>, e: seq<NodeEdge>)
    ensures a + (b + c) + d + e == a + (b + (c + d + e))
    ensures a + ((b + c) + d + e) == a + (b + (c + d + e))
  {
  }

  /** A node with children is followed by its first child. */
  lemma FirstAfterStart(kids: Kids, root: NodeId, n: NodeId)
    requires WellNumbered(kids) && Rooted(kids) && n < |kids| && Within(kids, root, n) && kids[n] != []
    ensures var first := kids[n][0];
      && n < first < |kids| && Within(kids, root, first)
      && Rest(kids, root, Start(n)) == [Start(n)] + Rest(kids, root, Start(first))
  {
    hide Events, EventsOf, After, Rest, Within;
    var first := kids[n][0];
    EventsUnfold(kids, n, 0);
    WithinIsLater(kids, root, n);
    AfterUnfolds(kids, root, n, 0, first);
    RestUnfolds(kids, root, n);
    RestUnfolds(kids, root, first);
    Regroup([Start(n)], Events(kids, first), EventsOf(kids, n, 1), [End(n)], After(kids, root, n));
  }

  /** A node without children is followed by its own end. */
  lemma EndAfterStart(kids: Kids, root: NodeId, n: NodeId)
    requires WellNumbered(kids) && Rooted(kids) && n < |kids| && kids[n] == []
    ensures Rest(kids, root, Start(n)) == [Start(n)] + Rest(kids, root, End(n))
  {
    hide Events, EventsOf, After, Rest;
    RestUnfolds(kids, root, n);
    assert [Start(n)] + [] + [End(n)] + After(kids, root, n) == [Start(n)] + ([End(n)] + After(kids, root, n));
  }

  /** The end of a child is followed by its next sibling, or by the end of its parent. */
  lemma NextAfterEnd(kids: Kids, root: NodeId, p: NodeId, i: nat, n: NodeId)
    requires WellNumbered(kids) && Rooted(kids) && KidAt(kids, p, i, n) && n != root && n < |kids| && Within(kids, root, n)
    ensures Within(kids, root, p)
    ensures i + 1 < |kids[p]| ==>
      var sibling := kids[p][i + 1];
      && sibling < |kids| && Within(kids, root, sibling)
      && Rest(kids, root, End(n)) == [End(n)] + Rest(kids, root, Start(sibling))
    ensures i + 1 == |kids[p]| ==> Rest(kids, root, End(n)) == [End(n)] + Rest(kids, root, End(p))
  {
    hide Events, After, Rest, Within;
    AfterUnfolds(kids, root, p, i, n);
    RestUnfolds(kids, root, n);
    RestUnfolds(kids, root, p);
    if i + 1 < |kids[p]| {
      var sibling := kids[p][i + 1];
      EventsUnfold(kids, p, i + 1);
      WithinIsLater(kids, root, p);
      AfterUnfolds(kids, root, p, i + 1, sibling);
      RestUnfolds(kids, root, sibling);
      Regroup([End(n)], Events(kids, sibling), EventsOf(kids, p, i + 2), [End(p)], After(kids, root, p));
    } else {
      assert EventsOf(kids, p, i + 1) == [];
      assert [] + [End(p)] + After(kids, root, p) == [End(p)] + After(kids, root, p);
    }
  }

  /** The step function advances by exactly one event, and stops only after the end of the root. */
  lemma NextIsRest<T>(nodes: seq<Node<T>>, kids: Kids, root: NodeId, e: NodeEdge)
    requires Linked(nodes, kids) && e.node < |nodes| && Within(kids, root, e.node)
    ensures var next := NextOfNext(nodes, root, e);
      && (next.None? ==> Rest(kids, root, e) == [e])
      && (next.Some? ==> next.value.node < |nodes| && Within(kids, root, next.value.node)
                         && Rest(kids, root, e) == [e] + Rest(kids, root, next.value))
  {
    hide Events, EventsOf, After, Rest;
    var n := e.node;
    assert EndsOk(nodes, kids, n);
    if e.Start? {
      if kids[n] != [] {
        FirstAfterStart(kids, root, n);
      } else {
        EndAfterStart(kids, root, n);
      }
    } else if n != root {
      var (p, i) := PlaceOf(kids, n);
      assert LinksOk(nodes, kids, p, i);
      NextAfterEnd(kids, root, p, i, n);
    } else {
      LastRest(kids, root);
    }
  }

  lemma LastRest(kids: Kids, root: NodeId)
    requires WellNumbered(kids) && Rooted(kids) && root < |kids|
    ensures Rest(kids, root, End(root)) == [End(root)]
  {
  }

  // ----- what the traversal yields

  /** The nodes that are entered, without the root. */
  ghost function Entered(root: NodeId, es: seq<NodeEdge>): seq<NodeId>
  {
    if es == [] then []
    else (if es[0].Start? && es[0].node != root then [es[0].node] else []) + Entered(root, es[1..])
  }

  lemma {:induction false} EnteredConcat(root: NodeId, a: seq<NodeEdge>, b: seq<NodeEdge>)
    ensures Entered(root, a + b) == Entered(root, a) + Entered(root, b)
  {
    if a == [] {
      assert a + b == b;
    } else {
      assert (a + b)[0] == a[0] && (a + b)[1..] == a[1..] + b;
      EnteredConcat(root, a[1..], b);
    }
  }

  /** Entering the nodes of a subtree visits its root and then its descendants in pre-order. */
  lemma {:induction false} EnteredIsPreOrder(kids: Kids, root: NodeId, n: NodeId)
    requires WellNumbered(kids) && root <= n < |kids|
    ensures Entered(root, Events(kids, n)) == (if n == root then [] else [n]) + Below(kids, n)
    decreases |kids| - n, |kids[n]| + 1
  {
    EnteredForest(kids, root, n, 0);
    EnteredConcat(root, [Start(n)] + EventsOf(kids, n, 0), [End(n)]);
    EnteredConcat(root, [Start(n)], EventsOf(kids, n, 0));
    assert Entered(root, [End(n)]) == [];
    assert Entered(root, [Start(n)]) == if n == root then [] else [n];
  }

  lemma {:induction false} EnteredForest(kids: Kids, root: NodeId, p: NodeId, i: nat)
    requires WellNumbered(kids) && root <= p < |kids| && i <= |kids[p]|
    ensures Entered(root, EventsOf(kids, p, i)) == Forest(kids, p, i)
    decreases |kids| - p, |kids[p]| - i
  {
    if i < |kids[p]| {
      EnteredIsPreOrder(kids, root, kids[p][i]);
      EnteredForest(kids, root, p, i + 1);
      EnteredConcat(root, Events(kids, kids[p][i]), EventsOf(kids, p, i + 1));
    }
  }

  class Traverse<T> {
    const tree: IndexTree<T>
    const root: NodeId
    var next: Option<NodeEdge>

    ghost predicate Valid()
      reads this, tree
    {
      && tree.Valid() && root < |tree.nodes|
      && (next.Some? ==> next.value.node < |tree.nodes| && Within(tree.kids, root, next.value.node))
    }

    /** The events still to be yielded. */
    ghost function Left(): seq<NodeEdge>
      requires Valid()
      reads this, tree
    {
      if next.None? then [] else Rest(tree.kids, root, next.value)
    }

    constructor (tree: IndexTree<T>, root: NodeId)
      requires tree.Valid() && root < |tree.nodes|
      ensures Valid() && this.tree == tree && this.root == root && Left() == Events(tree.kids, root)
    {
      this.tree, this.root, next := tree, root, Some(Start(root));
      new;
      assert After(tree.kids, root, root) == [];
    }

    method Next() returns (r: Option<NodeEdge>)
      requires Valid()
      modifies this
      ensures Valid()
      ensures r.None? <==> old(Left()) == []
      ensures r.None? ==> Left() == []
      ensures r.Some? ==> old(Left()) == [r.value] + Left()
    {
      hide Linked, Rest, Within;
      r := next;
      if r.Some? {
        NextIsRest(tree.nodes, tree.kids, root, r.value);
        next := NextOfNext(tree.nodes, root, r.value);
        RestStarts(tree.nodes, tree.kids, root, r.value);
      }
    }
  }

  lemma RestStarts<T>(nodes: seq<Node<T>>, kids: Kids, root: NodeId, e: NodeEdge)
    requires Linked(nodes, kids) && e.node < |nodes|
    ensures Rest(kids, root, e) != []
  {
  }

  class Descendants<T> {
    const traverse: Traverse<T>
    const root: NodeId

    ghost predicate Valid()
      reads this, traverse, traverse.tree
    {
      traverse.Valid() && traverse.root == root
    }

    /** The nodes still to be yielded. */
    ghost function Left(): seq<NodeId>
      requires Valid()
      reads this, traverse, traverse.tree
    {
      Entered(root, traverse.Left())
    }

    constructor (tree: IndexTree<T>, root: NodeId)
      requires tree.Valid() && root < |tree.nodes|
      ensures Valid() && traverse.tree == tree && fresh(traverse) && Left() == Below(tree.kids, root)
    {
      this.root := root;
      var t := new Traverse<T>(tree, root);
      traverse := t;
      new;
      EnteredIsPreOrder(tree.kids, root, root);
    }

    /** Skips the ends and the root itself. */
    method Next() returns (r: Option<NodeId>)
      requires Valid()
      modifies traverse
      ensures Valid()
      ensures r.None? <==> old(Left()) == []
      ensures r.None? ==> Left() == []
      ensures r.Some? ==> old(Left()) == [r.value] + Left()
    {
      hide Linked, Rest, Within, Traverse.Left, Traverse.Valid;
      while true
        invariant Valid() && Left() == old(Left())
        decreases |traverse.Left()|
      {
        ghost var before := traverse.Left();
        var edge := traverse.Next();
        if edge.None? {
          return None;
        }
        assert before[0] == edge.value && before[1..] == traverse.Left();
        if edge.value.Start? && edge.value.node != root {
          return Some(edge.value.node);
        }
      }
    }
  }

  class Children<T> {
    const tree: IndexTree<T>
    var node: Option<NodeId>
    ghost const parent: NodeId
    ghost var at: nat

    ghost predicate Valid()
      reads this, tree
    {
      && tree.Valid() && parent < |tree.nodes| && at <= |tree.kids[parent]|
      && node == if at < |tree.kids[parent]| then Some(tree.kids[parent][at]) else None
    }

    constructor (tree: IndexTree<T>, current: NodeId)
      requires tree.Valid() && current < |tree.nodes|
      ensures Valid() && this.tree == tree && parent == current && at == 0
    {
      this.tree, node, parent, at := tree, tree.nodes[current].firstChild, current, 0;
      new;
      assert EndsOk(tree.nodes, tree.kids, current);
    }

    /** Yields the children in insertion order. */
    method Next() returns (r: Option<NodeId>)
      requires Valid()
      modifies this
      ensures Valid()
      ensures r == if old(at) < |tree.kids[parent]| then Some(tree.kids[parent][old(at)]) else None
      ensures at == if r.Some? then old(at) + 1 else old(at)
    {
      r := node;
      if r.Some? {
        assert LinksOk(tree.nodes, tree.kids, parent, at);
        node := tree.nodes[r.value].nextSibling;
        at := at + 1;
      }
    }
  }

  // ----- the descendants

  /** Pre-order lists exactly the proper descendants. */
  lemma {:induction false} BelowMembers(kids: Kids, n: NodeId, x: NodeId)
    requires WellNumbered(kids) && n < |kids|
    ensures x in Below(kids, n) <==> Descends(kids, n, x)
    decreases |kids| - n, |kids[n]| + 1
  {
    ForestMembers(kids, n, 0, x);
    if Descends(kids, n, x) {
      DescendsThroughChild(kids, n, x);
    }
  }

  /** x is the i-th child of p or a later one, or descends from one. */
  ghost predicate InForest(kids: Kids, p: NodeId, i: nat, x: NodeId)
    requires WellNumbered(kids) && p < |kids|
  {
    exists j: nat :: i <= j < |kids[p]| && UnderChild(kids, p, j, x)
  }

  ghost predicate UnderChild(kids: Kids, p: NodeId, j: nat, x: NodeId)
    requires WellNumbered(kids) && p < |kids| && j < |kids[p]|
  {
    x == kids[p][j] || Descends(kids, kids[p][j], x)
  }

  lemma {:induction false} ForestMembers(kids: Kids, p: NodeId, i: nat, x: NodeId)
    requires WellNumbered(kids) && p < |kids| && i <= |kids[p]|
    ensures x in Forest(kids, p, i) <==> InForest(kids, p, i, x)
    ensures InForest(kids, p, 0, x) ==> Descends(kids, p, x)
    decreases |kids| - p, |kids[p]| - i
  {
    if i < |kids[p]| {
      BelowMembers(kids, kids[p][i], x);
      ForestMembers(kids, p, i + 1, x);
      assert UnderChild(kids, p, i, x) <==> x == kids[p][i] || x in Below(kids, kids[p][i]);
      if InForest(kids, p, i, x) {
        var j: nat :| i <= j < |kids[p]| && UnderChild(kids, p, j, x);
        assert j == i || InForest(kids, p, i + 1, x);
      }
      if InForest(kids, p, i + 1, x) {
        var j: nat :| i + 1 <= j < |kids[p]| && UnderChild(kids, p, j, x);
        assert InForest(kids, p, i, x);
      }
    }
    if InForest(kids, p, 0, x) {
      var j: nat :| j < |kids[p]| && UnderChild(kids, p, j, x);
      assert IsChild(kids, p, kids[p][j]);
      ChildDescends(kids, p, kids[p][j], x);
    }
  }

  lemma {:induction false} ChildDescends(kids: Kids, p: NodeId, c: NodeId, x: NodeId)
    requires WellNumbered(kids) && IsChild(kids, p, c) && (x == c || Descends(kids, c, x))
    ensures Descends(kids, p, x)
    decreases x
  {
    if x == c {
      var i :| 0 <= i < |kids[p]| && kids[p][i] == c;
      assert p < kids[p][i];
    } else {
      var q: NodeId :| IsChild(kids, q, x) && q < x && (q == c || Descends(kids, c, q));
      ChildDescends(kids, p, c, q);
    }
  }

  lemma {:induction false} DescendsThroughChild(kids: Kids, n: NodeId, x: NodeId)
    requires WellNumbered(kids) && n < |kids| && Descends(kids, n, x)
    ensures InForest(kids, n, 0, x)
    decreases x
  {
    var q: NodeId :| IsChild(kids, q, x) && q < x && (q == n || Descends(kids, n, q));
    if q == n {
      var j :| 0 <= j < |kids[n]| && kids[n][j] == x;
      assert UnderChild(kids, n, j, x);
    } else {
      DescendsThroughChild(kids, n, q);
      var j: nat :| j < |kids[n]| && UnderChild(kids, n, j, q);
      assert Descends(kids, kids[n][j], x);
      assert UnderChild(kids, n, j, x);
    }
  }

  /** The parent of a node that lies properly below another one. */
  lemma ParentBelow(kids: Kids, n: NodeId, x: NodeId) returns (q: NodeId)
    requires WellNumbered(kids) && Descends(kids, n, x)
    ensures IsChild(kids, q, x) && q < x && (q == n || Descends(kids, n, q))
  {
    q :| IsChild(kids, q, x) && q < x && (q == n || Descends(kids, n, q));
  }

  lemma ParentIsUnique(kids: Kids, q: NodeId, r: NodeId, x: NodeId)
    requires WellNumbered(kids) && IsChild(kids, q, x) && IsChild(kids, r, x)
    ensures q == r
  {
  }

  /** A child of p does not descend from a child of p. */
  lemma ChildrenApart(kids: Kids, p: NodeId, i: nat, x: NodeId)
    requires WellNumbered(kids) && p < |kids| && i < |kids[p]| && IsChild(kids, p, x)
    ensures !Descends(kids, kids[p][i], x)
  {
    forall q: NodeId ensures !(IsChild(kids, q, x) && (q == kids[p][i] || Descends(kids, kids[p][i], q))) {
      if IsChild(kids, q, x) {
        ParentIsUnique(kids, p, q, x);
        DescendantsAreLater(kids, kids[p][i], q);
        assert p < kids[p][i];
      }
    }
  }

  /** No node lies below two different children of one node. */
  lemma {:induction false} OneBranch(kids: Kids, p: NodeId, i: nat, j: nat, x: NodeId)
    requires WellNumbered(kids) && p < |kids| && i < |kids[p]| && j < |kids[p]|
    requires UnderChild(kids, p, i, x) && UnderChild(kids, p, j, x)
    ensures i == j
    decreases x
  {
    hide Descends;
    if IsChild(kids, p, x) {
      ChildrenApart(kids, p, i, x);
      ChildrenApart(kids, p, j, x);
    } else {
      assert x != kids[p][i] && x != kids[p][j];
      var q := ParentBelow(kids, kids[p][i], x);
      var r := ParentBelow(kids, kids[p][j], x);
      ParentIsUnique(kids, q, r, x);
      OneBranch(kids, p, i, j, q);
    }
  }

  lemma {:induction false} DescendantsAreLater(kids: Kids, n: NodeId, x: NodeId)
    requires WellNumbered(kids)
    ensures Descends(kids, n, x) ==> n < x
    decreases x
  {
    if Descends(kids, n, x) {
      var q: NodeId :| IsChild(kids, q, x) && q < x && (q == n || Descends(kids, n, q));
      DescendantsAreLater(kids, n, q);
    }
  }

  /** y descends from x, or x lies at or below an earlier child of some node and y at or below a later one. */
  ghost predicate Precedes(kids: Kids, x: NodeId, y: NodeId)
    requires WellNumbered(kids)
  {
    Descends(kids, x, y) || exists p: NodeId, i: nat, j: nat :: Branches(kids, p, i, j, x, y)
  }

  ghost predicate Branches(kids: Kids, p: NodeId, i: nat, j: nat, x: NodeId, y: NodeId)
    requires WellNumbered(kids)
  {
    p < |kids| && i < j < |kids[p]| && UnderChild(kids, p, i, x) && UnderChild(kids, p, j, y)
  }

  ghost predicate InOrder(kids: Kids, s: seq<NodeId>)
    requires WellNumbered(kids)
  {
    forall a, b :: 0 <= a < b < |s| ==> Precedes(kids, s[a], s[b])
  }

  /** Pre-order lists a node before its descendants, and what lies below one child before what lies below the next. */
  lemma {:induction false} BelowInOrder(kids: Kids, n: NodeId)
    requires WellNumbered(kids) && n < |kids|
    ensures InOrder(kids, Below(kids, n))
    decreases |kids| - n, |kids[n]| + 1
  {
    ForestInOrder(kids, n, 0);
  }

  lemma {:induction false} ForestInOrder(kids: Kids, p: NodeId, i: nat)
    requires WellNumbered(kids) && p < |kids| && i <= |kids[p]|
    ensures InOrder(kids, Forest(kids, p, i))
    decreases |kids| - p, |kids[p]| - i
  {
    hide Precedes, Descends;
    if i < |kids[p]| {
      var c := kids[p][i];
      var a, b := [c] + Below(kids, c), Forest(kids, p, i + 1);
      BelowInOrder(kids, c);
      ForestInOrder(kids, p, i + 1);
      forall x | x in Below(kids, c) ensures Precedes(kids, c, x) {
        BelowMembers(kids, c, x);
        DescendantFollows(kids, c, x);
      }
      forall x, y | x in a && y in b ensures Precedes(kids, x, y) {
        BelowMembers(kids, c, x);
        ForestMembers(kids, p, i + 1, y);
        var j: nat :| i + 1 <= j < |kids[p]| && UnderChild(kids, p, j, y);
        LaterBranchFollows(kids, p, i, j, x, y);
      }
      ConcatInOrder(kids, [c], Below(kids, c));
      ConcatInOrder(kids, a, b);
      assert Forest(kids, p, i) == a + b;
    }
  }

  lemma DescendantFollows(kids: Kids, x: NodeId, y: NodeId)
    requires WellNumbered(kids) && Descends(kids, x, y)
    ensures Precedes(kids, x, y)
  {
  }

  lemma LaterBranchFollows(kids: Kids, p: NodeId, i: nat, j: nat, x: NodeId, y: NodeId)
    requires WellNumbered(kids) && Branches(kids, p, i, j, x, y)
    ensures Precedes(kids, x, y)
  {
  }

  lemma ConcatInOrder(kids: Kids, a: seq<NodeId>, b: seq<NodeId>)
    requires WellNumbered(kids) && InOrder(kids, a) && InOrder(kids, b)
    requires forall x, y :: x in a && y in b ==> Precedes(kids, x, y)
    ensures InOrder(kids, a + b)
  {
    hide Precedes;
    forall k, l | 0 <= k < l < |a + b| ensures Precedes(kids, (a + b)[k], (a + b)[l]) {
      if k < |a| <= l {
        assert a[k] in a && b[l - |a|] in b;
      } else if k >= |a| {
        assert Precedes(kids, b[k - |a|], b[l - |a|]);
      }
    }
  }

  ghost predicate NoRepeats(s: seq<NodeId>)
  {
    forall i, j :: 0 <= i < j < |s| ==> s[i] != s[j]
  }

  /** Pre-order lists each descendant once. */
  lemma {:induction false} BelowNoRepeats(kids: Kids, n: NodeId)
    requires WellNumbered(kids) && n < |kids|
    ensures NoRepeats(Below(kids, n))
    decreases |kids| - n, |kids[n]| + 1
  {
    ForestNoRepeats(kids, n, 0);
  }

  lemma {:induction false} ForestNoRepeats(kids: Kids, p: NodeId, i: nat)
    requires WellNumbered(kids) && p < |kids| && i <= |kids[p]|
    ensures NoRepeats(Forest(kids, p, i))
    decreases |kids| - p, |kids[p]| - i
  {
    if i < |kids[p]| {
      var c := kids[p][i];
      var a, b := [c] + Below(kids, c), Forest(kids, p, i + 1);
      BelowNoRepeats(kids, c);
      ForestNoRepeats(kids, p, i + 1);
      forall x | x in Below(kids, c) ensures x != c {
        BelowMembers(kids, c, x);
        DescendantsAreLater(kids, c, x);
      }
      forall x | x in a && x in b ensures false {
        BelowMembers(kids, c, x);
        ForestMembers(kids, p, i + 1, x);
        var j: nat :| i + 1 <= j < |kids[p]| && UnderChild(kids, p, j, x);
        OneBranch(kids, p, i, j, x);
      }
      assert Forest(kids, p, i) == a + b;
      ConcatNoRepeats([c], Below(kids, c));
      ConcatNoRepeats(a, b);
    }
  }

  lemma ConcatNoRepeats(a: seq<NodeId>, b: seq<NodeId>)
    requires NoRepeats(a) && NoRepeats(b) && forall x :: x in a ==> x !in b
    ensures NoRepeats(a + b)
  {
    forall i, j | 0 <= i < j < |a + b| ensures (a + b)[i] != (a + b)[j] {
      if i < |a| <= j {
        assert a[i] in a && b[j - |a|] in b;
      }
    }
  }
}
