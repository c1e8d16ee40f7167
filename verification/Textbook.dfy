/** The inclusion system without induced edges, as in the literature: loads and stores are rules with two
    points-to premises. The solver's rules have the same least solution, and splitting an assignment
    between two dereferences does not change it (src/builder/fpag_builder.rs). */
module Textbook {
  import opened Paths
  import opened Constraints

  type Relation = iset<(Path, Path)>

  /** One constraint of the program. CopyDeref is `(*a).f = (*b).g`. */
  datatype Constraint =
    | AddressOf(target: Path, pointer: Path)
    | Copy(src: Path, dst: Path)
    | LoadFrom(base: Path, proj: Projection, dst: Path)
    | StoreTo(src: Path, proj: Projection, base: Path)
    | FieldOf(base: Path, proj: Projection, dst: Path)
    | CopyDeref(read: Path, readProj: Projection, written: Path, writtenProj: Projection)

  /** S satisfies a constraint; pass filters what flows from one location to another. */
  ghost predicate Satisfies(pass: (Path, Path, Path) -> bool, S: Relation, c: Constraint)
  {
    match c
    case AddressOf(o, p) => (p, o) in S
    case Copy(s, d) => forall o :: (s, o) in S && pass(s, d, o) ==> (d, o) in S
    case LoadFrom(b, j, d) => forall x, o ::
      (b, x) in S && (AppendProjection(x, j), o) in S && pass(AppendProjection(x, j), d, o) ==> (d, o) in S
    case StoreTo(s, j, b) => forall x, o ::
      (b, x) in S && (s, o) in S && pass(s, AppendProjection(x, j), o) ==> (AppendProjection(x, j), o) in S
    case FieldOf(b, j, d) => forall x :: (b, x) in S ==> (d, AppendProjection(x, j)) in S
    case CopyDeref(b, g, a, f) => forall x, y, o ::
      ((b, y) in S && (a, x) in S && (AppendProjection(y, g), o) in S
       && pass(AppendProjection(y, g), AppendProjection(x, f), o)) ==> (AppendProjection(x, f), o) in S
  }

  ghost predicate Solution(pass: (Path, Path, Path) -> bool, S: Relation, program: iset<Constraint>)
  {
    forall c :: c in program ==> Satisfies(pass, S, c)
  }

  ghost predicate InEverySolution(pass: (Path, Path, Path) -> bool, program: iset<Constraint>, f: (Path, Path))
  {
    forall S: Relation :: Solution(pass, S, program) ==> f in S
  }

  ghost function LeastSolution(pass: (Path, Path, Path) -> bool, program: iset<Constraint>): Relation
  {
    iset f: (Path, Path) | InEverySolution(pass, program, f)
  }

  lemma LeastSolutionIsSolution(pass: (Path, Path, Path) -> bool, program: iset<Constraint>)
    ensures Solution(pass, LeastSolution(pass, program), program)
  {
  }

  // ----- the solver's rules agree with the textbook rules

  /** The constraint that an edge stands for. */
  function Meaning(e: Edge): Constraint
  {
    match e.kind
    case Addr => AddressOf(e.src, e.dst)
    case Direct => Copy(e.src, e.dst)
    case Offset => Copy(e.src, e.dst)
    case Load(j) => LoadFrom(e.src, j, e.dst)
    case Store(j) => StoreTo(e.src, j, e.dst)
    case Gep(j) => FieldOf(e.src, j, e.dst)
  }

  ghost function ProgramOf(graph: iset<Edge>): iset<Constraint>
  {
    iset e | e in graph :: Meaning(e)
  }

  ghost function ItemsOf(graph: iset<Edge>): iset<Item>
  {
    iset e | e in graph :: Arc(e)
  }

  ghost function PointsToOf(X: iset<Item>): Relation
  {
    iset v, o | Pts(v, o) in X :: (v, o)
  }

  /** The points-to part of a closed set solves the program. */
  lemma ClosedSetSolves(env: Env, graph: iset<Edge>, X: iset<Item>)
    requires Closed(env, X) && ItemsOf(graph) <= X
    ensures Solution(env.pass, PointsToOf(X), ProgramOf(graph))
  {
    var S := PointsToOf(X);
    forall c | c in ProgramOf(graph) ensures Satisfies(env.pass, S, c) {
      var e :| e in graph && c == Meaning(e);
      assert Arc(e) in X;
      EdgeSatisfied(env, X, e);
    }
  }

  lemma EdgeSatisfied(env: Env, X: iset<Item>, e: Edge)
    requires Closed(env, X) && Arc(e) in X
    ensures Satisfies(env.pass, PointsToOf(X), Meaning(e))
  {
    var S := PointsToOf(X);
    match e.kind
    case Addr =>
    case Direct => FlowSatisfied(env, X, e);
    case Offset => FlowSatisfied(env, X, e);
    case Gep(j) =>
      forall x | (e.src, x) in S ensures (e.dst, AppendProjection(x, j)) in S {
        assert Respects(env, X, e.src, x);
      }
    case Load(j) =>
      forall x, o | (e.src, x) in S && (AppendProjection(x, j), o) in S && env.pass(AppendProjection(x, j), e.dst, o)
        ensures (e.dst, o) in S
      {
        assert Respects(env, X, e.src, x);
        FlowSatisfied(env, X, Edge(AppendProjection(x, j), e.dst, Direct));
      }
    case Store(j) =>
      forall x, o | (e.dst, x) in S && (e.src, o) in S && env.pass(e.src, AppendProjection(x, j), o)
        ensures (AppendProjection(x, j), o) in S
      {
        assert Respects(env, X, e.dst, x);
        FlowSatisfied(env, X, Edge(e.src, AppendProjection(x, j), Direct));
      }
  }

  lemma FlowSatisfied(env: Env, X: iset<Item>, e: Edge)
    requires Closed(env, X) && Arc(e) in X && Flows(e.kind)
    ensures Satisfies(env.pass, PointsToOf(X), Copy(e.src, e.dst))
  {
    forall o | (e.src, o) in PointsToOf(X) && env.pass(e.src, e.dst, o) ensures (e.dst, o) in PointsToOf(X) {
      assert Respects(env, X, e.src, o);
    }
  }

  /** The direct edges that a relation justifies. */
  ghost predicate Justified(graph: iset<Edge>, S: Relation, e: Edge)
  {
    e in graph || FromLoad(graph, S, e) || FromStore(graph, S, e)
  }

  ghost predicate FromLoad(graph: iset<Edge>, S: Relation, e: Edge)
  {
    exists m, x :: m in graph && m.kind.Load? && (m.src, x) in S && e == Edge(AppendProjection(x, m.kind.proj), m.dst, Direct)
  }

  ghost predicate FromStore(graph: iset<Edge>, S: Relation, e: Edge)
  {
    exists m, x :: m in graph && m.kind.Store? && (m.dst, x) in S && e == Edge(m.src, AppendProjection(x, m.kind.proj), Direct)
  }

  ghost predicate Explained(graph: iset<Edge>, S: Relation, i: Item)
  {
    match i
    case Pts(v, o) => (v, o) in S
    case Arc(e) => Justified(graph, S, e)
    case _ => false
  }

  lemma JustifiedFlow(env: Env, graph: iset<Edge>, S: Relation, e: Edge, o: Path)
    requires Solution(env.pass, S, ProgramOf(graph)) && Justified(graph, S, e) && Flows(e.kind)
    requires (e.src, o) in S && env.pass(e.src, e.dst, o)
    ensures (e.dst, o) in S
  {
    if e in graph {
      assert Meaning(e) in ProgramOf(graph);
    } else if FromLoad(graph, S, e) {
      var m, x :| m in graph && m.kind.Load? && (m.src, x) in S && e == Edge(AppendProjection(x, m.kind.proj), m.dst, Direct);
      assert Meaning(m) in ProgramOf(graph);
      assert Satisfies(env.pass, S, LoadFrom(m.src, m.kind.proj, m.dst));
    } else {
      var m, x :| m in graph && m.kind.Store? && (m.dst, x) in S && e == Edge(m.src, AppendProjection(x, m.kind.proj), Direct);
      assert Meaning(m) in ProgramOf(graph);
      assert Satisfies(env.pass, S, StoreTo(m.src, m.kind.proj, m.dst));
    }
  }

  /** A solution of the program, with the edges it justifies, is closed. */
  lemma SolutionIsClosed(env: Env, graph: iset<Edge>, S: Relation)
    requires Solution(env.pass, S, ProgramOf(graph))
    ensures Closed(env, iset i: Item | Explained(graph, S, i))
  {
    var X := iset i: Item | Explained(graph, S, i);
    forall e | e in graph ensures Satisfies(env.pass, S, Meaning(e)) {
      assert Meaning(e) in ProgramOf(graph);
    }
    forall v, o | Pts(v, o) in X ensures Respects(env, X, v, o) {
      forall e | Arc(e) in X && e.src == v && Flows(e.kind) && env.pass(v, e.dst, o) ensures Pts(e.dst, o) in X {
        JustifiedFlow(env, graph, S, e, o);
      }
      forall e | Arc(e) in X && e.src == v && e.kind.Gep? ensures Pts(e.dst, AppendProjection(o, e.kind.proj)) in X {
        assert e in graph;
      }
    }
  }

  /** The points-to relation that the solver computes is the least solution of the textbook system. */
  lemma LeastAgreesWithTextbook(env: Env, graph: iset<Edge>)
    ensures PointsToOf(Least(env, ItemsOf(graph))) == LeastSolution(env.pass, ProgramOf(graph))
  {
    var X, S := Least(env, ItemsOf(graph)), LeastSolution(env.pass, ProgramOf(graph));
    LeastIsClosed(env, ItemsOf(graph));
    ClosedSetSolves(env, graph, X);
    LeastSolutionIsSolution(env.pass, ProgramOf(graph));
    SolutionIsClosed(env, graph, S);
    LeastIsBelow(env, ItemsOf(graph), iset i: Item | Explained(graph, S, i));
  }
}
