/** The system that the on-the-fly analysis solves: points-to facts, graph, calls and reachable functions
    together (src/pta/andersen.rs, src/graph/pag.rs:565-598). */
module Joint {
  import opened Options
  import opened Paths
  import opened Constraints
  import opened CallGraph

  /** The calls of a function body (src/graph/func_pag.rs). */
  datatype Body = Body(
    staticCalls: seq<Call>,
    /** Calls of functions whose effects are summarized: they enter the call graph and nothing else. */
    specialCalls: seq<Call>,
    dynSites: seq<(Path, CallSite)>,
    fnptrSites: seq<(Path, CallSite)>,
    fntraitSites: seq<(Path, CallSite)>)

  /** What the compiler says about the program; any total functions. */
  datatype Program = Program(
    entry: FuncId,
    /** The calls of a function; None without MIR. */
    body: FuncId -> Option<Body>,
    /** The internal edges of a function, a promoted constant or a static variable. */
    edgesOf: FuncId -> seq<Edge>,
    /** The promoted constants and static variables that a function involves. */
    related: FuncId -> seq<FuncId>,
    /** The special callees of the promoted constants and static variables that are built with a function. */
    relatedSpecials: FuncId -> set<FuncId>,
    /** Nesting depth of related functions: a promoted constant involves nothing further. */
    depth: FuncId -> nat,
    /** The pointer-typed parts of a path; the empty projection alone for a pointer. */
    pointerParts: Path -> seq<Projection>,
    mirAvailable: FuncId -> bool)

  function KeyOf(c: Call): CallKey
  {
    (BaseSite(c.site.func, c.site.location), c.callee)
  }

  function PartEdges(src: Path, dst: Path, parts: seq<Projection>): seq<Edge>
  {
    if parts == [] then []
    else [Edge(AppendProjection(src, parts[0]), AppendProjection(dst, parts[0]), Direct)] + PartEdges(src, dst, parts[1..])
  }

  /** From each argument to the parameter of the same position, starting at the given one. */
  function ArgEdges(prog: Program, args: seq<Path>, callee: FuncId, first: nat): seq<Edge>
  {
    if args == [] then []
    else PartEdges(args[0], Parameter(callee, first), prog.pointerParts(args[0])) + ArgEdges(prog, args[1..], callee, first + 1)
  }

  /** The direct edges of a call: arguments to parameters, and the return value to the destination. */
  function InterEdges(prog: Program, c: Call): seq<Edge>
  {
    if !prog.mirAvailable(c.callee) then []
    else
      var arguments := ArgEdges(prog, c.site.args, c.callee, 1);
      arguments + PartEdges(ReturnValue(c.callee), c.site.destination, prog.pointerParts(c.site.destination))
  }

  lemma {:induction false} PartEdgesAre(src: Path, dst: Path, parts: seq<Projection>)
    ensures var r := PartEdges(src, dst, parts);
      |r| == |parts| && forall k :: 0 <= k < |parts| ==> r[k] == Edge(AppendProjection(src, parts[k]), AppendProjection(dst, parts[k]), Direct)
  {
    if parts != [] {
      PartEdgesAre(src, dst, parts[1..]);
    }
  }

  /** The edge takes a part of the path src to the same part of the path dst. */
  ghost predicate TakesPart(src: Path, dst: Path, parts: seq<Projection>, e: Edge)
  {
    exists k :: 0 <= k < |parts| && e == Edge(AppendProjection(src, parts[k]), AppendProjection(dst, parts[k]), Direct)
  }

  lemma PartEdgesExactly(src: Path, dst: Path, parts: seq<Projection>, e: Edge)
    ensures e in PartEdges(src, dst, parts) <==> TakesPart(src, dst, parts, e)
  {
    PartEdgesAre(src, dst, parts);
    if TakesPart(src, dst, parts, e) {
      var k :| 0 <= k < |parts| && e == Edge(AppendProjection(src, parts[k]), AppendProjection(dst, parts[k]), Direct);
      assert PartEdges(src, dst, parts)[k] == e;
    }
  }

  ghost predicate FromArgument(prog: Program, args: seq<Path>, callee: FuncId, first: nat, i: nat, e: Edge)
  {
    i < |args| && TakesPart(args[i], Parameter(callee, first + i), prog.pointerParts(args[i]), e)
  }

  lemma {:induction false} ArgEdgesExactly(prog: Program, args: seq<Path>, callee: FuncId, first: nat, e: Edge)
    ensures e in ArgEdges(prog, args, callee, first) <==> exists i: nat :: FromArgument(prog, args, callee, first, i, e)
    decreases |args|
  {
    hide TakesPart, PartEdges;
    if args != [] {
      var rest := args[1..];
      ArgEdgesExactly(prog, rest, callee, first + 1, e);
      PartEdgesExactly(args[0], Parameter(callee, first), prog.pointerParts(args[0]), e);
      if e in ArgEdges(prog, rest, callee, first + 1) {
        var i: nat :| FromArgument(prog, rest, callee, first + 1, i, e);
        assert FromArgument(prog, args, callee, first, i + 1, e);
      }
      if i: nat :| FromArgument(prog, args, callee, first, i, e) {
        if i == 0 {
          assert e in PartEdges(args[0], Parameter(callee, first), prog.pointerParts(args[0]));
        } else {
          assert FromArgument(prog, rest, callee, first + 1, i - 1, e);
        }
      } else {
        assert !FromArgument(prog, args, callee, first, 0, e);
      }
    }
  }

  /** The edges of a call with MIR: from each pointer-typed part of the i-th argument to the same part of
      parameter i + 1, and from each pointer-typed part of the return value to that of the destination. */
  lemma InterEdgesExactly(prog: Program, c: Call, e: Edge)
    ensures e in InterEdges(prog, c) <==>
      prog.mirAvailable(c.callee) &&
      ((exists i, k ::
          0 <= i < |c.site.args| && 0 <= k < |prog.pointerParts(c.site.args[i])| &&
          e == Edge(AppendProjection(c.site.args[i], prog.pointerParts(c.site.args[i])[k]),
                    AppendProjection(Parameter(c.callee, i + 1), prog.pointerParts(c.site.args[i])[k]), Direct))
       || (exists k ::
             0 <= k < |prog.pointerParts(c.site.destination)| &&
             e == Edge(AppendProjection(ReturnValue(c.callee), prog.pointerParts(c.site.destination)[k]),
                       AppendProjection(c.site.destination, prog.pointerParts(c.site.destination)[k]), Direct)))
  {
    if prog.mirAvailable(c.callee) {
      ArgumentEdges(prog, c, e);
      PartEdgesExactly(ReturnValue(c.callee), c.site.destination, prog.pointerParts(c.site.destination), e);
    }
  }

  lemma ArgumentEdges(prog: Program, c: Call, e: Edge)
    ensures e in ArgEdges(prog, c.site.args, c.callee, 1) <==>
      exists i, k ::
        0 <= i < |c.site.args| && 0 <= k < |prog.pointerParts(c.site.args[i])| &&
        e == Edge(AppendProjection(c.site.args[i], prog.pointerParts(c.site.args[i])[k]),
                  AppendProjection(Parameter(c.callee, i + 1), prog.pointerParts(c.site.args[i])[k]), Direct)
  {
    hide ArgEdges;
    ArgEdgesExactly(prog, c.site.args, c.callee, 1, e);
    forall i, k | 0 <= i < |c.site.args| && 0 <= k < |prog.pointerParts(c.site.args[i])|
      ensures e == Edge(AppendProjection(c.site.args[i], prog.pointerParts(c.site.args[i])[k]),
                        AppendProjection(Parameter(c.callee, i + 1), prog.pointerParts(c.site.args[i])[k]), Direct)
        ==> FromArgument(prog, c.site.args, c.callee, 1, i, e)
    {
    }
  }

  /** g is f, or is involved by something that f involves. */
  ghost predicate Involves(prog: Program, f: FuncId, g: FuncId)
    decreases prog.depth(f)
  {
    f == g || exists h :: h in prog.related(f) && prog.depth(h) < prog.depth(f) && Involves(prog, h, g)
  }

  ghost predicate EdgesIn(prog: Program, X: iset<Item>, f: FuncId)
  {
    forall g, e :: Involves(prog, f, g) && e in prog.edgesOf(g) ==> Arc(e) in X
  }

  ghost predicate BodyIn(X: iset<Item>, b: Body)
  {
    && (forall c :: c in b.staticCalls ==> Called(c) in X)
    && (forall c :: c in b.specialCalls ==> Special(c) in X)
    && (forall p :: p in b.dynSites ==> Site(DynSite, p.0, p.1) in X)
    && (forall p :: p in b.fnptrSites ==> Site(FnPtrSite, p.0, p.1) in X)
    && (forall p :: p in b.fntraitSites ==> Site(FnTraitSite, p.0, p.1) in X)
  }

  /** The functions that become special when f is built. */
  function Marks(prog: Program, f: FuncId): set<FuncId>
  {
    prog.relatedSpecials(f)
    + if prog.body(f).Some? then set c | c in prog.body(f).value.specialCalls :: c.callee else {}
  }

  ghost predicate InCallGraph(X: iset<Item>, c: Call)
  {
    Called(c) in X || Special(c) in X
  }

  /** The entry, and both ends of every call. */
  ghost predicate Reached(prog: Program, X: iset<Item>, f: FuncId)
  {
    f == prog.entry || exists c :: InCallGraph(X, c) && (f == c.callee || f == c.site.func)
  }

  /** Reached in some way other than as the callee of a special call. */
  ghost predicate ReachedPlainly(prog: Program, X: iset<Item>, f: FuncId)
  {
    f == prog.entry || exists c :: InCallGraph(X, c) && (f == c.site.func || (f == c.callee && Called(c) in X))
  }

  ghost predicate FunctionIn(prog: Program, X: iset<Item>, f: FuncId)
  {
    prog.body(f).Some? ==> EdgesIn(prog, X, f) && BodyIn(X, prog.body(f).value)
  }

  ghost predicate CallIn(prog: Program, X: iset<Item>, c: Call)
  {
    forall e :: e in InterEdges(prog, c) ==> Arc(e) in X
  }

  /** The functions whose bodies count, and the calls whose edges count. */
  datatype Scope = Scope(funcs: iset<FuncId>, calls: iset<Call>)

  ghost function AllBut(funcs: iset<FuncId>, calls: iset<Call>): Scope
  {
    Scope(iset f: FuncId | f !in funcs, iset c: Call | c !in calls)
  }

  ghost predicate Within(a: Scope, b: Scope)
  {
    a.funcs <= b.funcs && a.calls <= b.calls
  }

  /** X is closed under the points-to rules, holds every reached function of the scope, and the edges of every
      call of the scope. */
  ghost predicate JointClosed(env: Env, prog: Program, scope: Scope, X: iset<Item>)
  {
    && Closed(env, X)
    && (forall f {:trigger FunctionIn(prog, X, f)} :: f in scope.funcs && Reached(prog, X, f) ==> FunctionIn(prog, X, f))
    && (forall c {:trigger CallIn(prog, X, c)} :: c in scope.calls && Called(c) in X ==> CallIn(prog, X, c))
  }

  ghost predicate InEveryJointClosed(env: Env, prog: Program, scope: Scope, base: iset<Item>, i: Item)
  {
    forall X: iset<Item> :: base <= X && JointClosed(env, prog, scope, X) ==> i in X
  }

  /** The least joint fixpoint above some items. */
  ghost function JointLeast(env: Env, prog: Program, scope: Scope, base: iset<Item>): iset<Item>
  {
    iset i: Item | InEveryJointClosed(env, prog, scope, base, i)
  }

  lemma JointLeastIsBelow(env: Env, prog: Program, scope: Scope, base: iset<Item>, X: iset<Item>)
    requires base <= X && JointClosed(env, prog, scope, X)
    ensures JointLeast(env, prog, scope, base) <= X
  {
  }

  lemma ReachedMonotone(prog: Program, X: iset<Item>, Y: iset<Item>, f: FuncId)
    requires X <= Y
    ensures Reached(prog, X, f) ==> Reached(prog, Y, f)
    ensures ReachedPlainly(prog, X, f) ==> ReachedPlainly(prog, Y, f)
  {
    if f != prog.entry && Reached(prog, X, f) {
      var c :| InCallGraph(X, c) && (f == c.callee || f == c.site.func);
      assert InCallGraph(Y, c);
    }
    if f != prog.entry && ReachedPlainly(prog, X, f) {
      var c :| InCallGraph(X, c) && (f == c.site.func || (f == c.callee && Called(c) in X));
      assert InCallGraph(Y, c);
    }
  }

  /** The intersection of all jointly closed sets is jointly closed. */
  lemma JointLeastIsClosed(env: Env, prog: Program, scope: Scope, base: iset<Item>)
    ensures base <= JointLeast(env, prog, scope, base)
    ensures JointClosed(env, prog, scope, JointLeast(env, prog, scope, base))
  {
    hide Respects, FunctionIn, CallIn, Reached;
    var L := JointLeast(env, prog, scope, base);
    forall v, o | Pts(v, o) in L ensures Respects(env, L, v, o) {
      JointLeastRespects(env, prog, scope, base, v, o);
    }
    forall f | f in scope.funcs && Reached(prog, L, f) ensures FunctionIn(prog, L, f) {
      JointLeastHasFunction(env, prog, scope, base, f);
    }
    forall c | c in scope.calls && Called(c) in L ensures CallIn(prog, L, c) {
      JointLeastHasCall(env, prog, scope, base, c);
    }
  }

  lemma JointLeastHasFunction(env: Env, prog: Program, scope: Scope, base: iset<Item>, f: FuncId)
    requires f in scope.funcs && Reached(prog, JointLeast(env, prog, scope, base), f)
    ensures FunctionIn(prog, JointLeast(env, prog, scope, base), f)
  {
    hide Closed, Reached, Involves, CallIn;
    var L := JointLeast(env, prog, scope, base);
    forall X: iset<Item> | base <= X && JointClosed(env, prog, scope, X) ensures FunctionIn(prog, X, f) {
      JointLeastIsBelow(env, prog, scope, base, X);
      ReachedMonotone(prog, L, X, f);
    }
  }

  lemma JointLeastHasCall(env: Env, prog: Program, scope: Scope, base: iset<Item>, c: Call)
    requires c in scope.calls && Called(c) in JointLeast(env, prog, scope, base)
    ensures CallIn(prog, JointLeast(env, prog, scope, base), c)
  {
    hide Closed, Reached, FunctionIn;
    forall X: iset<Item> | base <= X && JointClosed(env, prog, scope, X) ensures CallIn(prog, X, c) {
    }
  }

  lemma JointLeastRespects(env: Env, prog: Program, scope: Scope, base: iset<Item>, v: Path, o: Path)
    requires Pts(v, o) in JointLeast(env, prog, scope, base)
    ensures Respects(env, JointLeast(env, prog, scope, base), v, o)
  {
    hide Reached, FunctionIn, CallIn;
    var L := JointLeast(env, prog, scope, base);
    forall X: iset<Item> | base <= X && JointClosed(env, prog, scope, X) ensures L <= X && Respects(env, X, v, o) {
    }
    forall c | Site(FnTraitSite, v, c) in L ensures RespectsTrait(L, o, env.traitTarget(c, o)) {
      forall X: iset<Item> | base <= X && JointClosed(env, prog, scope, X) ensures RespectsTrait(X, o, env.traitTarget(c, o)) {
        assert Respects(env, X, v, o);
        assert Site(FnTraitSite, v, c) in X;
      }
    }
  }

  /** A larger scope and more items to start from give more. */
  lemma JointLeastMonotone(env: Env, prog: Program, a: Scope, b: Scope, base: iset<Item>, more: iset<Item>)
    requires Within(a, b) && base <= more
    ensures JointLeast(env, prog, a, base) <= JointLeast(env, prog, b, more)
  {
    hide Closed, Reached, FunctionIn, CallIn, JointLeast;
    JointLeastIsClosed(env, prog, b, more);
    JointLeastIsBelow(env, prog, a, base, JointLeast(env, prog, b, more));
  }

  /** Leaving something out of the scope changes nothing exactly when it is found anyway. */
  lemma ScopeMattersExactly(env: Env, prog: Program, a: Scope, b: Scope, base: iset<Item>)
    requires Within(a, b)
    ensures var X := JointLeast(env, prog, a, base);
      X == JointLeast(env, prog, b, base) <==>
        && (forall f :: f in b.funcs - a.funcs && Reached(prog, X, f) ==> FunctionIn(prog, X, f))
        && (forall c :: c in b.calls - a.calls && Called(c) in X ==> CallIn(prog, X, c))
  {
    hide Closed, Reached, FunctionIn, CallIn, JointLeast;
    var X := JointLeast(env, prog, a, base);
    JointLeastIsClosed(env, prog, a, base);
    JointLeastIsClosed(env, prog, b, base);
    JointLeastMonotone(env, prog, a, b, base, base);
    if JointClosed(env, prog, b, X) {
      JointLeastIsBelow(env, prog, b, base, X);
    }
  }
}
