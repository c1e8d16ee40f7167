/** Everything in a least joint fixpoint has a reason, and everything that has a reason is in it: which facts, edges,
    call sites and calls the pointer analysis is about, one by one (src/pta/andersen.rs, src/pta/propagator/propagator.rs). */
module Reasons {
  import opened Options
  import opened Paths
  import opened Constraints
  import opened Joint

  /** The entry function, or either end of a call, special or not. */
  ghost predicate IsReached(prog: Program, X: iset<Item>, f: FuncId)
  {
    f == prog.entry || exists c :: (Called(c) in X || Special(c) in X) && (f == c.callee || f == c.site.func)
  }

  /** The body belongs to a reached function of the scope. */
  ghost predicate Counts(prog: Program, scope: Scope, X: iset<Item>, f: FuncId)
  {
    f in scope.funcs && IsReached(prog, X, f) && prog.body(f).Some?
  }

  /** A list of functions that leads from f to g, each involved by the one before it. */
  ghost predicate LeadsTo(prog: Program, way: seq<FuncId>, f: FuncId, g: FuncId)
  {
    && way != [] && way[0] == f && way[|way| - 1] == g
    && forall t :: 0 <= t < |way| - 1 ==> way[t + 1] in prog.related(way[t]) && prog.depth(way[t + 1]) < prog.depth(way[t])
  }

  lemma {:induction false} InvolvesExactly(prog: Program, f: FuncId, g: FuncId)
    ensures Involves(prog, f, g) <==> exists way :: LeadsTo(prog, way, f, g)
    decreases prog.depth(f)
  {
    if f == g {
      assert LeadsTo(prog, [f], f, g);
    } else if Involves(prog, f, g) {
      var h :| h in prog.related(f) && prog.depth(h) < prog.depth(f) && Involves(prog, h, g);
      InvolvesExactly(prog, h, g);
      var way :| LeadsTo(prog, way, h, g);
      assert LeadsTo(prog, [f] + way, f, g);
    }
    if way :| LeadsTo(prog, way, f, g) {
      WayInvolves(prog, way, f, g);
    }
  }

  lemma {:induction false} WayInvolves(prog: Program, way: seq<FuncId>, f: FuncId, g: FuncId)
    requires LeadsTo(prog, way, f, g)
    ensures Involves(prog, f, g)
    decreases |way|
  {
    if |way| > 1 {
      assert way[1] in prog.related(way[0]);
      WayInvolves(prog, way[1..], way[1], g);
    }
  }

  // ----- the reasons

  ghost predicate AlongFlow(env: Env, X: iset<Item>, v: Path, o: Path, e: Edge)
  {
    Arc(e) in X && (e.kind.Direct? || e.kind.Offset?) && e.dst == v && Pts(e.src, o) in X && env.pass(e.src, v, o)
  }

  ghost predicate PartOfPointee(X: iset<Item>, v: Path, o: Path, e: Edge, x: Path)
  {
    Arc(e) in X && e.kind.Gep? && e.dst == v && Pts(e.src, x) in X && o == AppendProjection(x, e.kind.proj)
  }

  ghost predicate FactReason(env: Env, X: iset<Item>, v: Path, o: Path)
  {
    || Arc(Edge(o, v, Addr)) in X || (exists e :: AlongFlow(env, X, v, o, e))
    || exists e, x :: PartOfPointee(X, v, o, e, x)
  }

  /** The edge is an internal one of a function that counts, or of a promoted constant or static that it involves. */
  ghost predicate InternalEdge(prog: Program, scope: Scope, X: iset<Item>, e: Edge)
  {
    exists f, g :: Counts(prog, scope, X, f) && Involves(prog, f, g) && e in prog.edgesOf(g)
  }

  ghost predicate CallEdge(prog: Program, scope: Scope, X: iset<Item>, e: Edge)
  {
    exists c :: c in scope.calls && Called(c) in X && e in InterEdges(prog, c)
  }

  /** A load reads from the source of the edge, or a store writes to its target. */
  ghost predicate MemoryEdge(X: iset<Item>, e: Edge)
  {
    e.kind.Direct? &&
    ((exists l, o :: Arc(l) in X && l.kind.Load? && Pts(l.src, o) in X && e.src == AppendProjection(o, l.kind.proj) && e.dst == l.dst)
     || exists t, o :: Arc(t) in X && t.kind.Store? && Pts(t.dst, o) in X && e.src == t.src && e.dst == AppendProjection(o, t.kind.proj))
  }

  ghost predicate ListedSite(prog: Program, scope: Scope, X: iset<Item>, k: SiteKind, v: Path, c: CallSite)
  {
    exists f :: Counts(prog, scope, X, f) &&
      match k
      case DynSite => (v, c) in prog.body(f).value.dynSites
      case FnPtrSite => (v, c) in prog.body(f).value.fnptrSites
      case FnTraitSite => (v, c) in prog.body(f).value.fntraitSites
  }

  /** A function pointer that a `dyn Fn*` call finds is a pointer with a call site of its own. */
  ghost predicate PointerSite(env: Env, X: iset<Item>, v: Path, c: CallSite)
  {
    exists w, d :: Site(FnTraitSite, w, d) in X && Pts(w, v) in X && env.traitTarget(d, v) == FnPtrObject(c)
  }

  ghost predicate StaticCall(prog: Program, scope: Scope, X: iset<Item>, c: Call)
  {
    exists f :: Counts(prog, scope, X, f) && c in prog.body(f).value.staticCalls
  }

  ghost predicate ResolvedCall(env: Env, X: iset<Item>, c: Call)
  {
    || (exists v, o, d :: Site(DynSite, v, d) in X && Pts(v, o) in X && env.dynTarget(d, o) == Some(c))
    || (exists v, o, d :: Site(FnPtrSite, v, d) in X && Pts(v, o) in X && env.fnTarget(d, o) == Some(c))
    || (exists v, o, d :: Site(FnTraitSite, v, d) in X && Pts(v, o) in X
          && (env.traitTarget(d, o) == Resolved(c) || env.traitTarget(d, o) == ResolvedInstance(c)))
  }

  ghost predicate SpecialCall(prog: Program, scope: Scope, X: iset<Item>, c: Call)
  {
    exists f :: Counts(prog, scope, X, f) && c in prog.body(f).value.specialCalls
  }

  ghost predicate Reason(env: Env, prog: Program, scope: Scope, X: iset<Item>, i: Item)
  {
    match i
    case Pts(v, o) => FactReason(env, X, v, o)
    case Arc(e) => InternalEdge(prog, scope, X, e) || CallEdge(prog, scope, X, e) || MemoryEdge(X, e)
    case Site(k, v, c) => ListedSite(prog, scope, X, k, v, c) || (k == FnPtrSite && PointerSite(env, X, v, c))
    case Called(c) => StaticCall(prog, scope, X, c) || ResolvedCall(env, X, c)
    case Special(c) => SpecialCall(prog, scope, X, c)
  }

  /** The least joint fixpoint above some items holds exactly these and whatever it holds a reason for. */
  lemma FoundExactly(env: Env, prog: Program, scope: Scope, base: iset<Item>, i: Item)
    ensures var J := JointLeast(env, prog, scope, base);
      i in J <==> i in base || Reason(env, prog, scope, J, i)
  {
    hide JointLeast, Reason, JointClosed;
    var J := JointLeast(env, prog, scope, base);
    JointLeastIsClosed(env, prog, scope, base);
    if Reason(env, prog, scope, J, i) {
      ReasonedIsFound(env, prog, scope, J, i);
    }
    var Y := iset j: Item | j in J && (j in base || Reason(env, prog, scope, J, j));
    ReasonedIsClosed(env, prog, scope, base, J, Y);
    JointLeastIsBelow(env, prog, scope, base, Y);
  }

  lemma IsReachedExactly(prog: Program, X: iset<Item>, f: FuncId)
    ensures IsReached(prog, X, f) <==> Reached(prog, X, f)
  {
    if c :| (Called(c) in X || Special(c) in X) && (f == c.callee || f == c.site.func) {
      assert InCallGraph(X, c);
    }
    if c :| InCallGraph(X, c) && (f == c.callee || f == c.site.func) {
      assert Called(c) in X || Special(c) in X;
    }
  }

  lemma CountingIsThere(env: Env, prog: Program, scope: Scope, X: iset<Item>, f: FuncId)
    requires JointClosed(env, prog, scope, X) && Counts(prog, scope, X, f)
    ensures EdgesIn(prog, X, f) && BodyIn(X, prog.body(f).value)
  {
    hide Closed, Reached, IsReached, EdgesIn, BodyIn, CallIn;
    IsReachedExactly(prog, X, f);
    assert FunctionIn(prog, X, f);
  }

  lemma ReasonedIsFound(env: Env, prog: Program, scope: Scope, X: iset<Item>, i: Item)
    requires JointClosed(env, prog, scope, X) && Reason(env, prog, scope, X, i)
    ensures i in X
  {
    hide JointClosed, FactReason, InternalEdge, CallEdge, MemoryEdge, ListedSite, PointerSite, StaticCall, ResolvedCall, SpecialCall;
    match i
    case Pts(v, o) => FactIsFound(env, prog, scope, X, v, o);
    case Arc(e) => EdgeIsFound(env, prog, scope, X, e);
    case Site(k, v, c) => SiteIsFound(env, prog, scope, X, k, v, c);
    case Called(c) => CallIsFound(env, prog, scope, X, c);
    case Special(c) =>
      SpecialIsFound(env, prog, scope, X, c);
  }

  lemma FactIsFound(env: Env, prog: Program, scope: Scope, X: iset<Item>, v: Path, o: Path)
    requires JointClosed(env, prog, scope, X) && FactReason(env, X, v, o)
    ensures Pts(v, o) in X
  {
    hide FunctionIn, Reached, CallIn, RespectsLoad, RespectsStore, RespectsDyn, RespectsFnptr, RespectsFntrait;
    if e :| AlongFlow(env, X, v, o, e) {
      assert Respects(env, X, e.src, o);
    } else if e, x :| PartOfPointee(X, v, o, e, x) {
      assert Respects(env, X, e.src, x);
    }
  }

  lemma EdgeIsFound(env: Env, prog: Program, scope: Scope, X: iset<Item>, e: Edge)
    requires JointClosed(env, prog, scope, X) && (InternalEdge(prog, scope, X, e) || CallEdge(prog, scope, X, e) || MemoryEdge(X, e))
    ensures Arc(e) in X
  {
    hide FunctionIn, Reached, InterEdges, Involves, Counts;
    if InternalEdge(prog, scope, X, e) {
      var f, g :| Counts(prog, scope, X, f) && Involves(prog, f, g) && e in prog.edgesOf(g);
      CountingIsThere(env, prog, scope, X, f);
    } else if CallEdge(prog, scope, X, e) {
      var c :| c in scope.calls && Called(c) in X && e in InterEdges(prog, c);
      assert CallIn(prog, X, c);
    } else {
      MemoryIsFound(env, X, e);
    }
  }

  lemma MemoryIsFound(env: Env, X: iset<Item>, e: Edge)
    requires Closed(env, X) && MemoryEdge(X, e)
    ensures Arc(e) in X
  {
    if l, o :| Arc(l) in X && l.kind.Load? && Pts(l.src, o) in X && e.src == AppendProjection(o, l.kind.proj) && e.dst == l.dst {
      assert Respects(env, X, l.src, o);
    } else {
      var t, o :| Arc(t) in X && t.kind.Store? && Pts(t.dst, o) in X && e.src == t.src && e.dst == AppendProjection(o, t.kind.proj);
      assert Respects(env, X, t.dst, o);
    }
  }

  lemma SiteIsFound(env: Env, prog: Program, scope: Scope, X: iset<Item>, k: SiteKind, v: Path, c: CallSite)
    requires JointClosed(env, prog, scope, X)
    requires ListedSite(prog, scope, X, k, v, c) || (k == FnPtrSite && PointerSite(env, X, v, c))
    ensures Site(k, v, c) in X
  {
    hide FunctionIn, Reached, CallIn, EdgesIn, IsReached;
    if ListedSite(prog, scope, X, k, v, c) {
      var f :| Counts(prog, scope, X, f) &&
        match k
        case DynSite => (v, c) in prog.body(f).value.dynSites
        case FnPtrSite => (v, c) in prog.body(f).value.fnptrSites
        case FnTraitSite => (v, c) in prog.body(f).value.fntraitSites;
      CountingIsThere(env, prog, scope, X, f);
    } else {
      var w, d :| Site(FnTraitSite, w, d) in X && Pts(w, v) in X && env.traitTarget(d, v) == FnPtrObject(c);
      assert Respects(env, X, w, v);
      assert RespectsTrait(X, v, env.traitTarget(d, v));
    }
  }

  lemma CallIsFound(env: Env, prog: Program, scope: Scope, X: iset<Item>, c: Call)
    requires JointClosed(env, prog, scope, X) && (StaticCall(prog, scope, X, c) || ResolvedCall(env, X, c))
    ensures Called(c) in X
  {
    hide FunctionIn, Reached, CallIn, EdgesIn, IsReached;
    if StaticCall(prog, scope, X, c) {
      var f :| Counts(prog, scope, X, f) && c in prog.body(f).value.staticCalls;
      CountingIsThere(env, prog, scope, X, f);
    } else {
      ResolvedIsFound(env, X, c);
    }
  }

  lemma ResolvedIsFound(env: Env, X: iset<Item>, c: Call)
    requires Closed(env, X) && ResolvedCall(env, X, c)
    ensures Called(c) in X
  {
    if v, o, d :| Site(DynSite, v, d) in X && Pts(v, o) in X && env.dynTarget(d, o) == Some(c) {
      assert Respects(env, X, v, o);
    } else if v, o, d :| Site(FnPtrSite, v, d) in X && Pts(v, o) in X && env.fnTarget(d, o) == Some(c) {
      assert Respects(env, X, v, o);
    } else {
      var v, o, d :| Site(FnTraitSite, v, d) in X && Pts(v, o) in X
        && (env.traitTarget(d, o) == Resolved(c) || env.traitTarget(d, o) == ResolvedInstance(c));
      assert Respects(env, X, v, o);
      assert RespectsTrait(X, o, env.traitTarget(d, o));
    }
  }

  lemma SpecialIsFound(env: Env, prog: Program, scope: Scope, X: iset<Item>, c: Call)
    requires JointClosed(env, prog, scope, X) && SpecialCall(prog, scope, X, c)
    ensures Special(c) in X
  {
    hide FunctionIn, Reached, CallIn, EdgesIn, IsReached, Closed;
    var f :| Counts(prog, scope, X, f) && c in prog.body(f).value.specialCalls;
    CountingIsThere(env, prog, scope, X, f);
  }

  // ----- what follows from things with reasons has one

  ghost predicate Reasoned(env: Env, prog: Program, scope: Scope, base: iset<Item>, J: iset<Item>, Y: iset<Item>)
  {
    forall j :: j in Y <==> j in J && (j in base || Reason(env, prog, scope, J, j))
  }

  lemma ReasonedIsClosed(env: Env, prog: Program, scope: Scope, base: iset<Item>, J: iset<Item>, Y: iset<Item>)
    requires JointClosed(env, prog, scope, J) && base <= J && Reasoned(env, prog, scope, base, J, Y)
    ensures base <= Y && JointClosed(env, prog, scope, Y)
  {
    hide Reason, FunctionIn, CallIn, Reached, Respects;
    forall e | Arc(e) in Y && e.kind.Addr? ensures Pts(e.dst, e.src) in Y {
      AddressReason(env, prog, scope, J, e);
    }
    forall v, o | Pts(v, o) in Y ensures Respects(env, Y, v, o) {
      EdgesAreReasons(env, prog, scope, base, J, Y, v, o);
      CallsAreReasons(env, prog, scope, base, J, Y, v, o);
      RespectsTogether(env, Y, v, o);
    }
    forall f | f in scope.funcs && Reached(prog, Y, f) ensures FunctionIn(prog, Y, f) {
      ReachedMonotone(prog, Y, J, f);
      BodyIsReason(env, prog, scope, base, J, Y, f);
    }
    forall c | c in scope.calls && Called(c) in Y ensures CallIn(prog, Y, c) {
      CallIsReason(env, prog, scope, base, J, Y, c);
    }
  }

  lemma AddressReason(env: Env, prog: Program, scope: Scope, J: iset<Item>, e: Edge)
    requires Arc(e) in J && e.kind.Addr?
    ensures Reason(env, prog, scope, J, Pts(e.dst, e.src))
  {
    assert e == Edge(e.src, e.dst, Addr);
  }

  lemma RespectsTogether(env: Env, Y: iset<Item>, v: Path, o: Path)
    requires RespectsEdges(env, Y, v, o) && RespectsDyn(env, Y, v, o) && RespectsFnptr(env, Y, v, o) && RespectsFntrait(env, Y, v, o)
    ensures Respects(env, Y, v, o)
  {
  }

  lemma EdgesAreReasons(env: Env, prog: Program, scope: Scope, base: iset<Item>, J: iset<Item>, Y: iset<Item>, v: Path, o: Path)
    requires Closed(env, J) && Reasoned(env, prog, scope, base, J, Y) && Pts(v, o) in Y
    ensures RespectsEdges(env, Y, v, o)
  {
    hide InternalEdge, CallEdge, ListedSite, PointerSite, StaticCall, ResolvedCall, SpecialCall;
    assert Respects(env, J, v, o);
    forall e | Arc(e) in Y && e.src == v && Flows(e.kind) && env.pass(v, e.dst, o) ensures Pts(e.dst, o) in Y {
      assert AlongFlow(env, J, e.dst, o, e);
    }
    forall e | Arc(e) in Y && e.src == v && e.kind.Gep? ensures Pts(e.dst, AppendProjection(o, e.kind.proj)) in Y {
      assert PartOfPointee(J, e.dst, AppendProjection(o, e.kind.proj), e, o);
    }
    forall l | Arc(l) in Y && l.src == v && l.kind.Load? ensures Arc(Edge(AppendProjection(o, l.kind.proj), l.dst, Direct)) in Y {
      assert MemoryEdge(J, Edge(AppendProjection(o, l.kind.proj), l.dst, Direct));
    }
    forall t | Arc(t) in Y && t.dst == v && t.kind.Store? ensures Arc(Edge(t.src, AppendProjection(o, t.kind.proj), Direct)) in Y {
      assert MemoryEdge(J, Edge(t.src, AppendProjection(o, t.kind.proj), Direct));
    }
  }

  lemma CallsAreReasons(env: Env, prog: Program, scope: Scope, base: iset<Item>, J: iset<Item>, Y: iset<Item>, v: Path, o: Path)
    requires Closed(env, J) && Reasoned(env, prog, scope, base, J, Y) && Pts(v, o) in Y
    ensures RespectsDyn(env, Y, v, o) && RespectsFnptr(env, Y, v, o) && RespectsFntrait(env, Y, v, o)
  {
    hide InternalEdge, CallEdge, MemoryEdge, ListedSite, StaticCall, SpecialCall, FactReason, RespectsEdges;
    assert Respects(env, J, v, o);
    forall d | Site(FnTraitSite, v, d) in Y ensures RespectsTrait(Y, o, env.traitTarget(d, o)) {
      assert RespectsTrait(J, o, env.traitTarget(d, o));
      match env.traitTarget(d, o)
      case Resolved(c) => assert ResolvedCall(env, J, c);
      case ResolvedInstance(c) => assert ResolvedCall(env, J, c);
      case FnPtrObject(c) => assert PointerSite(env, J, o, c);
      case Unresolved =>
    }
    forall d | Site(DynSite, v, d) in Y && env.dynTarget(d, o).Some? ensures Called(env.dynTarget(d, o).value) in Y {
      assert ResolvedCall(env, J, env.dynTarget(d, o).value);
    }
    forall d | Site(FnPtrSite, v, d) in Y && env.fnTarget(d, o).Some? ensures Called(env.fnTarget(d, o).value) in Y {
      assert ResolvedCall(env, J, env.fnTarget(d, o).value);
    }
  }

  lemma BodyIsReason(env: Env, prog: Program, scope: Scope, base: iset<Item>, J: iset<Item>, Y: iset<Item>, f: FuncId)
    requires JointClosed(env, prog, scope, J) && Reasoned(env, prog, scope, base, J, Y) && f in scope.funcs && Reached(prog, J, f)
    ensures FunctionIn(prog, Y, f)
  {
    hide Closed, Involves, CallEdge, MemoryEdge, FactReason, PointerSite, ResolvedCall, Reached, IsReached, CallIn;
    IsReachedExactly(prog, J, f);
    if prog.body(f).Some? {
      assert Counts(prog, scope, J, f) && FunctionIn(prog, J, f);
      forall g, e | Involves(prog, f, g) && e in prog.edgesOf(g) ensures Arc(e) in Y {
        assert InternalEdge(prog, scope, J, e);
      }
      var b := prog.body(f).value;
      forall c | c in b.staticCalls ensures Called(c) in Y {
        assert StaticCall(prog, scope, J, c);
      }
      forall c | c in b.specialCalls ensures Special(c) in Y {
        assert SpecialCall(prog, scope, J, c);
      }
      SitesAreReasons(env, prog, scope, base, J, Y, f);
    }
  }

  lemma SitesAreReasons(env: Env, prog: Program, scope: Scope, base: iset<Item>, J: iset<Item>, Y: iset<Item>, f: FuncId)
    requires Reasoned(env, prog, scope, base, J, Y) && Counts(prog, scope, J, f) && BodyIn(J, prog.body(f).value)
    ensures var b := prog.body(f).value;
      && (forall p :: p in b.dynSites ==> Site(DynSite, p.0, p.1) in Y)
      && (forall p :: p in b.fnptrSites ==> Site(FnPtrSite, p.0, p.1) in Y)
      && (forall p :: p in b.fntraitSites ==> Site(FnTraitSite, p.0, p.1) in Y)
  {
    hide IsReached, InternalEdge, CallEdge, MemoryEdge, FactReason, PointerSite, ResolvedCall;
    var b := prog.body(f).value;
    forall p | p in b.dynSites ensures Site(DynSite, p.0, p.1) in Y {
      assert ListedSite(prog, scope, J, DynSite, p.0, p.1);
    }
    forall p | p in b.fnptrSites ensures Site(FnPtrSite, p.0, p.1) in Y {
      assert ListedSite(prog, scope, J, FnPtrSite, p.0, p.1);
    }
    forall p | p in b.fntraitSites ensures Site(FnTraitSite, p.0, p.1) in Y {
      assert ListedSite(prog, scope, J, FnTraitSite, p.0, p.1);
    }
  }

  lemma CallIsReason(env: Env, prog: Program, scope: Scope, base: iset<Item>, J: iset<Item>, Y: iset<Item>, c: Call)
    requires Reasoned(env, prog, scope, base, J, Y) && c in scope.calls && Called(c) in J && CallIn(prog, J, c)
    ensures CallIn(prog, Y, c)
  {
    hide InterEdges, InternalEdge, MemoryEdge, FactReason, PointerSite, ResolvedCall;
    forall e | e in InterEdges(prog, c) ensures Arc(e) in Y {
      assert CallEdge(prog, scope, J, e);
    }
  }
}
