/** The inclusion system that the pointer analysis solves: edges of the pointer assignment graph, the
    questions answered by the compiler (types, call targets) as total functions, the rules, and the
    least set of conclusions. */
module Constraints {
  import opened Options
  import opened Paths

  /** Kinds of edges (src/graph/pag.rs). Cast edges are not part of this model. */
  datatype Kind =
    | Addr
    | Direct
    | Load(proj: Projection)
    | Store(proj: Projection)
    | Gep(proj: Projection)
    | Offset

  datatype Edge = Edge(src: Path, dst: Path, kind: Kind)

  /** A call site with its arguments (src/mir/call_site.rs). */
  datatype CallSite = CallSite(func: FuncId, location: Location, args: seq<Path>, destination: Path)

  /** A call site paired with a function that it may call. */
  datatype Call = Call(site: CallSite, callee: FuncId)

  /** How a call is attached to the pointer that decides its targets. */
  datatype SiteKind = DynSite | FnPtrSite | FnTraitSite

  /** What an object of a `dyn Fn*` call turns out to be. */
  datatype TraitTarget =
    | Resolved(call: Call)
    /** A call of the `Fn*` implementation of another type, handed over as an instance call. */
    | ResolvedInstance(call: Call)
    | FnPtrObject(site: CallSite)
    | Unresolved

  /** Answers that come from the compiler or from hash iteration order; any total functions will do. */
  datatype Env = Env(
    /** True when the points-to target may flow from the first path to the second: their pointer types
        are equivalent and the type filter lets it through. */
    pass: (Path, Path, Path) -> bool,
    /** The order in which a points-to set of a pointer is traversed. It may differ from turn to turn. */
    order: (nat, Path, set<Path>) -> seq<Path>,
    /** The order in which the call sites of a pointer are traversed. */
    siteOrder: (nat, SiteKind, Path, set<CallSite>) -> seq<CallSite>,
    /** Function-pointer call resolved with an object. */
    fnTarget: (CallSite, Path) -> Option<Call>,
    /** Trait-method call devirtualized with an object. */
    dynTarget: (CallSite, Path) -> Option<Call>,
    /** `dyn Fn*` call resolved with an object. */
    traitTarget: (CallSite, Path) -> TraitTarget)

  /** Iteration visits every element exactly once. */
  ghost predicate OrderOk(env: Env)
  {
    && (forall t: nat, v: Path, s: set<Path> :: |env.order(t, v, s)| == |s|)
    && (forall t: nat, v: Path, s: set<Path>, x: Path :: x in env.order(t, v, s) <==> x in s)
    && (forall t: nat, k: SiteKind, v: Path, s: set<CallSite> :: |env.siteOrder(t, k, v, s)| == |s|)
    && (forall t: nat, k: SiteKind, v: Path, s: set<CallSite>, x: CallSite :: x in env.siteOrder(t, k, v, s) <==> x in s)
  }

  /** Conclusions of the analysis. */
  datatype Item =
    | Pts(pointer: Path, pointee: Path)
    | Arc(edge: Edge)
    | Site(kind: SiteKind, pointer: Path, site: CallSite)
    | Called(call: Call)
    /** A call of a specially handled function, which has no effect on points-to facts here. */
    | Special(call: Call)

  predicate Flows(k: Kind) { k.Direct? || k.Offset? }

  /** The consequences of "v points to o" along direct and offset edges. */
  ghost predicate RespectsFlow(env: Env, X: iset<Item>, v: Path, o: Path)
  {
    forall e :: Arc(e) in X && e.src == v && Flows(e.kind) && env.pass(v, e.dst, o) ==> Pts(e.dst, o) in X
  }

  /** A load from v reads the part of o that it names; a store through v writes it. */
  ghost predicate RespectsLoad(X: iset<Item>, v: Path, o: Path)
  {
    forall e :: Arc(e) in X && e.src == v && e.kind.Load? ==>
      Arc(Edge(AppendProjection(o, e.kind.proj), e.dst, Direct)) in X
  }

  ghost predicate RespectsStore(X: iset<Item>, v: Path, o: Path)
  {
    forall e :: Arc(e) in X && e.dst == v && e.kind.Store? ==>
      Arc(Edge(e.src, AppendProjection(o, e.kind.proj), Direct)) in X
  }

  /** The address of a part of o. */
  ghost predicate RespectsGep(X: iset<Item>, v: Path, o: Path)
  {
    forall e :: Arc(e) in X && e.src == v && e.kind.Gep? ==> Pts(e.dst, AppendProjection(o, e.kind.proj)) in X
  }

  ghost predicate RespectsEdges(env: Env, X: iset<Item>, v: Path, o: Path)
  {
    RespectsFlow(env, X, v, o) && RespectsLoad(X, v, o) && RespectsStore(X, v, o) && RespectsGep(X, v, o)
  }

  /** The consequences of "v points to o" at the calls that v decides. */
  ghost predicate RespectsDyn(env: Env, X: iset<Item>, v: Path, o: Path)
  {
    forall c :: Site(DynSite, v, c) in X && env.dynTarget(c, o).Some? ==> Called(env.dynTarget(c, o).value) in X
  }

  ghost predicate RespectsFnptr(env: Env, X: iset<Item>, v: Path, o: Path)
  {
    forall c :: Site(FnPtrSite, v, c) in X && env.fnTarget(c, o).Some? ==> Called(env.fnTarget(c, o).value) in X
  }

  ghost predicate RespectsFntrait(env: Env, X: iset<Item>, v: Path, o: Path)
  {
    forall c :: Site(FnTraitSite, v, c) in X ==> RespectsTrait(X, o, env.traitTarget(c, o))
  }

  ghost predicate RespectsTrait(X: iset<Item>, o: Path, t: TraitTarget)
  {
    match t
    case Resolved(call) => Called(call) in X
    case ResolvedInstance(call) => Called(call) in X
    case FnPtrObject(c) => Site(FnPtrSite, o, c) in X
    case Unresolved => true
  }

  ghost predicate Respects(env: Env, X: iset<Item>, v: Path, o: Path)
  {
    RespectsEdges(env, X, v, o) && RespectsDyn(env, X, v, o) && RespectsFnptr(env, X, v, o) && RespectsFntrait(env, X, v, o)
  }

  /** X is closed under every rule. */
  ghost predicate Closed(env: Env, X: iset<Item>)
  {
    && (forall e :: Arc(e) in X && e.kind.Addr? ==> Pts(e.dst, e.src) in X)
    && (forall v, o {:trigger Respects(env, X, v, o)} :: Pts(v, o) in X ==> Respects(env, X, v, o))
  }

  /** The least closed set that contains the given items: what lies in every closed set above them. */
  ghost function Least(env: Env, base: iset<Item>): iset<Item>
  {
    iset i: Item | InEveryClosed(env, base, i)
  }

  ghost predicate InEveryClosed(env: Env, base: iset<Item>, i: Item)
  {
    forall X: iset<Item> :: base <= X && Closed(env, X) ==> i in X
  }

  lemma LeastIsBelow(env: Env, base: iset<Item>, X: iset<Item>)
    requires base <= X && Closed(env, X)
    ensures Least(env, base) <= X
  {
  }

  lemma RespectsInside(env: Env, Y: iset<Item>, X: iset<Item>, v: Path, o: Path)
    requires Y <= X && Respects(env, X, v, o)
    ensures forall e :: Arc(e) in Y && e.src == v && Flows(e.kind) && env.pass(v, e.dst, o) ==> Pts(e.dst, o) in X
    ensures forall e :: Arc(e) in Y && e.src == v && e.kind.Load? ==>
        Arc(Edge(AppendProjection(o, e.kind.proj), e.dst, Direct)) in X
    ensures forall e :: Arc(e) in Y && e.dst == v && e.kind.Store? ==>
        Arc(Edge(e.src, AppendProjection(o, e.kind.proj), Direct)) in X
    ensures forall e :: Arc(e) in Y && e.src == v && e.kind.Gep? ==> Pts(e.dst, AppendProjection(o, e.kind.proj)) in X
    ensures forall c :: Site(DynSite, v, c) in Y && env.dynTarget(c, o).Some? ==>
        Called(env.dynTarget(c, o).value) in X
    ensures forall c :: Site(FnPtrSite, v, c) in Y && env.fnTarget(c, o).Some? ==>
        Called(env.fnTarget(c, o).value) in X
    ensures forall c :: Site(FnTraitSite, v, c) in Y ==> RespectsTrait(X, o, env.traitTarget(c, o))
  {
  }

  /** The least set is itself closed: every rule has its premises in the set, hence in every closed set,
      which then holds the conclusion. */
  lemma LeastIsClosed(env: Env, base: iset<Item>)
    ensures base <= Least(env, base)
    ensures Closed(env, Least(env, base))
  {
    var L := Least(env, base);
    forall v, o | Pts(v, o) in L ensures Respects(env, L, v, o) {
      LeastRespects(env, base, v, o);
    }
  }

  lemma LeastRespects(env: Env, base: iset<Item>, v: Path, o: Path)
    requires Pts(v, o) in Least(env, base)
    ensures Respects(env, Least(env, base), v, o)
  {
    var L := Least(env, base);
    forall X: iset<Item> | base <= X && Closed(env, X)
      ensures L <= X && Respects(env, X, v, o)
    {
      LeastIsBelow(env, base, X);
    }
    forall c | Site(FnTraitSite, v, c) in L
      ensures RespectsTrait(L, o, env.traitTarget(c, o))
    {
      forall X: iset<Item> | base <= X && Closed(env, X)
        ensures RespectsTrait(X, o, env.traitTarget(c, o))
      {
        RespectsInside(env, L, X, v, o);
      }
    }
  }

  /** Closed sets that contain the same items give the same least set, however the items were added. */
  lemma LeastIdempotent(env: Env, base: iset<Item>, more: iset<Item>)
    requires base <= more <= Least(env, base)
    ensures Least(env, more) == Least(env, base)
  {
  }
}
