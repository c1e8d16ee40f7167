/** A condition on programs under which the driver passes over nothing but special functions. Facts then live
    only in frames of functions that had been dealt with when the solver last ran, while new edges and call
    sites are decided by pointers of the function that is being added. */
module Ownership {
  import opened Paths
  import opened Constraints
  import opened Solver
  import opened SolverTheorems
  import opened Joint
  import opened Driver

  /** f is reached, has a body, and brings in the edges of g. */
  ghost predicate Brings(prog: Program, L: iset<Item>, f: FuncId, g: FuncId)
  {
    Reached(prog, L, f) && prog.body(f).Some? && Involves(prog, f, g)
  }

  ghost predicate BroughtIn(prog: Program, L: iset<Item>, g: FuncId)
  {
    exists f :: Brings(prog, L, f, g)
  }

  /** g is a promoted constant or a static variable of another function. */
  ghost predicate BroughtByOther(prog: Program, L: iset<Item>, g: FuncId)
  {
    exists f :: f != g && Brings(prog, L, f, g)
  }

  predicate OwnerIs(p: Path, f: FuncId)
  {
    ContainingFunc(p) == NoOwner || ContainingFunc(p) == OwnedBy(f)
  }

  predicate SiteOwner(c: CallSite, f: FuncId)
  {
    c.func == f && OwnerIs(c.destination, f) && forall a :: a in c.args ==> OwnerIs(a, f)
  }

  /** Edges of a function stay in its frame and are decided there, or are activated by a queue. */
  ghost predicate EdgesOwned(prog: Program, f: FuncId)
  {
    forall e :: e in prog.edgesOf(f) ==>
      && OwnerIs(e.src, f) && OwnerIs(e.dst, f)
      && (e.kind.Addr? || (Flows(e.kind) && IsQueued(e.src)) || ContainingFunc(Trigger(e)) == OwnedBy(f))
  }

  ghost predicate SitesOwned(sites: seq<(Path, CallSite)>, f: FuncId)
  {
    forall p :: p in sites ==> ContainingFunc(p.0) == OwnedBy(f) && SiteOwner(p.1, f)
  }

  ghost predicate BodyOwned(prog: Program, f: FuncId)
  {
    prog.body(f).Some? ==>
      var b := prog.body(f).value;
      && (forall c :: c in b.staticCalls ==> SiteOwner(c.site, f))
      && SitesOwned(b.dynSites, f) && SitesOwned(b.fnptrSites, f) && SitesOwned(b.fntraitSites, f)
  }

  /** Every path that c mentions is mentioned by the site a, lies in the frame of a path o, or in none. */
  ghost predicate SiteFrom(c: CallSite, a: CallSite, o: Path)
  {
    && c.func == a.func
    && (forall p :: p in c.args || p == c.destination ==>
          ContainingFunc(p) == NoOwner || ContainingFunc(p) == ContainingFunc(o)
          || exists q :: (q in a.args || q == a.destination) && ContainingFunc(p) == ContainingFunc(q))
  }

  /** Resolving a call only rearranges the paths of its site and of the object. */
  ghost predicate TargetsOwned(env: Env)
  {
    && (forall c, o :: env.fnTarget(c, o).Some? ==> SiteFrom(env.fnTarget(c, o).value.site, c, o))
    && (forall c, o :: env.dynTarget(c, o).Some? ==> SiteFrom(env.dynTarget(c, o).value.site, c, o))
    && (forall c, o :: env.traitTarget(c, o).Resolved? || env.traitTarget(c, o).ResolvedInstance? ==>
          SiteFrom(env.traitTarget(c, o).call.site, c, o))
    && (forall c, o :: env.traitTarget(c, o).FnPtrObject? ==> SiteFrom(env.traitTarget(c, o).site, c, o))
  }

  /** Calls with the same base site and callee bring the same edges, and none when one of them is special. */
  ghost predicate OneShape(prog: Program, L: iset<Item>)
  {
    && (forall c, d :: Called(c) in L && Called(d) in L && KeyOf(c) == KeyOf(d) ==> InterEdges(prog, c) == InterEdges(prog, d))
    && (forall c, d :: Called(c) in L && Special(d) in L && KeyOf(c) == KeyOf(d) ==> InterEdges(prog, c) == [])
  }

  /** The condition. */
  ghost predicate WellOwned(env: Env, prog: Program, L: iset<Item>)
  {
    && (forall f {:trigger EdgesOwned(prog, f)} :: EdgesOwned(prog, f))
    && (forall f {:trigger BodyOwned(prog, f)} :: BodyOwned(prog, f))
    && TargetsOwned(env) && OneShape(prog, L)
    && (forall g :: BroughtByOther(prog, L, g) ==> !Reached(prog, L, g))
  }

  // ----- items of a set of functions

  /** The path lies in the frame of a function of S, of a function that never brings edges, or in none. */
  ghost predicate PathIn(prog: Program, L: iset<Item>, S: set<FuncId>, p: Path)
  {
    match ContainingFunc(p)
    case NoOwner => true
    case OwnedBy(f) => f in S || !BroughtIn(prog, L, f)
  }

  ghost predicate SiteIn(prog: Program, L: iset<Item>, S: set<FuncId>, c: CallSite)
  {
    PathIn(prog, L, S, c.destination) && forall a :: a in c.args ==> PathIn(prog, L, S, a)
  }

  ghost predicate ItemIn(prog: Program, L: iset<Item>, S: set<FuncId>, i: Item)
  {
    match i
    case Pts(v, o) => PathIn(prog, L, S, v) && PathIn(prog, L, S, o)
    case Arc(e) => PathIn(prog, L, S, e.src) && PathIn(prog, L, S, e.dst)
    case Site(_, p, c) => PathIn(prog, L, S, p) && SiteIn(prog, L, S, c)
    case Called(c) => SiteIn(prog, L, S, c.site)
    case Special(_) => true
  }

  ghost function ItemsIn(prog: Program, L: iset<Item>, S: set<FuncId>): iset<Item>
  {
    iset i: Item | ItemIn(prog, L, S, i)
  }

  lemma ItemsInMonotone(prog: Program, L: iset<Item>, S: set<FuncId>, T: set<FuncId>)
    requires S <= T
    ensures ItemsIn(prog, L, S) <= ItemsIn(prog, L, T)
  {
  }

  lemma SiteFromIn(prog: Program, L: iset<Item>, S: set<FuncId>, c: CallSite, a: CallSite, o: Path)
    requires SiteFrom(c, a, o) && SiteIn(prog, L, S, a) && PathIn(prog, L, S, o)
    ensures SiteIn(prog, L, S, c)
  {
    hide BroughtIn;
    forall p | p in c.args || p == c.destination ensures PathIn(prog, L, S, p) {
      if exists q :: (q in a.args || q == a.destination) && ContainingFunc(p) == ContainingFunc(q) {
        var q :| (q in a.args || q == a.destination) && ContainingFunc(p) == ContainingFunc(q);
        assert PathIn(prog, L, S, q);
      }
    }
  }

  /** Inclusion never takes a fact out of the frames of S. */
  lemma ItemsInClosed(env: Env, prog: Program, L: iset<Item>, S: set<FuncId>)
    requires TargetsOwned(env)
    ensures Closed(env, ItemsIn(prog, L, S))
  {
    hide PathIn, SiteIn, SiteFrom;
    var X := ItemsIn(prog, L, S);
    forall v, o | Pts(v, o) in X ensures Respects(env, X, v, o) {
      forall proj ensures PathIn(prog, L, S, AppendProjection(o, proj)) {
        SameOwnerIn(prog, L, S, o, proj);
      }
      CallsIn(env, prog, L, S, v, o);
    }
  }

  /** Nor does treating edges as direct ones. */
  lemma StrayIsIn(env: Env, prog: Program, L: iset<Item>, S: set<FuncId>, queue: seq<Edge>)
    requires forall e :: e in queue ==> Arc(e) in ItemsIn(prog, L, S)
    ensures QueueSound(env, ItemsIn(prog, L, S), queue)
  {
    hide PathIn;
  }

  lemma SameOwnerIn(prog: Program, L: iset<Item>, S: set<FuncId>, o: Path, proj: Projection)
    requires PathIn(prog, L, S, o)
    ensures PathIn(prog, L, S, AppendProjection(o, proj))
  {
  }

  lemma CallsIn(env: Env, prog: Program, L: iset<Item>, S: set<FuncId>, v: Path, o: Path)
    requires TargetsOwned(env) && PathIn(prog, L, S, o)
    ensures var X := ItemsIn(prog, L, S);
      RespectsDyn(env, X, v, o) && RespectsFnptr(env, X, v, o) && RespectsFntrait(env, X, v, o)
  {
    DynCallsIn(env, prog, L, S, v, o);
    FnptrCallsIn(env, prog, L, S, v, o);
    TraitCallsIn(env, prog, L, S, v, o);
  }

  lemma DynCallsIn(env: Env, prog: Program, L: iset<Item>, S: set<FuncId>, v: Path, o: Path)
    requires TargetsOwned(env) && PathIn(prog, L, S, o)
    ensures RespectsDyn(env, ItemsIn(prog, L, S), v, o)
  {
    hide PathIn, SiteIn, SiteFrom;
    forall c | Site(DynSite, v, c) in ItemsIn(prog, L, S) && env.dynTarget(c, o).Some?
      ensures Called(env.dynTarget(c, o).value) in ItemsIn(prog, L, S)
    {
      SiteFromIn(prog, L, S, env.dynTarget(c, o).value.site, c, o);
    }
  }

  lemma FnptrCallsIn(env: Env, prog: Program, L: iset<Item>, S: set<FuncId>, v: Path, o: Path)
    requires TargetsOwned(env) && PathIn(prog, L, S, o)
    ensures RespectsFnptr(env, ItemsIn(prog, L, S), v, o)
  {
    hide PathIn, SiteIn, SiteFrom;
    forall c | Site(FnPtrSite, v, c) in ItemsIn(prog, L, S) && env.fnTarget(c, o).Some?
      ensures Called(env.fnTarget(c, o).value) in ItemsIn(prog, L, S)
    {
      SiteFromIn(prog, L, S, env.fnTarget(c, o).value.site, c, o);
    }
  }

  lemma TraitCallsIn(env: Env, prog: Program, L: iset<Item>, S: set<FuncId>, v: Path, o: Path)
    requires TargetsOwned(env) && PathIn(prog, L, S, o)
    ensures RespectsFntrait(env, ItemsIn(prog, L, S), v, o)
  {
    hide PathIn, SiteIn, SiteFrom;
    forall c | Site(FnTraitSite, v, c) in ItemsIn(prog, L, S)
      ensures RespectsTrait(ItemsIn(prog, L, S), o, env.traitTarget(c, o))
    {
      match env.traitTarget(c, o)
      case Resolved(call) => SiteFromIn(prog, L, S, call.site, c, o);
      case ResolvedInstance(call) => SiteFromIn(prog, L, S, call.site, c, o);
      case FnPtrObject(d) => SiteFromIn(prog, L, S, d, c, o);
      case Unresolved =>
    }
  }

  lemma {:induction false} PartEdgesIn(prog: Program, L: iset<Item>, S: set<FuncId>, src: Path, dst: Path, parts: seq<Projection>)
    requires PathIn(prog, L, S, src) && PathIn(prog, L, S, dst)
    ensures forall e :: e in PartEdges(src, dst, parts) ==> ItemIn(prog, L, S, Arc(e))
  {
    hide PathIn;
    if parts != [] {
      SameOwnerIn(prog, L, S, src, parts[0]);
      SameOwnerIn(prog, L, S, dst, parts[0]);
      PartEdgesIn(prog, L, S, src, dst, parts[1..]);
    }
  }

  lemma {:induction false} ArgEdgesIn(prog: Program, L: iset<Item>, S: set<FuncId>, args: seq<Path>, callee: FuncId, first: nat)
    requires callee in S && forall a :: a in args ==> PathIn(prog, L, S, a)
    ensures forall e :: e in ArgEdges(prog, args, callee, first) ==> ItemIn(prog, L, S, Arc(e))
  {
    if args != [] {
      PartEdgesIn(prog, L, S, args[0], Parameter(callee, first), prog.pointerParts(args[0]));
      ArgEdgesIn(prog, L, S, args[1..], callee, first + 1);
    }
  }

  lemma InterEdgesIn(prog: Program, L: iset<Item>, S: set<FuncId>, c: Call)
    requires c.callee in S && SiteIn(prog, L, S, c.site)
    ensures forall e :: e in InterEdges(prog, c) ==> ItemIn(prog, L, S, Arc(e))
  {
    ArgEdgesIn(prog, L, S, c.site.args, c.callee, 1);
    PartEdgesIn(prog, L, S, ReturnValue(c.callee), c.site.destination, prog.pointerParts(c.site.destination));
  }

  lemma OwnedIsIn(prog: Program, L: iset<Item>, S: set<FuncId>, p: Path, f: FuncId)
    requires f in S && OwnerIs(p, f)
    ensures PathIn(prog, L, S, p)
  {
  }

  lemma OwnedSiteIsIn(prog: Program, L: iset<Item>, S: set<FuncId>, c: CallSite, f: FuncId)
    requires f in S && SiteOwner(c, f)
    ensures SiteIn(prog, L, S, c)
  {
  }

  /** A pointer of a function that has just been brought in has no facts yet. */
  lemma NoFactsYet(prog: Program, L: iset<Item>, S: set<FuncId>, s: State, p: Path, f: FuncId)
    requires ContainingFunc(p) == OwnedBy(f) && f !in S && BroughtIn(prog, L, f)
    requires forall v :: PtsOf(s, v) != {} ==> PathIn(prog, L, S, v)
    ensures PtsOf(s, p) == {}
  {
  }
}
