/** Rapid type analysis finds every call that the pointer analysis finds, as long as the two read the same program:
    their visitors record the same calls and call sites of a body (src/rta/body_visitor.rs, src/builder/fpag_builder.rs),
    the compiler resolves calls alike for both, and pointers to trait objects and functions get objects only where
    the visitor of rapid type analysis records their types. */
module RtaCovers {
  import opened Options
  import opened Paths
  import opened CallGraph
  import opened Constraints
  import opened Solver
  import opened Joint
  import opened DriverInvariant
  import opened Exit
  import Rta = RtaRules

  type Facts = iset<Rta.Fact>

  /** What the compiler says about types. */
  datatype Types = Types(
    /** The type that a pointer to a trait object points to. */
    dynOf: Path -> Option<Rta.Ty>,
    /** The type of a function pointer. */
    ptrOf: Path -> Option<Rta.Ty>,
    /** The type of an object. */
    tyOf: Path -> Rta.Ty)

  function BaseOf(c: CallSite): BaseSite
  {
    BaseSite(c.func, c.location)
  }

  /** The type of o has been recorded for trait objects as v points to. */
  ghost predicate FitsDyn(types: Types, F: Facts, v: Path, o: Path)
  {
    types.dynOf(v).Some? ==> Rta.Concrete(types.dynOf(v).value, types.tyOf(o)) in F
  }

  /** The type of o has been recorded as a target of function pointers like v. */
  ghost predicate FitsPtr(rta: Rta.Program, types: Types, F: Facts, v: Path, o: Path)
  {
    types.ptrOf(v).Some? ==> exists sig :: Rta.Target(sig, types.tyOf(o)) in F && Rta.Matched(rta, types.ptrOf(v).value, sig)
  }

  ghost predicate Fits(rta: Rta.Program, types: Types, F: Facts, v: Path, o: Path)
  {
    FitsDyn(types, F, v, o) && FitsPtr(rta, types, F, v, o)
  }

  // ----- what it means that the two analyses read the same program

  /** Objects pass between pointers to the same trait object, along a recorded upcast, or where their type has
      been recorded for the target; and likewise between function pointers. */
  ghost predicate FilterAgrees(env: Env, rta: Rta.Program, types: Types, F: Facts)
  {
    forall v, w, o :: env.pass(v, w, o) ==>
      && (types.dynOf(w) == types.dynOf(v) || FitsDyn(types, F, w, o)
          || (types.dynOf(v).Some? && types.dynOf(w).Some? && Rta.Upcast(types.dynOf(v).value, types.dynOf(w).value) in F))
      && (types.ptrOf(w) == types.ptrOf(v) || FitsPtr(rta, types, F, w, o))
  }

  /** A call through a pointer to a function calls that function. */
  ghost predicate PointersAlike(env: Env, rta: Rta.Program, types: Types)
  {
    forall c, o :: env.fnTarget(c, o).Some? ==>
      var call := env.fnTarget(c, o).value;
      BaseOf(call.site) == BaseOf(c) && rta.itemFunc(types.tyOf(o)) == call.callee
  }

  /** A trait method is devirtualized to the same function for an object and for its type. */
  ghost predicate MethodsAlike(env: Env, rta: Rta.Program, types: Types, c: CallSite, at: Rta.GenericSite)
  {
    at.site == BaseOf(c) && forall o :: env.dynTarget(c, o).Some? ==>
      var call := env.dynTarget(c, o).value;
      BaseOf(call.site) == BaseOf(c) && rta.devirtualize(at, types.tyOf(o)) == Some(call.callee)
  }

  ghost predicate TargetsAlike(rta: Rta.Program, types: Types, at: Rta.GenericSite, o: Path, t: TraitTarget)
  {
    match t
    case Resolved(call) =>
      BaseOf(call.site) == at.site && rta.fnTraitCallee(at, types.tyOf(o)) == Rta.Callee(call.callee)
    case ResolvedInstance(call) =>
      BaseOf(call.site) == at.site && rta.fnTraitCallee(at, types.tyOf(o)) == Rta.Callee(call.callee)
    case FnPtrObject(c) =>
      && BaseOf(c) == at.site && rta.fnTraitCallee(at, types.tyOf(o)) == Rta.ThroughPointer
      && types.ptrOf(o) == Some(types.tyOf(o))
    case Unresolved => true
  }

  ghost predicate TraitsAlike(env: Env, rta: Rta.Program, types: Types, c: CallSite, at: Rta.GenericSite)
  {
    at.site == BaseOf(c) && forall o :: TargetsAlike(rta, types, at, o, env.traitTarget(c, o))
  }

  /** An address is taken, or a part of an object addressed, only where the type fits. */
  ghost predicate EdgeFits(rta: Rta.Program, types: Types, F: Facts, e: Edge)
  {
    match e.kind
    case Addr => Fits(rta, types, F, e.dst, e.src)
    case Gep(j) => forall o :: Fits(rta, types, F, e.src, o) ==> Fits(rta, types, F, e.dst, AppendProjection(o, j))
    case _ => true
  }

  /** The visitor of rapid type analysis records the calls and call sites of the body. */
  ghost predicate CallsRecorded(env: Env, rta: Rta.Program, types: Types, b: Body, visited: seq<Rta.Action>)
  {
    && (forall c :: c in b.staticCalls ==> Rta.Find(Rta.Calls(BaseOf(c.site), c.callee)) in visited)
    && (forall c :: c in b.specialCalls ==> Rta.CallSpecial(BaseOf(c.site), c.callee) in visited)
    && (forall p :: p in b.dynSites ==> exists d, at ::
          types.dynOf(p.0) == Some(d) && Rta.Find(Rta.DynAt(d, at)) in visited && MethodsAlike(env, rta, types, p.1, at))
    && (forall p :: p in b.fnptrSites ==> exists t ::
          types.ptrOf(p.0) == Some(t) && Rta.Find(Rta.FnPtrAt(t, BaseOf(p.1))) in visited)
    && (forall p :: p in b.fntraitSites ==> exists d, at ::
          types.dynOf(p.0) == Some(d) && Rta.Find(Rta.FnTraitAt(d, at)) in visited && TraitsAlike(env, rta, types, p.1, at))
  }

  ghost predicate BodyAgrees(env: Env, prog: Program, rta: Rta.Program, types: Types, F: Facts, f: FuncId)
  {
    prog.body(f).Some? ==>
      && rta.body(f).Some? && CallsRecorded(env, rta, types, prog.body(f).value, rta.body(f).value)
      && forall g, e :: Involves(prog, f, g) && e in prog.edgesOf(g) ==> EdgeFits(rta, types, F, e)
  }

  /** The two analyses read the same program; bodies count that rapid type analysis visits. */
  ghost predicate SameProgram(env: Env, prog: Program, rta: Rta.Program, types: Types, skip: iset<FuncId>)
  {
    var F := Rta.Least(rta, skip);
    && prog.entry == rta.entry && FilterAgrees(env, rta, types, F) && PointersAlike(env, rta, types)
    && forall f {:trigger BodyAgrees(env, prog, rta, types, F, f)} ::
         Rta.Reach(f) in F && f !in skip ==> BodyAgrees(env, prog, rta, types, F, f)
  }

  // ----- what rapid type analysis accounts for

  ghost predicate SiteCovered(env: Env, rta: Rta.Program, types: Types, F: Facts, k: SiteKind, v: Path, c: CallSite)
  {
    match k
    case DynSite => exists d, at :: types.dynOf(v) == Some(d) && Rta.DynAt(d, at) in F && MethodsAlike(env, rta, types, c, at)
    case FnPtrSite => exists t :: types.ptrOf(v) == Some(t) && Rta.FnPtrAt(t, BaseOf(c)) in F
    case FnTraitSite =>
      exists d, at :: types.dynOf(v) == Some(d) && Rta.FnTraitAt(d, at) in F && TraitsAlike(env, rta, types, c, at)
  }

  ghost predicate Covered(env: Env, rta: Rta.Program, types: Types, F: Facts, i: Item)
  {
    match i
    case Pts(v, o) => Fits(rta, types, F, v, o)
    case Arc(e) => EdgeFits(rta, types, F, e)
    case Site(k, v, c) => SiteCovered(env, rta, types, F, k, v, c)
    case Called(c) => Rta.CallIn(F, BaseOf(c.site), c.callee)
    case Special(c) => Rta.Calls(BaseOf(c.site), c.callee) in F
  }

  ghost function AllCovered(env: Env, rta: Rta.Program, types: Types, F: Facts): iset<Item>
  {
    iset i: Item | Covered(env, rta, types, F, i)
  }

  lemma FlowsFit(env: Env, rta: Rta.Program, types: Types, F: Facts, v: Path, w: Path, o: Path)
    requires FilterAgrees(env, rta, types, F) && Rta.UpcastRule(F) && Fits(rta, types, F, v, o) && env.pass(v, w, o)
    ensures Fits(rta, types, F, w, o)
  {
  }

  lemma MethodCalls(env: Env, rta: Rta.Program, types: Types, F: Facts, v: Path, o: Path, c: CallSite)
    requires Rta.DynRule(rta, F) && FitsDyn(types, F, v, o) && SiteCovered(env, rta, types, F, DynSite, v, c)
    ensures env.dynTarget(c, o).Some? ==> Covered(env, rta, types, F, Called(env.dynTarget(c, o).value))
  {
  }

  lemma PointerCalls(env: Env, rta: Rta.Program, types: Types, F: Facts, v: Path, o: Path, c: CallSite)
    requires Rta.FnPtrRule(rta, F) && PointersAlike(env, rta, types)
    requires FitsPtr(rta, types, F, v, o) && SiteCovered(env, rta, types, F, FnPtrSite, v, c)
    ensures env.fnTarget(c, o).Some? ==> Covered(env, rta, types, F, Called(env.fnTarget(c, o).value))
  {
  }

  lemma TraitCalls(env: Env, rta: Rta.Program, types: Types, F: Facts, v: Path, o: Path, c: CallSite)
    requires Rta.FnTraitRule(rta, F) && FitsDyn(types, F, v, o) && SiteCovered(env, rta, types, F, FnTraitSite, v, c)
    ensures RespectsTrait(AllCovered(env, rta, types, F), o, env.traitTarget(c, o))
  {
    var d, at :| types.dynOf(v) == Some(d) && Rta.FnTraitAt(d, at) in F && TraitsAlike(env, rta, types, c, at);
    assert TargetsAlike(rta, types, at, o, env.traitTarget(c, o));
    assert Rta.TraitCallIn(F, at, types.tyOf(o), rta.fnTraitCallee(at, types.tyOf(o)));
  }

  /** What rapid type analysis accounts for is closed under the points-to rules. */
  lemma CoveredIsClosed(env: Env, rta: Rta.Program, types: Types, F: Facts)
    requires Rta.Rules(rta, F) && FilterAgrees(env, rta, types, F) && PointersAlike(env, rta, types)
    ensures Closed(env, AllCovered(env, rta, types, F))
  {
    hide FilterAgrees, PointersAlike, SiteCovered, Rta.UpcastRule, Rta.DynRule, Rta.FnTraitRule, Rta.FnPtrRule, Rta.EdgeRule;
    var X := AllCovered(env, rta, types, F);
    forall v, o | Pts(v, o) in X ensures Respects(env, X, v, o) {
      forall e | Arc(e) in X && e.src == v && Flows(e.kind) && env.pass(v, e.dst, o) ensures Pts(e.dst, o) in X {
        FlowsFit(env, rta, types, F, v, e.dst, o);
      }
      forall c | Site(DynSite, v, c) in X && env.dynTarget(c, o).Some? ensures Called(env.dynTarget(c, o).value) in X {
        MethodCalls(env, rta, types, F, v, o, c);
      }
      forall c | Site(FnPtrSite, v, c) in X && env.fnTarget(c, o).Some? ensures Called(env.fnTarget(c, o).value) in X {
        PointerCalls(env, rta, types, F, v, o, c);
      }
      forall c | Site(FnTraitSite, v, c) in X ensures RespectsTrait(X, o, env.traitTarget(c, o)) {
        TraitCalls(env, rta, types, F, v, o, c);
      }
    }
  }

  /** The calls and call sites of a body that has been visited. */
  lemma BodyCovered(env: Env, rta: Rta.Program, types: Types, F: Facts, b: Body, f: FuncId)
    requires rta.body(f).Some? && Rta.BodyFound(rta, F, f) && CallsRecorded(env, rta, types, b, rta.body(f).value)
    ensures BodyIn(AllCovered(env, rta, types, F), b)
  {
    hide MethodsAlike, TraitsAlike;
  }

  lemma ReachedIsReached(env: Env, prog: Program, rta: Rta.Program, types: Types, F: Facts, X: iset<Item>, f: FuncId)
    requires X <= AllCovered(env, rta, types, F) && Reached(prog, X, f)
    requires Rta.EdgeRule(F) && Rta.Plain(prog.entry) in F
    ensures Rta.Reach(f) in F
  {
    hide Fits, EdgeFits, SiteCovered;
    if f != prog.entry {
      var c :| InCallGraph(X, c) && (f == c.callee || f == c.site.func);
      assert Called(c) in AllCovered(env, rta, types, F) || Special(c) in AllCovered(env, rta, types, F);
    }
  }

  lemma CoveredIsJointlyClosed(env: Env, prog: Program, rta: Rta.Program, types: Types, skip: iset<FuncId>)
    requires SameProgram(env, prog, rta, types, skip)
    ensures JointClosed(env, prog, AllBut(skip, iset{}), AllCovered(env, rta, types, Rta.Least(rta, skip)))
  {
    hide Fits, CallsRecorded, Covered, FilterAgrees, PointersAlike, Rta.Least, Involves, Reached, Closed,
         Rta.UpcastRule, Rta.DynRule, Rta.FnTraitRule, Rta.FnPtrRule, InterEdges, Rta.BodyFound;
    var F := Rta.Least(rta, skip);
    var X := AllCovered(env, rta, types, F);
    Rta.LeastIsClosed(rta, skip);
    CoveredIsClosed(env, rta, types, F);
    forall f | f !in skip && Reached(prog, X, f) ensures FunctionIn(prog, X, f) {
      ReachedIsReached(env, prog, rta, types, F, X, f);
      assert BodyAgrees(env, prog, rta, types, F, f);
      if prog.body(f).Some? {
        BodyCovered(env, rta, types, F, prog.body(f).value, f);
        EdgesCovered(env, prog, rta, types, F, f);
      }
    }
    forall c ensures CallIn(prog, X, c) {
      CallEdgesCovered(env, prog, rta, types, F, c);
    }
  }

  lemma EdgesCovered(env: Env, prog: Program, rta: Rta.Program, types: Types, F: Facts, f: FuncId)
    requires forall g, e :: Involves(prog, f, g) && e in prog.edgesOf(g) ==> EdgeFits(rta, types, F, e)
    ensures EdgesIn(prog, AllCovered(env, rta, types, F), f)
  {
    hide Involves, EdgeFits;
  }

  lemma CallEdgesCovered(env: Env, prog: Program, rta: Rta.Program, types: Types, F: Facts, c: Call)
    ensures CallIn(prog, AllCovered(env, rta, types, F), c)
  {
    InterEdgesDirect(prog, c);
  }

  /** The call graph of rapid type analysis holds every call, ordinary or special, and every reached function of
      the joint fixpoint of the pointer analysis. */
  lemma CallGraphIsCovered(env: Env, prog: Program, rta: Rta.Program, types: Types, skip: iset<FuncId>)
    requires SameProgram(env, prog, rta, types, skip)
    ensures var J := JointLeast(env, prog, AllBut(skip, iset{}), iset{});
      var F := Rta.Least(rta, skip);
      && (forall c :: Called(c) in J ==> Rta.CallIn(F, BaseOf(c.site), c.callee))
      && (forall c :: Special(c) in J ==> Rta.Calls(BaseOf(c.site), c.callee) in F)
      && (forall f :: Reached(prog, J, f) ==> Rta.Reach(f) in F)
  {
    hide JointClosed, Reached, Fits, EdgeFits, SiteCovered, FilterAgrees, PointersAlike, BodyAgrees, Rta.Least, JointLeast,
         Rta.UpcastRule, Rta.DynRule, Rta.FnTraitRule, Rta.FnPtrRule, Rta.EdgeRule, Rta.BodyFound;
    var F := Rta.Least(rta, skip);
    var J := JointLeast(env, prog, AllBut(skip, iset{}), iset{});
    CoveredIsJointlyClosed(env, prog, rta, types, skip);
    JointLeastIsBelow(env, prog, AllBut(skip, iset{}), iset{}, AllCovered(env, rta, types, F));
    Rta.LeastIsClosed(rta, skip);
    forall f | Reached(prog, J, f) ensures Rta.Reach(f) in F {
      ReachedIsReached(env, prog, rta, types, F, J, f);
    }
  }

  /** The same for what the driver ends with, in whatever order each analysis took its functions, as long as no
      function that the driver entered was passed over by rapid type analysis and nothing strayed. */
  lemma DriverIsCovered(env: Env, prog: Program, d: Drive, rta: Rta.Program, types: Types, skip: iset<FuncId>)
    requires Core(env, prog, d) && d.past.stray == iset{} && d.past.entered !! skip
    requires SameProgram(env, prog, rta, types, skip)
    ensures var F := Rta.Least(rta, skip);
      && (forall c :: Called(c) in Items(d.s) ==> Rta.CallIn(F, BaseOf(c.site), c.callee))
      && (forall c :: Special(c) in Items(d.s) ==> Rta.Calls(BaseOf(c.site), c.callee) in F)
      && (forall f :: Reached(prog, Items(d.s), f) ==> Rta.Reach(f) in F)
  {
    hide Core, SameProgram, Reached, JointLeast, Items, Rta.Least, Rta.CallIn;
    var J := JointLeast(env, prog, AllBut(skip, iset{}), iset{});
    ExitIsBelow(env, prog, d);
    JointLeastMonotone(env, prog, Scope(d.past.entered, d.past.wired), AllBut(skip, iset{}), iset{}, iset{});
    CallGraphIsCovered(env, prog, rta, types, skip);
    forall f | Reached(prog, Items(d.s), f) ensures Reached(prog, J, f) {
      ReachedMonotone(prog, Items(d.s), J, f);
    }
  }
}
