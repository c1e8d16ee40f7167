/** What the call handlers of one node do: every object of the node is resolved at every call site
    attached to it, and a function pointer behind a `dyn Fn*` object gets a call site of its own. */
module SolverCalls {
  import opened Options
  import opened Paths
  import opened Constraints
  import opened Solver
  import opened SolverSteps

  type Target = (CallSite, Path) -> Option<Call>

  lemma {:induction false} CallOnListed(target: Target, sites: seq<CallSite>, c: CallSite, o: Path)
    requires c in sites && target(c, o).Some?
    ensures target(c, o).value in CallsOn(target, sites, o)
  {
    if c != sites[0] {
      CallOnListed(target, sites[1..], c, o);
    }
  }

  lemma {:induction false} CallOnOrigin(target: Target, sites: seq<CallSite>, o: Path, k: Call) returns (c: CallSite)
    requires k in CallsOn(target, sites, o)
    ensures c in sites && target(c, o) == Some(k)
  {
    if target(sites[0], o) == Some(k) {
      c := sites[0];
    } else {
      c := CallOnOrigin(target, sites[1..], o, k);
    }
  }

  /** Every resolved pair of a site and an object is listed ... */
  lemma {:induction false} CallListed(target: Target, sites: seq<CallSite>, os: seq<Path>, c: CallSite, o: Path)
    requires c in sites && o in os && target(c, o).Some?
    ensures target(c, o).value in CallsFor(target, sites, os)
  {
    if o == os[0] {
      CallOnListed(target, sites, c, o);
    } else {
      CallListed(target, sites, os[1..], c, o);
    }
  }

  /** ... and nothing else is. */
  lemma {:induction false} CallOrigin(target: Target, sites: seq<CallSite>, os: seq<Path>, k: Call)
    returns (c: CallSite, o: Path)
    requires k in CallsFor(target, sites, os)
    ensures c in sites && o in os && target(c, o) == Some(k)
  {
    if k in CallsOn(target, sites, os[0]) {
      o := os[0];
      c := CallOnOrigin(target, sites, o, k);
    } else {
      c, o := CallOrigin(target, sites, os[1..], k);
    }
  }

  lemma GrowsReflexive(env: Env, s: State)
    ensures Grows(env, s, s)
  {
  }

  /** Adding calls only is growth. */
  lemma MoreCallsGrow(env: Env, s: State, calls: seq<Call>, instances: seq<Call>)
    ensures Grows(env, s, s.(newCalls := s.newCalls + calls, newInstances := s.newInstances + instances))
  {
  }

  lemma MoreCallsSound(s: State, calls: seq<Call>, instances: seq<Call>, X: iset<Item>)
    requires Items(s) <= X
    requires forall k :: k in calls || k in instances ==> Called(k) in X
    ensures Items(s.(newCalls := s.newCalls + calls, newInstances := s.newInstances + instances)) <= X
  {
  }

  lemma DynamicMeaning(env: Env, s: State, n: Path)
    requires OrderOk(env)
    ensures var t := HandleDynamic(env, s, n);
      && Grows(env, s, t)
      && t == s.(newInstances := t.newInstances)
      && (forall c, o :: c in Get(s.dynSites, n) && o in Get(s.diff, n) && env.dynTarget(c, o).Some? ==>
            InCalls(t, env.dynTarget(c, o).value))
  {
    var sites, os := env.siteOrder(s.clock, DynSite, n, Get(s.dynSites, n)), env.order(s.clock, n, Get(s.diff, n));
    MoreCallsGrow(env, s, [], CallsFor(env.dynTarget, sites, os));
    assert s.newCalls + [] == s.newCalls;
    forall c, o | c in Get(s.dynSites, n) && o in Get(s.diff, n) && env.dynTarget(c, o).Some?
      ensures env.dynTarget(c, o).value in CallsFor(env.dynTarget, sites, os)
    {
      CallListed(env.dynTarget, sites, os, c, o);
    }
  }

  lemma DynamicCallSound(env: Env, s: State, n: Path, X: iset<Item>, k: Call)
    requires OrderOk(env) && Items(s) <= X && Closed(env, X)
    requires k in CallsFor(env.dynTarget, env.siteOrder(s.clock, DynSite, n, Get(s.dynSites, n)), env.order(s.clock, n, Get(s.diff, n)))
    ensures Called(k) in X
  {
    hide CallsFor, RespectsEdges, RespectsFnptr, RespectsFntrait;
    var c, o := CallOrigin(env.dynTarget, env.siteOrder(s.clock, DynSite, n, Get(s.dynSites, n)), env.order(s.clock, n, Get(s.diff, n)), k);
    assert Pts(n, o) in Items(s) && Site(DynSite, n, c) in Items(s);
    assert Respects(env, X, n, o);
  }

  lemma DynamicSound(env: Env, s: State, n: Path, X: iset<Item>)
    requires OrderOk(env) && Items(s) <= X && Closed(env, X)
    ensures Items(HandleDynamic(env, s, n)) <= X
  {
    hide OrderOk, Closed, Items, CallsFor;
    var calls := CallsFor(env.dynTarget, env.siteOrder(s.clock, DynSite, n, Get(s.dynSites, n)), env.order(s.clock, n, Get(s.diff, n)));
    forall k | k in calls ensures Called(k) in X {
      DynamicCallSound(env, s, n, X, k);
    }
    MoreCallsSound(s, [], calls, X);
    assert s.newCalls + [] == s.newCalls;
  }

  lemma FnptrMeaning(env: Env, s: State, n: Path)
    requires OrderOk(env)
    ensures var t := HandleFnptr(env, s, n);
      && Grows(env, s, t)
      && t == s.(newCalls := t.newCalls)
      && (forall c, o :: c in Get(s.fnptrSites, n) && o in Get(s.diff, n) && env.fnTarget(c, o).Some? ==>
            InCalls(t, env.fnTarget(c, o).value))
  {
    var sites, os := env.siteOrder(s.clock, FnPtrSite, n, Get(s.fnptrSites, n)), env.order(s.clock, n, Get(s.diff, n));
    MoreCallsGrow(env, s, CallsFor(env.fnTarget, sites, os), []);
    assert s.newInstances + [] == s.newInstances;
    forall c, o | c in Get(s.fnptrSites, n) && o in Get(s.diff, n) && env.fnTarget(c, o).Some?
      ensures env.fnTarget(c, o).value in CallsFor(env.fnTarget, sites, os)
    {
      CallListed(env.fnTarget, sites, os, c, o);
    }
  }

  lemma FnptrCallSound(env: Env, s: State, n: Path, X: iset<Item>, k: Call)
    requires OrderOk(env) && Items(s) <= X && Closed(env, X)
    requires k in CallsFor(env.fnTarget, env.siteOrder(s.clock, FnPtrSite, n, Get(s.fnptrSites, n)), env.order(s.clock, n, Get(s.diff, n)))
    ensures Called(k) in X
  {
    hide CallsFor, RespectsEdges, RespectsDyn, RespectsFntrait;
    var c, o := CallOrigin(env.fnTarget, env.siteOrder(s.clock, FnPtrSite, n, Get(s.fnptrSites, n)),
                           env.order(s.clock, n, Get(s.diff, n)), k);
    assert Pts(n, o) in Items(s) && Site(FnPtrSite, n, c) in Items(s);
    assert Respects(env, X, n, o);
  }

  lemma FnptrSound(env: Env, s: State, n: Path, X: iset<Item>)
    requires OrderOk(env) && Items(s) <= X && Closed(env, X)
    ensures Items(HandleFnptr(env, s, n)) <= X
  {
    hide OrderOk, Closed, Items, CallsFor;
    var calls := CallsFor(env.fnTarget, env.siteOrder(s.clock, FnPtrSite, n, Get(s.fnptrSites, n)), env.order(s.clock, n, Get(s.diff, n)));
    forall k | k in calls ensures Called(k) in X {
      FnptrCallSound(env, s, n, X, k);
    }
    MoreCallsSound(s, calls, [], X);
    assert s.newInstances + [] == s.newInstances;
  }

  // ----- dyn Fn* objects

  /** The calls reported for a new function-pointer site are those of all facts of the pointer. */
  lemma AttachCalls(env: Env, s: State, f: CallSite, o: Path, k: Call)
    requires OrderOk(env)
    ensures k in CallsFor(env.fnTarget, [f], env.order(s.clock, o, Get(s.propa, o)))
          + CallsFor(env.fnTarget, [f], env.order(s.clock, o, Get(s.diff, o)))
        <==> exists p :: p in PtsOf(s, o) && env.fnTarget(f, p) == Some(k)
  {
    var before, now := env.order(s.clock, o, Get(s.propa, o)), env.order(s.clock, o, Get(s.diff, o));
    if k in CallsFor(env.fnTarget, [f], before) {
      var c, p := CallOrigin(env.fnTarget, [f], before, k);
    } else if k in CallsFor(env.fnTarget, [f], now) {
      var c, p := CallOrigin(env.fnTarget, [f], now, k);
    }
    if exists p :: p in PtsOf(s, o) && env.fnTarget(f, p) == Some(k) {
      var p :| p in PtsOf(s, o) && env.fnTarget(f, p) == Some(k);
      CallListed(env.fnTarget, [f], if p in Get(s.propa, o) then before else now, f, p);
    }
  }

  lemma AttachCallsGrow(env: Env, s: State, f: CallSite, o: Path)
    requires OrderOk(env)
    ensures CallsGrow(env, s, AttachFnptr(env, s, f, o))
  {
    hide OrderOk;
    var t := AttachFnptr(env, s, f, o);
    forall v, k | k in Get(t.fnptrSites, v) && k !in Get(s.fnptrSites, v)
      ensures Reported(env, s, t, v, k)
    {
      assert v == o && k == f;
      forall p | p in PtsOf(s, o) && env.fnTarget(f, p).Some?
        ensures env.fnTarget(f, p).value in t.newCalls
      {
        AttachCalls(env, s, f, o, env.fnTarget(f, p).value);
      }
    }
  }

  lemma AttachGrows(env: Env, s: State, f: CallSite, o: Path)
    requires OrderOk(env)
    ensures Grows(env, s, AttachFnptr(env, s, f, o))
  {
    hide CallsGrow, CallsFor, OrderOk;
    AttachCallsGrow(env, s, f, o);
  }

  lemma AttachCallSound(env: Env, s: State, f: CallSite, o: Path, X: iset<Item>, p: Path)
    requires Items(s) <= X && Closed(env, X) && Site(FnPtrSite, o, f) in X
    requires p in PtsOf(s, o) && env.fnTarget(f, p).Some?
    ensures Called(env.fnTarget(f, p).value) in X
  {
    hide RespectsEdges, RespectsDyn, RespectsFntrait;
    assert Pts(o, p) in Items(s);
    assert Respects(env, X, o, p);
  }

  lemma AttachSound(env: Env, s: State, f: CallSite, o: Path, X: iset<Item>)
    requires OrderOk(env) && Items(s) <= X && Closed(env, X) && Site(FnPtrSite, o, f) in X
    ensures Items(AttachFnptr(env, s, f, o)) <= X
  {
    hide OrderOk, Closed, Items, CallsFor;
    var calls := CallsFor(env.fnTarget, [f], env.order(s.clock, o, Get(s.propa, o)))
      + CallsFor(env.fnTarget, [f], env.order(s.clock, o, Get(s.diff, o)));
    forall k | k in calls ensures Called(k) in X {
      AttachCalls(env, s, f, o, k);
      var p :| p in PtsOf(s, o) && env.fnTarget(f, p) == Some(k);
      AttachCallSound(env, s, f, o, X, p);
    }
    MoreCallsSound(s, calls, [], X);
    var u := s.(newCalls := s.newCalls + calls);
    assert s.newInstances + [] == s.newInstances;
    AttachSiteSound(u, f, o, X);
  }

  lemma AttachSiteSound(s: State, f: CallSite, o: Path, X: iset<Item>)
    requires Items(s) <= X && Site(FnPtrSite, o, f) in X
    ensures Items(s.(fnptrSites := s.fnptrSites[o := Get(s.fnptrSites, o) + {f}])) <= X
  {
  }

  lemma TraitStepMeaning(env: Env, s: State, c: CallSite, o: Path)
    requires OrderOk(env)
    ensures var t := TraitStep(env, s, c, o);
      && Grows(env, s, t)
      && t == s.(newCalls := t.newCalls, newInstances := t.newInstances, fnptrSites := t.fnptrSites)
      && RespectsTrait(Items(t), o, env.traitTarget(c, o))
      && match env.traitTarget(c, o)
         case Resolved(call) => t == s.(newCalls := s.newCalls + [call])
         case ResolvedInstance(call) => t == s.(newInstances := s.newInstances + [call])
         case FnPtrObject(f) => f in Get(t.fnptrSites, o) && (f !in Get(s.fnptrSites, o) ==> Reported(env, s, t, o, f))
         case Unresolved => t == s
  {
    hide OrderOk, CallsFor;
    match env.traitTarget(c, o)
    case Resolved(call) =>
      MoreCallsGrow(env, s, [call], []);
      assert s.newInstances + [] == s.newInstances;
      assert call in TraitStep(env, s, c, o).newCalls;
    case ResolvedInstance(call) =>
      MoreCallsGrow(env, s, [], [call]);
      assert s.newCalls + [] == s.newCalls;
      assert call in TraitStep(env, s, c, o).newInstances;
    case FnPtrObject(f) => AttachGrows(env, s, f, o);
    case Unresolved => GrowsReflexive(env, s);
  }

  lemma TraitStepSound(env: Env, s: State, c: CallSite, o: Path, n: Path, X: iset<Item>)
    requires OrderOk(env) && Items(s) <= X && Closed(env, X)
    requires Pts(n, o) in X && Site(FnTraitSite, n, c) in X
    ensures Items(TraitStep(env, s, c, o)) <= X
  {
    assert Respects(env, X, n, o);
    assert RespectsTrait(X, o, env.traitTarget(c, o));
    match env.traitTarget(c, o)
    case Resolved(call) =>
      MoreCallsSound(s, [call], [], X);
      assert s.newInstances + [] == s.newInstances;
    case ResolvedInstance(call) =>
      MoreCallsSound(s, [], [call], X);
      assert s.newCalls + [] == s.newCalls;
    case FnPtrObject(f) => AttachSound(env, s, f, o, X);
    case Unresolved =>
  }

  lemma {:induction false} TraitOnMeaning(env: Env, s: State, sites: seq<CallSite>, o: Path)
    requires OrderOk(env)
    ensures var t := TraitOn(env, s, sites, o);
      && Grows(env, s, t)
      && t == s.(newCalls := t.newCalls, newInstances := t.newInstances, fnptrSites := t.fnptrSites)
      && (forall c :: c in sites ==> RespectsTrait(Items(t), o, env.traitTarget(c, o)))
    decreases |sites|
  {
    if sites == [] {
      GrowsReflexive(env, s);
    } else {
      var u := TraitStep(env, s, sites[0], o);
      TraitStepMeaning(env, s, sites[0], o);
      TraitOnMeaning(env, u, sites[1..], o);
      var t := TraitOn(env, u, sites[1..], o);
      GrowsTransitive(env, s, u, t);
      ItemsGrow(env, u, t);
      forall c | c in sites ensures RespectsTrait(Items(t), o, env.traitTarget(c, o)) {
        if c == sites[0] {
          assert RespectsTrait(Items(u), o, env.traitTarget(c, o));
        } else {
          assert c in sites[1..];
        }
      }
    }
  }

  lemma {:induction false} TraitAllMeaning(env: Env, s: State, sites: seq<CallSite>, os: seq<Path>)
    requires OrderOk(env)
    ensures var t := TraitAll(env, s, sites, os);
      && Grows(env, s, t)
      && t == s.(newCalls := t.newCalls, newInstances := t.newInstances, fnptrSites := t.fnptrSites)
      && (forall c, o :: c in sites && o in os ==> RespectsTrait(Items(t), o, env.traitTarget(c, o)))
    decreases |os|
  {
    if os == [] {
      GrowsReflexive(env, s);
    } else {
      var u := TraitOn(env, s, sites, os[0]);
      TraitOnMeaning(env, s, sites, os[0]);
      TraitAllMeaning(env, u, sites, os[1..]);
      var t := TraitAll(env, u, sites, os[1..]);
      GrowsTransitive(env, s, u, t);
      ItemsGrow(env, u, t);
      forall c, o | c in sites && o in os ensures RespectsTrait(Items(t), o, env.traitTarget(c, o)) {
        if o == os[0] {
          assert RespectsTrait(Items(u), o, env.traitTarget(c, o));
        } else {
          assert o in os[1..];
        }
      }
    }
  }

  lemma {:induction false} TraitOnSound(env: Env, s: State, sites: seq<CallSite>, o: Path, n: Path, X: iset<Item>)
    requires OrderOk(env) && Items(s) <= X && Closed(env, X)
    requires Pts(n, o) in X && forall c :: c in sites ==> Site(FnTraitSite, n, c) in X
    ensures Items(TraitOn(env, s, sites, o)) <= X
    decreases |sites|
  {
    if sites != [] {
      TraitStepSound(env, s, sites[0], o, n, X);
      TraitOnSound(env, TraitStep(env, s, sites[0], o), sites[1..], o, n, X);
    }
  }

  lemma {:induction false} TraitAllSound(env: Env, s: State, sites: seq<CallSite>, os: seq<Path>, n: Path, X: iset<Item>)
    requires OrderOk(env) && Items(s) <= X && Closed(env, X)
    requires forall o :: o in os ==> Pts(n, o) in X
    requires forall c :: c in sites ==> Site(FnTraitSite, n, c) in X
    ensures Items(TraitAll(env, s, sites, os)) <= X
    decreases |os|
  {
    if os != [] {
      TraitOnSound(env, s, sites, os[0], n, X);
      TraitAllSound(env, TraitOn(env, s, sites, os[0]), sites, os[1..], n, X);
    }
  }
}
