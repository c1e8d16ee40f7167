/** One turn of the solver: what processing a node achieves, what it keeps, and when it loses facts. */
module SolverNode {
  import opened Paths
  import opened Constraints
  import opened Solver
  import opened SolverSteps
  import opened SolverCalls

  lemma DirectMeaning(env: Env, s: State, n: Path)
    ensures var t := HandleDirect(env, s, n);
      && Grows(env, s, t) && Get(t.diff, n) == Get(s.diff, n) && t.edges == s.edges
      && (forall e, o :: e in s.edges && e.src == n && e.kind.Direct? && o in Get(s.diff, n) && env.pass(n, e.dst, o)
            ==> o in PtsOf(t, e.dst))
  {
    SendAllMeaning(env, s, Pick(s.edges, DirectOut, n), n);
  }

  lemma OffsetMeaning(env: Env, s: State, n: Path)
    ensures var t := HandleOffset(env, s, n);
      && Grows(env, s, t) && Get(t.diff, n) == Get(s.diff, n) && t.edges == s.edges
      && (forall e, o :: e in s.edges && e.src == n && e.kind.Offset? && o in Get(s.diff, n) && env.pass(n, e.dst, o)
            ==> o in PtsOf(t, e.dst))
  {
    SendAllMeaning(env, s, Pick(s.edges, OffsetOut, n), n);
  }

  lemma AllInducedDirect(es: seq<Edge>, os: seq<Path>)
    requires forall e :: e in es ==> e.kind.Load? || e.kind.Store?
    ensures forall f :: f in AllInduced(es, os) ==> f.kind.Direct?
  {
    AllInducedMember(es, os);
    forall f | f in AllInduced(es, os) ensures f.kind.Direct? {
      var e, o :| e in es && o in os && f == Induced(e, o);
    }
  }

  lemma LoadMeaning(env: Env, s: State, n: Path, os: seq<Path>)
    ensures var t := HandleLoads(env, s, n, os);
      && Grows(env, s, t)
      && (forall e, o :: e in s.edges && e.src == n && e.kind.Load? && o in os ==> Induced(e, o) in t.edges)
      && ((forall e :: e in s.edges && e.src == n && e.kind.Load? ==> e.dst != n) ==> Get(t.diff, n) == Get(s.diff, n))
  {
    var es := Pick(s.edges, LoadOut, n);
    AllInducedDirect(es, os);
    AllInducedMember(es, os);
    InduceAllMeaning(env, s, AllInduced(es, os));
    forall e, o | e in s.edges && e.src == n && e.kind.Load? && o in os
      ensures Induced(e, o) in AllInduced(es, os)
    {
      assert e in es;
    }
    if forall e :: e in s.edges && e.src == n && e.kind.Load? ==> e.dst != n {
      forall f | f in AllInduced(es, os) ensures f.dst != n {
        var e, o :| e in es && o in os && f == Induced(e, o);
      }
    }
  }

  lemma StoreMeaning(env: Env, s: State, n: Path, os: seq<Path>)
    ensures var t := HandleStores(env, s, n, os);
      && Grows(env, s, t)
      && (forall e, o :: e in s.edges && e.dst == n && e.kind.Store? && o in os ==> Induced(e, o) in t.edges)
      && ((forall e, o :: e in s.edges && e.dst == n && e.kind.Store? && o in os ==> Induced(e, o).dst != n)
            ==> Get(t.diff, n) == Get(s.diff, n))
  {
    var es := Pick(s.edges, StoreIn, n);
    AllInducedDirect(es, os);
    AllInducedMember(es, os);
    InduceAllMeaning(env, s, AllInduced(es, os));
    forall e, o | e in s.edges && e.dst == n && e.kind.Store? && o in os
      ensures Induced(e, o) in AllInduced(es, os)
    {
      assert e in es;
    }
    if forall e, o :: e in s.edges && e.dst == n && e.kind.Store? && o in os ==> Induced(e, o).dst != n {
      forall f | f in AllInduced(es, os) ensures f.dst != n {
        var e, o :| e in es && o in os && f == Induced(e, o);
        assert e in s.edges;
      }
    }
  }

  lemma GepMeaning(env: Env, s: State, n: Path)
    ensures var t := HandleGep(s, n);
      && Grows(env, s, t) && t.edges == s.edges
      && (forall e, o :: e in s.edges && e.src == n && e.kind.Gep? && o in Get(s.diff, n) ==>
            AppendProjection(o, e.kind.proj) in PtsOf(t, e.dst))
      && ((forall e :: e in s.edges && e.src == n && e.kind.Gep? ==> e.dst != n) ==> Get(t.diff, n) == Get(s.diff, n))
  {
    GepAllMeaning(env, s, Pick(s.edges, GepOut, n), Get(s.diff, n));
  }

  lemma FntraitMeaning(env: Env, s: State, n: Path)
    requires OrderOk(env)
    ensures var t := HandleFntrait(env, s, n);
      && Grows(env, s, t) && t.diff == s.diff
      && (forall c, o :: c in Get(s.fntraitSites, n) && o in Get(s.diff, n) ==>
            RespectsTrait(Items(t), o, env.traitTarget(c, o)))
  {
    TraitAllMeaning(env, s, env.siteOrder(s.clock, FnTraitSite, n, Get(s.fntraitSites, n)), env.order(s.clock, n, Get(s.diff, n)));
  }

  /** A node feeds itself when processing it may hand it a fact after its direct edges were served. */
  ghost predicate SelfFeeds(s: State, n: Path)
  {
    exists e :: e in s.edges && e.dst == n &&
      ((e.kind.Load? && e.src == n) || (e.kind.Gep? && e.src == n)
       || (e.kind.Store? && exists o :: o in Get(s.diff, n) && AppendProjection(o, e.kind.proj) == n))
  }

  // The intermediate states of Handle.
  function S1(env: Env, s: State, n: Path): State { HandleDirect(env, s, n) }
  function S2(env: Env, s: State, n: Path): State
  {
    HandleLoads(env, S1(env, s, n), n, env.order(S1(env, s, n).clock, n, Get(S1(env, s, n).diff, n)))
  }

  function S3(env: Env, s: State, n: Path): State
  {
    HandleStores(env, S2(env, s, n), n, env.order(S1(env, s, n).clock, n, Get(S1(env, s, n).diff, n)))
  }

  function S4(env: Env, s: State, n: Path): State { HandleGep(S3(env, s, n), n) }
  function S5(env: Env, s: State, n: Path): State { HandleOffset(env, S4(env, s, n), n) }
  function S6(env: Env, s: State, n: Path): State { HandleDynamic(env, S5(env, s, n), n) }
  function S7(env: Env, s: State, n: Path): State { HandleFnptr(env, S6(env, s, n), n) }
  function S8(env: Env, s: State, n: Path): State { HandleFntrait(env, S7(env, s, n), n) }

  lemma EdgePhasesGrow(env: Env, s: State, n: Path)
    requires OrderOk(env)
    ensures Grows(env, s, S1(env, s, n)) && Grows(env, S1(env, s, n), S2(env, s, n))
    ensures Grows(env, S2(env, s, n), S3(env, s, n)) && Grows(env, S3(env, s, n), S4(env, s, n))
    ensures Grows(env, S4(env, s, n), S5(env, s, n))
    ensures Grows(env, s, S2(env, s, n)) && Grows(env, s, S3(env, s, n)) && Grows(env, s, S4(env, s, n)) && Grows(env, s, S5(env, s, n))
  {
    var s1, s2, s3, s4, s5 := S1(env, s, n), S2(env, s, n), S3(env, s, n), S4(env, s, n), S5(env, s, n);
    var os := env.order(s1.clock, n, Get(s1.diff, n));
    DirectMeaning(env, s, n);
    LoadMeaning(env, s1, n, os);
    StoreMeaning(env, s2, n, os);
    GepMeaning(env, s3, n);
    OffsetMeaning(env, s4, n);
    GrowsTransitive(env, s, s1, s2);
    GrowsTransitive(env, s, s2, s3);
    GrowsTransitive(env, s, s3, s4);
    GrowsTransitive(env, s, s4, s5);
  }

  lemma PhasesGrow(env: Env, s: State, n: Path)
    requires OrderOk(env)
    ensures Grows(env, s, S8(env, s, n))
    ensures Grows(env, S3(env, s, n), S8(env, s, n)) && Grows(env, S5(env, s, n), S8(env, s, n))
    ensures Grows(env, S6(env, s, n), S8(env, s, n)) && Grows(env, S7(env, s, n), S8(env, s, n))
    ensures Grows(env, S1(env, s, n), S8(env, s, n)) && Grows(env, S4(env, s, n), S8(env, s, n))
    ensures Grows(env, S2(env, s, n), S8(env, s, n))
    ensures S5(env, s, n).diff == S8(env, s, n).diff && S5(env, s, n).edges == S8(env, s, n).edges
  {
    var s1, s2, s3, s4 := S1(env, s, n), S2(env, s, n), S3(env, s, n), S4(env, s, n);
    var s5, s6, s7, s8 := S5(env, s, n), S6(env, s, n), S7(env, s, n), S8(env, s, n);
    EdgePhasesGrow(env, s, n);
    DynamicMeaning(env, s5, n);
    FnptrMeaning(env, s6, n);
    FntraitMeaning(env, s7, n);
    TraitAllMeaning(env, s7, env.siteOrder(s7.clock, FnTraitSite, n, Get(s7.fntraitSites, n)), env.order(s7.clock, n, Get(s7.diff, n)));
    GrowsTransitive(env, s6, s7, s8);
    GrowsTransitive(env, s5, s6, s8);
    GrowsTransitive(env, s4, s5, s8);
    GrowsTransitive(env, s3, s4, s8);
    GrowsTransitive(env, s2, s3, s8);
    GrowsTransitive(env, s1, s2, s8);
    GrowsTransitive(env, s, s1, s8);
  }

  /** The handlers of a node only add to the state, and serve whatever they add. */
  lemma HandleGrows(env: Env, s: State, n: Path)
    requires OrderOk(env)
    ensures Grows(env, s, S8(env, s, n))
  {
    hide S8, Grows;
    PhasesGrow(env, s, n);
  }

  lemma ServeFlow(env: Env, s: State, s1: State, s4: State, s5: State, t: State, n: Path, o: Path)
    requires Grows(env, s, t) && Grows(env, s1, t) && Grows(env, s, s4) && Grows(env, s5, t)
    requires s1 == HandleDirect(env, s, n) && s5 == HandleOffset(env, s4, n)
    requires o in Get(s.diff, n)
    ensures RespectsFlow(env, Items(t), n, o)
  {
    hide CallsGrow, WorklistGrows, SendAll, Pick;
    DirectMeaning(env, s, n);
    OffsetMeaning(env, s4, n);
    forall e | Arc(e) in Items(t) && e.src == n && Flows(e.kind) && env.pass(n, e.dst, o)
      ensures Pts(e.dst, o) in Items(t)
    {
      if e in s.edges {
        if e.kind.Offset? {
          assert e in s4.edges && o in Get(s4.diff, n);
          assert o in PtsOf(s5, e.dst);
        } else {
          assert o in PtsOf(s1, e.dst);
        }
      } else {
        assert Delivered(env, s, t, e);
      }
    }
  }

  lemma ServeLoadStore(env: Env, s1: State, s2: State, s3: State, n: Path, o: Path, os: seq<Path>)
    requires s2 == HandleLoads(env, s1, n, os) && s3 == HandleStores(env, s2, n, os)
    requires Grows(env, s1, s2) && Grows(env, s2, s3) && o in os
    ensures RespectsLoad(Items(s2), n, o) && RespectsStore(Items(s3), n, o)
  {
    LoadMeaning(env, s1, n, os);
    StoreMeaning(env, s2, n, os);
    forall e | Arc(e) in Items(s2) && e.src == n && e.kind.Load?
      ensures Arc(Edge(AppendProjection(o, e.kind.proj), e.dst, Direct)) in Items(s2)
    {
      assert e in s1.edges;
      assert Induced(e, o) in s2.edges;
    }
    forall e | Arc(e) in Items(s3) && e.dst == n && e.kind.Store?
      ensures Arc(Edge(e.src, AppendProjection(o, e.kind.proj), Direct)) in Items(s3)
    {
      assert e in s2.edges;
      assert Induced(e, o) in s3.edges;
    }
  }

  lemma ServeMemory(env: Env, s1: State, s2: State, s3: State, s4: State, t: State, n: Path, o: Path, os: seq<Path>)
    requires s2 == HandleLoads(env, s1, n, os) && s3 == HandleStores(env, s2, n, os) && s4 == HandleGep(s3, n)
    requires Grows(env, s1, s2) && Grows(env, s2, s3)
    requires Grows(env, s2, t) && Grows(env, s3, t) && Grows(env, s4, t)
    requires o in os && o in Get(s3.diff, n)
    ensures RespectsLoad(Items(t), n, o) && RespectsStore(Items(t), n, o) && RespectsGep(Items(t), n, o)
  {
    ServeLoadStore(env, s1, s2, s3, n, o, os);
    assert RespectsGep(Items(s4), n, o) by {
      GepMeaning(env, s3, n);
    }
    MemoryEdgesKept(env, s2, t);
    MemoryEdgesKept(env, s3, t);
    MemoryEdgesKept(env, s4, t);
    RespectsMemoryKept(Items(s2), Items(t), n, o);
    RespectsMemoryKept(Items(s3), Items(t), n, o);
    RespectsMemoryKept(Items(s4), Items(t), n, o);
  }

  /** After the handlers, every fact that n had at the start has its consequences along the edges. */
  lemma HandleServesEdges(env: Env, s: State, n: Path, o: Path)
    requires OrderOk(env) && o in Get(s.diff, n)
    ensures RespectsEdges(env, Items(S8(env, s, n)), n, o)
  {
    var s1, s2, s3, s4 := S1(env, s, n), S2(env, s, n), S3(env, s, n), S4(env, s, n);
    var t := S8(env, s, n);
    EdgePhasesGrow(env, s, n);
    PhasesGrow(env, s, n);
    ServeFlow(env, s, s1, s4, S5(env, s, n), t, n, o);
    ServeMemory(env, s1, s2, s3, s4, t, n, o, env.order(s1.clock, n, Get(s1.diff, n)));
  }

  lemma ServeDyn(env: Env, s: State, n: Path, o: Path)
    requires OrderOk(env) && o in Get(s.diff, n)
    ensures RespectsDyn(env, Items(HandleDynamic(env, s, n)), n, o)
  {
    var t := HandleDynamic(env, s, n);
    DynamicMeaning(env, s, n);
    forall c | Site(DynSite, n, c) in Items(t) && env.dynTarget(c, o).Some?
      ensures Called(env.dynTarget(c, o).value) in Items(t)
    {
      assert c in Get(s.dynSites, n);
    }
  }

  lemma ServeFnptr(env: Env, s: State, n: Path, o: Path)
    requires OrderOk(env) && o in Get(s.diff, n)
    ensures RespectsFnptr(env, Items(HandleFnptr(env, s, n)), n, o)
  {
    var t := HandleFnptr(env, s, n);
    FnptrMeaning(env, s, n);
    forall c | Site(FnPtrSite, n, c) in Items(t) && env.fnTarget(c, o).Some?
      ensures Called(env.fnTarget(c, o).value) in Items(t)
    {
      assert c in Get(s.fnptrSites, n);
    }
  }

  lemma ServeFntrait(env: Env, s: State, n: Path, o: Path)
    requires OrderOk(env) && o in Get(s.diff, n)
    ensures RespectsFntrait(env, Items(HandleFntrait(env, s, n)), n, o)
  {
    var t := HandleFntrait(env, s, n);
    FntraitMeaning(env, s, n);
    forall c | Site(FnTraitSite, n, c) in Items(t)
      ensures RespectsTrait(Items(t), o, env.traitTarget(c, o))
    {
      assert c in Get(s.fntraitSites, n);
    }
  }

  /** After the handlers, every fact that n had at the start has been resolved at the calls of n. */
  lemma HandleServesCalls(env: Env, s: State, n: Path, o: Path)
    requires OrderOk(env) && o in Get(s.diff, n)
    ensures RespectsDyn(env, Items(S8(env, s, n)), n, o)
    ensures RespectsFnptr(env, Items(S8(env, s, n)), n, o)
    ensures RespectsFntrait(env, Items(S8(env, s, n)), n, o)
  {
    var s5, s6, s7, t := S5(env, s, n), S6(env, s, n), S7(env, s, n), S8(env, s, n);
    EdgePhasesGrow(env, s, n);
    PhasesGrow(env, s, n);
    DynamicMeaning(env, s5, n);
    FnptrMeaning(env, s6, n);
    assert o in Get(s5.diff, n) && o in Get(s6.diff, n) && o in Get(s7.diff, n);
    ServeDyn(env, s5, n, o);
    RespectsDynKept(env, s6, t, n, o);
    ServeFnptr(env, s6, n, o);
    RespectsFnptrKept(env, s7, t, n, o);
    ServeFntrait(env, s7, n, o);
  }

  /** A node that does not feed itself has the same unpropagated facts after its handlers as before. */
  lemma HandleQuiet(env: Env, s: State, n: Path)
    requires OrderOk(env) && !SelfFeeds(s, n)
    ensures Get(S8(env, s, n).diff, n) == Get(s.diff, n)
  {
    var s1, s2, s3, s4 := S1(env, s, n), S2(env, s, n), S3(env, s, n), S4(env, s, n);
    var os := env.order(s1.clock, n, Get(s1.diff, n));
    EdgePhasesGrow(env, s, n);
    PhasesGrow(env, s, n);
    DirectMeaning(env, s, n);
    LoadMeaning(env, s1, n, os);
    forall e, o | e in s2.edges && e.dst == n && e.kind.Store? && o in os ensures Induced(e, o).dst != n {
      assert e in s.edges && o in Get(s.diff, n);
    }
    StoreMeaning(env, s2, n, os);
    forall e | e in s3.edges && e.kind.Gep? && e.src == n ensures e.dst != n {
      assert e in s.edges;
    }
    GepMeaning(env, s3, n);
    OffsetMeaning(env, s4, n);
  }

  // ----- soundness

  lemma LoadStoreSound(env: Env, s: State, n: Path, os: seq<Path>, X: iset<Item>)
    requires Items(s) <= X && Closed(env, X)
    requires forall o :: o in os ==> Pts(n, o) in X
    ensures Items(HandleLoads(env, s, n, os)) <= X && Items(HandleStores(env, s, n, os)) <= X
  {
    var loads, stores := Pick(s.edges, LoadOut, n), Pick(s.edges, StoreIn, n);
    InducedSound(env, s, loads, n, os, X);
    InduceAllSound(env, s, AllInduced(loads, os), X);
    InducedSound(env, s, stores, n, os, X);
    InduceAllSound(env, s, AllInduced(stores, os), X);
  }

  lemma InducedSound(env: Env, s: State, es: seq<Edge>, n: Path, os: seq<Path>, X: iset<Item>)
    requires Items(s) <= X && Closed(env, X)
    requires forall o :: o in os ==> Pts(n, o) in X
    requires forall e :: e in es ==> e in s.edges && ((e.kind.Load? && e.src == n) || (e.kind.Store? && e.dst == n))
    ensures forall f :: f in AllInduced(es, os) ==> f.kind.Direct? && Arc(f) in X
  {
    AllInducedMember(es, os);
    forall f | f in AllInduced(es, os) ensures f.kind.Direct? && Arc(f) in X {
      var e, o :| e in es && o in os && f == Induced(e, o);
      assert Respects(env, X, n, o);
      assert Arc(e) in Items(s);
    }
  }

  lemma GepSound(env: Env, s: State, n: Path, X: iset<Item>)
    requires Items(s) <= X && Closed(env, X)
    ensures Items(HandleGep(s, n)) <= X
  {
    PointeesSound(s, n, X);
    forall e | e in Pick(s.edges, GepOut, n) ensures Arc(e) in X {
      assert Arc(e) in Items(s);
    }
    GepAllSound(env, s, Pick(s.edges, GepOut, n), Get(s.diff, n), n, X);
  }

  lemma FntraitSound(env: Env, s: State, n: Path, X: iset<Item>)
    requires OrderOk(env) && Items(s) <= X && Closed(env, X)
    ensures Items(HandleFntrait(env, s, n)) <= X
  {
    PointeesSound(s, n, X);
    forall c | c in Get(s.fntraitSites, n) ensures Site(FnTraitSite, n, c) in X {
      assert Site(FnTraitSite, n, c) in Items(s);
    }
    TraitAllSound(env, s, env.siteOrder(s.clock, FnTraitSite, n, Get(s.fntraitSites, n)), env.order(s.clock, n, Get(s.diff, n)), n, X);
  }

  lemma LoadAndStoreSound(env: Env, s: State, n: Path, X: iset<Item>)
    requires OrderOk(env) && Items(s) <= X && Closed(env, X)
    ensures Items(HandleLoadAndStore(env, s, n)) <= X
  {
    var os := env.order(s.clock, n, Get(s.diff, n));
    PointeesSound(s, n, X);
    LoadStoreSound(env, s, n, os, X);
    LoadStoreSound(env, HandleLoads(env, s, n, os), n, os, X);
  }

  lemma SentSound(env: Env, s: State, n: Path, X: iset<Item>)
    requires Items(s) <= X && Closed(env, X)
    ensures Items(HandleDirect(env, s, n)) <= X && Items(HandleOffset(env, s, n)) <= X
  {
    SendAllSound(env, s, Pick(s.edges, DirectOut, n), X);
    SendAllSound(env, s, Pick(s.edges, OffsetOut, n), X);
  }

  /** The handlers stay inside every closed set. */
  lemma HandleSound(env: Env, s: State, n: Path, X: iset<Item>)
    requires OrderOk(env) && Items(s) <= X && Closed(env, X)
    ensures Items(S8(env, s, n)) <= X
  {
    hide Items, Closed, OrderOk, HandleDirect, HandleOffset, HandleGep, HandleDynamic, HandleFnptr, HandleFntrait;
    SentSound(env, s, n, X);
    LoadAndStoreSound(env, S1(env, s, n), n, X);
    GepSound(env, S3(env, s, n), n, X);
    SentSound(env, S4(env, s, n), n, X);
    DynamicSound(env, S5(env, s, n), n, X);
    FnptrSound(env, S6(env, s, n), n, X);
    FntraitSound(env, S7(env, s, n), n, X);
  }

  lemma PointeesSound(s: State, n: Path, X: iset<Item>)
    requires Items(s) <= X
    ensures forall o :: o in Get(s.diff, n) ==> Pts(n, o) in X
  {
  }

  lemma FlushKeepsItems(s: State, n: Path)
    ensures var t := Flush(s, n);
      && Items(t) == Items(s)
      && (forall v :: PtsOf(t, v) == PtsOf(s, v))
      && Get(t.diff, n) == {}
      && (forall v :: v != n ==> Get(t.diff, v) == Get(s.diff, v) && Get(t.propa, v) == Get(s.propa, v))
      && Get(t.propa, n) == PtsOf(s, n)
      && t == s.(diff := t.diff, propa := t.propa)
  {
    var t := Flush(s, n);
    forall v ensures PtsOf(t, v) == PtsOf(s, v) {
    }
    forall i ensures i in Items(t) <==> i in Items(s) {
      match i
      case Pts(v, o) => assert PtsOf(t, v) == PtsOf(s, v);
      case Arc(e) =>
      case Site(k, v, c) =>
      case Called(c) =>
      case Special(c) =>
    }
  }
}
