/** What the handlers of one node do to a state: they only add, they serve every edge that they create,
    and they stay inside every closed set. */
module SolverSteps {
  import opened Paths
  import opened Constraints
  import opened Solver

  // ----- growth

  ghost predicate FactsGrow(s: State, t: State)
  {
    && t.propa == s.propa
    && (forall v :: Get(s.diff, v) <= Get(t.diff, v))
    && (Disjoint(s) ==> Disjoint(t))
  }

  /** Everything that the source of e had in s has reached its target in t. */
  ghost predicate Delivered(env: Env, s: State, t: State, e: Edge)
  {
    forall o :: o in PtsOf(s, e.src) && env.pass(e.src, e.dst, o) ==> o in PtsOf(t, e.dst)
  }

  ghost predicate EdgesGrow(env: Env, s: State, t: State)
  {
    && s.edges <= t.edges
    && (forall e :: e in t.edges && e !in s.edges ==> e.kind.Direct? && Delivered(env, s, t, e))
  }

  /** Everything that v had in s has been reported at the call site c in t. */
  ghost predicate Reported(env: Env, s: State, t: State, v: Path, c: CallSite)
  {
    forall o :: o in PtsOf(s, v) && env.fnTarget(c, o).Some? ==> InCalls(t, env.fnTarget(c, o).value)
  }

  ghost predicate CallsGrow(env: Env, s: State, t: State)
  {
    && t.dynSites == s.dynSites && t.fntraitSites == s.fntraitSites && t.reported == s.reported && t.specials == s.specials
    && s.newCalls <= t.newCalls && s.newInstances <= t.newInstances
    && (forall v :: Get(s.fnptrSites, v) <= Get(t.fnptrSites, v))
    && (forall v, c :: c in Get(t.fnptrSites, v) && c !in Get(s.fnptrSites, v) ==> Reported(env, s, t, v, c))
  }

  /** Nodes are enqueued exactly when they gain facts. */
  ghost predicate WorklistGrows(s: State, t: State)
  {
    && t.addrQueue == s.addrQueue && t.interQueue == s.interQueue
    && s.worklist <= t.worklist
    && (forall v :: Get(t.diff, v) != Get(s.diff, v) ==> v in t.worklist)
    && (t.worklist != s.worklist ==> exists v, o :: o in Get(t.diff, v) && o !in PtsOf(s, v))
  }

  ghost predicate Grows(env: Env, s: State, t: State)
  {
    FactsGrow(s, t) && EdgesGrow(env, s, t) && CallsGrow(env, s, t) && WorklistGrows(s, t)
  }

  lemma GrowsTransitive(env: Env, s: State, t: State, u: State)
    requires Grows(env, s, t) && Grows(env, t, u)
    ensures Grows(env, s, u)
  {
    forall e | e in u.edges && e !in s.edges
      ensures e.kind.Direct? && Delivered(env, s, u, e)
    {
      if e in t.edges {
        assert Delivered(env, s, t, e);
      } else {
        assert Delivered(env, t, u, e);
      }
    }
    forall v, c | c in Get(u.fnptrSites, v) && c !in Get(s.fnptrSites, v)
      ensures Reported(env, s, u, v, c)
    {
      if c in Get(t.fnptrSites, v) {
        assert Reported(env, s, t, v, c);
      } else {
        assert Reported(env, t, u, v, c);
      }
    }
    if u.worklist != s.worklist {
      if t.worklist != s.worklist {
        var v, o :| o in Get(t.diff, v) && o !in PtsOf(s, v);
        assert o in Get(u.diff, v);
      } else {
        var v, o :| o in Get(u.diff, v) && o !in PtsOf(t, v);
        assert o !in PtsOf(s, v);
      }
    }
  }

  lemma ItemsGrow(env: Env, s: State, t: State)
    requires Grows(env, s, t)
    ensures Items(s) <= Items(t)
  {
  }

  /** A fact whose consequences along edges hold in s keeps them in t: new edges are served at once. */
  lemma RespectsFlowKept(env: Env, s: State, t: State, v: Path, o: Path)
    requires Grows(env, s, t) && o in PtsOf(s, v) && RespectsFlow(env, Items(s), v, o)
    ensures RespectsFlow(env, Items(t), v, o)
  {
  }

  /** Only direct edges are ever added while solving. */
  lemma MemoryEdgesKept(env: Env, s: State, t: State)
    requires Grows(env, s, t)
    ensures Items(s) <= Items(t) && SameMemoryEdges(Items(s), Items(t))
  {
  }

  ghost predicate SameMemoryEdges(Y: iset<Item>, X: iset<Item>)
  {
    forall e :: Arc(e) in X && !e.kind.Direct? ==> Arc(e) in Y
  }

  lemma RespectsMemoryKept(Y: iset<Item>, X: iset<Item>, v: Path, o: Path)
    requires Y <= X && SameMemoryEdges(Y, X)
    ensures RespectsLoad(Y, v, o) ==> RespectsLoad(X, v, o)
    ensures RespectsStore(Y, v, o) ==> RespectsStore(X, v, o)
    ensures RespectsGep(Y, v, o) ==> RespectsGep(X, v, o)
  {
  }

  lemma RespectsDynKept(env: Env, s: State, t: State, v: Path, o: Path)
    requires Grows(env, s, t) && RespectsDyn(env, Items(s), v, o)
    ensures RespectsDyn(env, Items(t), v, o)
  {
  }

  lemma RespectsFnptrKept(env: Env, s: State, t: State, v: Path, o: Path)
    requires Grows(env, s, t) && o in PtsOf(s, v) && RespectsFnptr(env, Items(s), v, o)
    ensures RespectsFnptr(env, Items(t), v, o)
  {
    forall c | Site(FnPtrSite, v, c) in Items(t) && env.fnTarget(c, o).Some?
      ensures Called(env.fnTarget(c, o).value) in Items(t)
    {
      if c in Get(s.fnptrSites, v) {
        assert Site(FnPtrSite, v, c) in Items(s);
        assert Called(env.fnTarget(c, o).value) in Items(s);
      } else {
        assert Reported(env, s, t, v, c);
      }
    }
  }

  lemma RespectsFntraitKept(env: Env, s: State, t: State, v: Path, o: Path)
    requires Grows(env, s, t) && RespectsFntrait(env, Items(s), v, o)
    ensures RespectsFntrait(env, Items(t), v, o)
  {
  }

  lemma RespectsKept(env: Env, s: State, t: State, v: Path, o: Path)
    requires Grows(env, s, t) && o in PtsOf(s, v) && Respects(env, Items(s), v, o)
    ensures Respects(env, Items(t), v, o)
  {
    RespectsFlowKept(env, s, t, v, o);
    MemoryEdgesKept(env, s, t);
    RespectsMemoryKept(Items(s), Items(t), v, o);
    RespectsDynKept(env, s, t, v, o);
    RespectsFnptrKept(env, s, t, v, o);
    RespectsFntraitKept(env, s, t, v, o);
  }

  // ----- the primitive step

  lemma AddSetGrows(env: Env, s: State, dst: Path, os: set<Path>)
    ensures var t := AddSet(s, dst, os);
      && Grows(env, s, t)
      && PtsOf(t, dst) == PtsOf(s, dst) + os
      && (forall v :: v != dst ==> Get(t.diff, v) == Get(s.diff, v))
      && t == s.(diff := t.diff, worklist := t.worklist)
      && (os <= PtsOf(s, dst) ==> t == s)
  {
    var added := os - PtsOf(s, dst);
    var t := AddSet(s, dst, os);
    if added != {} {
      var o :| o in added;
      assert o in Get(t.diff, dst) && o !in PtsOf(s, dst);
      assert t.worklist[|t.worklist| - 1] == dst;
      assert dst in t.worklist;
    } else {
      forall o | o in os ensures o in PtsOf(s, dst) {
        assert o !in added;
      }
    }
  }

  lemma AddSetSound(s: State, dst: Path, os: set<Path>, X: iset<Item>)
    requires Items(s) <= X
    requires forall o :: o in os ==> Pts(dst, o) in X
    ensures Items(AddSet(s, dst, os)) <= X
  {
  }

  lemma PropagateSound(env: Env, s: State, e: Edge, full: bool, X: iset<Item>)
    requires Items(s) <= X && Closed(env, X)
    requires e in s.edges && Flows(e.kind)
    ensures Items(Propagate(env, s, e, full)) <= X
  {
    forall o | o in Carried(env, s, e, full) ensures Pts(e.dst, o) in X {
      assert Pts(e.src, o) in Items(s);
      assert Respects(env, X, e.src, o);
      assert Arc(e) in Items(s);
    }
    AddSetSound(s, e.dst, Carried(env, s, e, full), X);
  }

  // ----- sending the new facts of a node

  lemma {:induction false} SendAllMeaning(env: Env, s: State, es: seq<Edge>, n: Path)
    requires forall e :: e in es ==> e.src == n
    ensures var t := SendAll(env, s, es);
      && Grows(env, s, t)
      && t == s.(diff := t.diff, worklist := t.worklist)
      && Get(t.diff, n) == Get(s.diff, n)
      && (forall e, o :: e in es && o in Get(s.diff, n) && env.pass(n, e.dst, o) ==> o in PtsOf(t, e.dst))
    decreases |es|
  {
    if es != [] {
      var e := es[0];
      var u := Propagate(env, s, e, false);
      AddSetGrows(env, s, e.dst, Carried(env, s, e, false));
      SendAllMeaning(env, u, es[1..], n);
      var t := SendAll(env, u, es[1..]);
      GrowsTransitive(env, s, u, t);
      forall f, o | f in es && o in Get(s.diff, n) && env.pass(n, f.dst, o)
        ensures o in PtsOf(t, f.dst)
      {
        if f == e {
          assert o in Carried(env, s, e, false);
          assert o in PtsOf(u, f.dst);
        } else {
          assert f in es[1..];
        }
      }
    }
  }

  lemma {:induction false} SendAllSound(env: Env, s: State, es: seq<Edge>, X: iset<Item>)
    requires Items(s) <= X && Closed(env, X)
    requires forall e :: e in es ==> e in s.edges && Flows(e.kind)
    ensures Items(SendAll(env, s, es)) <= X
    decreases |es|
  {
    if es != [] {
      PropagateSound(env, s, es[0], false, X);
      SendAllSound(env, Propagate(env, s, es[0], false), es[1..], X);
    }
  }

  // ----- inducing edges

  lemma InduceMeaning(env: Env, s: State, e: Edge)
    requires e.kind.Direct?
    ensures var t := Induce(env, s, e);
      && Grows(env, s, t)
      && e in t.edges
      && t == s.(edges := t.edges, diff := t.diff, worklist := t.worklist)
      && (forall v :: v != e.dst ==> Get(t.diff, v) == Get(s.diff, v))
  {
    if e !in s.edges {
      var u := s.(edges := s.edges + [e]);
      var t := Propagate(env, u, e, true);
      AddSetGrows(env, u, e.dst, Carried(env, u, e, true));
      forall f | f in t.edges && f !in s.edges
        ensures f.kind.Direct? && Delivered(env, s, t, f)
      {
        assert f == e;
        assert forall o :: o in PtsOf(s, e.src) && env.pass(e.src, e.dst, o) ==> o in Carried(env, u, e, true);
      }
      if t.worklist != s.worklist {
        var v, o :| o in Get(t.diff, v) && o !in PtsOf(u, v);
        assert o !in PtsOf(s, v);
      }
    } else {
      assert FactsGrow(s, s) && EdgesGrow(env, s, s) && CallsGrow(env, s, s) && WorklistGrows(s, s);
    }
  }

  lemma InduceSound(env: Env, s: State, e: Edge, X: iset<Item>)
    requires Items(s) <= X && Closed(env, X)
    requires e.kind.Direct? && Arc(e) in X
    ensures Items(Induce(env, s, e)) <= X
  {
    if e !in s.edges {
      var u := s.(edges := s.edges + [e]);
      forall i | i in Items(u) ensures i in X {
        assert i in Items(s) || i == Arc(e);
      }
      PropagateSound(env, u, e, true, X);
    }
  }

  lemma {:induction false} InduceAllMeaning(env: Env, s: State, es: seq<Edge>)
    requires forall e :: e in es ==> e.kind.Direct?
    ensures var t := InduceAll(env, s, es);
      && Grows(env, s, t)
      && (forall e :: e in es ==> e in t.edges)
      && t == s.(edges := t.edges, diff := t.diff, worklist := t.worklist)
      && (forall v :: (forall e :: e in es ==> e.dst != v) ==> Get(t.diff, v) == Get(s.diff, v))
    decreases |es|
  {
    if es != [] {
      var u := Induce(env, s, es[0]);
      InduceMeaning(env, s, es[0]);
      InduceAllMeaning(env, u, es[1..]);
      GrowsTransitive(env, s, u, InduceAll(env, u, es[1..]));
      forall v | forall e :: e in es ==> e.dst != v
        ensures Get(InduceAll(env, s, es).diff, v) == Get(s.diff, v)
      {
        assert es[0].dst != v;
      }
    } else {
      assert FactsGrow(s, s) && EdgesGrow(env, s, s) && CallsGrow(env, s, s) && WorklistGrows(s, s);
    }
  }

  lemma {:induction false} InduceAllSound(env: Env, s: State, es: seq<Edge>, X: iset<Item>)
    requires Items(s) <= X && Closed(env, X)
    requires forall e :: e in es ==> e.kind.Direct? && Arc(e) in X
    ensures Items(InduceAll(env, s, es)) <= X
    decreases |es|
  {
    if es != [] {
      InduceSound(env, s, es[0], X);
      InduceAllSound(env, Induce(env, s, es[0]), es[1..], X);
    }
  }

  lemma {:induction false} InducedByMember(e: Edge, os: seq<Path>)
    requires e.kind.Load? || e.kind.Store?
    ensures forall f :: f in InducedBy(e, os) <==> exists o :: o in os && f == Induced(e, o)
  {
    if os != [] {
      InducedByMember(e, os[1..]);
      forall f ensures f in InducedBy(e, os) <==> exists o :: o in os && f == Induced(e, o) {
        if f in InducedBy(e, os[1..]) {
          var o :| o in os[1..] && f == Induced(e, o);
          assert o in os;
        }
        if exists o :: o in os && f == Induced(e, o) {
          var o :| o in os && f == Induced(e, o);
          if o != os[0] {
            assert o in os[1..];
          }
        }
      }
    }
  }

  lemma {:induction false} AllInducedMember(es: seq<Edge>, os: seq<Path>)
    requires forall e :: e in es ==> e.kind.Load? || e.kind.Store?
    ensures forall f :: f in AllInduced(es, os) <==> exists e, o :: e in es && o in os && f == Induced(e, o)
  {
    if es != [] {
      AllInducedMember(es[1..], os);
      InducedByMember(es[0], os);
      forall f ensures f in AllInduced(es, os) <==> exists e, o :: e in es && o in os && f == Induced(e, o) {
        if f in AllInduced(es[1..], os) {
          var e, o :| e in es[1..] && o in os && f == Induced(e, o);
          assert e in es;
        }
        if exists e, o :: e in es && o in os && f == Induced(e, o) {
          var e, o :| e in es && o in os && f == Induced(e, o);
          if e != es[0] {
            assert e in es[1..];
          }
        }
      }
    }
  }

  // ----- field addresses

  lemma {:induction false} GepAllMeaning(env: Env, s: State, es: seq<Edge>, os: set<Path>)
    requires forall e :: e in es ==> e.kind.Gep?
    ensures var t := GepAll(s, es, os);
      && Grows(env, s, t)
      && t == s.(diff := t.diff, worklist := t.worklist)
      && (forall v :: (forall e :: e in es ==> e.dst != v) ==> Get(t.diff, v) == Get(s.diff, v))
      && (forall e, o :: e in es && o in os ==> AppendProjection(o, e.kind.proj) in PtsOf(t, e.dst))
    decreases |es|
  {
    if es != [] {
      var e := es[0];
      var u := AddSet(s, e.dst, AppendAll(os, e.kind.proj));
      AddSetGrows(env, s, e.dst, AppendAll(os, e.kind.proj));
      GepAllMeaning(env, u, es[1..], os);
      var t := GepAll(u, es[1..], os);
      GrowsTransitive(env, s, u, t);
      forall f, o | f in es && o in os ensures AppendProjection(o, f.kind.proj) in PtsOf(t, f.dst) {
        if f == e {
          assert AppendProjection(o, f.kind.proj) in AppendAll(os, e.kind.proj);
          assert AppendProjection(o, f.kind.proj) in PtsOf(u, f.dst);
        } else {
          assert f in es[1..];
        }
      }
      forall v | forall f :: f in es ==> f.dst != v ensures Get(t.diff, v) == Get(s.diff, v) {
        assert es[0].dst != v;
      }
    }
  }

  lemma {:induction false} GepAllSound(env: Env, s: State, es: seq<Edge>, os: set<Path>, n: Path, X: iset<Item>)
    requires Items(s) <= X && Closed(env, X)
    requires forall e :: e in es ==> e.kind.Gep? && e.src == n && Arc(e) in X
    requires forall o :: o in os ==> Pts(n, o) in X
    ensures Items(GepAll(s, es, os)) <= X
    decreases |es|
  {
    if es != [] {
      var e := es[0];
      var qs := AppendAll(os, e.kind.proj);
      forall q | q in qs ensures Pts(e.dst, q) in X {
        var o :| o in os && q == AppendProjection(o, e.kind.proj);
        assert Respects(env, X, n, o);
      }
      AddSetSound(s, e.dst, qs, X);
      GepAllSound(env, AddSet(s, e.dst, qs), es[1..], os, n, X);
    }
  }
}
