/** Which facts a turn takes without having sent them on: those that the load, store and field-address edges of
    a node bring to the node itself after its direct edges have been served
    (src/pta/propagator/propagator.rs:140-153), told from the state before the turn. */
module Unsent {
  import opened Paths
  import opened Constraints
  import opened Solver
  import opened SolverSteps
  import opened SolverNode
  import opened SolverTheorems

  // ----- inducing edges one after the other

  /** The edge at k is neither in the graph nor before k in the list: inducing the list adds it at k. */
  predicate AddedAt(s: State, es: seq<Edge>, k: nat)
    requires k < |es|
  {
    es[k] !in s.edges && es[k] !in es[..k]
  }

  /** x comes to v along the edges of es at the ascending indices ks, from a node that held it in s. */
  predicate Trail(env: Env, s: State, es: seq<Edge>, ks: seq<nat>, v: Path, x: Path)
    decreases |ks|
  {
    if ks == [] then x in PtsOf(s, v)
    else
      var k := ks[|ks| - 1];
      && k < |es| && es[k].dst == v && AddedAt(s, es, k) && env.pass(es[k].src, v, x)
      && Trail(env, s, es[..k], ks[..|ks| - 1], es[k].src, x)
  }

  ghost predicate Comes(env: Env, s: State, es: seq<Edge>, v: Path, x: Path)
  {
    exists ks :: Trail(env, s, es, ks, v, x)
  }

  lemma {:induction false} InduceAppend(env: Env, s: State, es: seq<Edge>, fs: seq<Edge>)
    ensures InduceAll(env, s, es + fs) == InduceAll(env, InduceAll(env, s, es), fs)
    decreases |es|
  {
    if es == [] {
      assert es + fs == fs;
    } else {
      assert (es + fs)[0] == es[0] && (es + fs)[1..] == es[1..] + fs;
      InduceAppend(env, Induce(env, s, es[0]), es[1..], fs);
    }
  }

  lemma {:induction false} InducedEdges(env: Env, s: State, es: seq<Edge>, f: Edge)
    ensures f in InduceAll(env, s, es).edges <==> f in s.edges || f in es
    decreases |es|
  {
    if es != [] {
      InducedEdges(env, Induce(env, s, es[0]), es[1..], f);
    }
  }

  lemma InducedFact(env: Env, s: State, e: Edge, v: Path, x: Path)
    ensures x in PtsOf(Induce(env, s, e), v) <==>
      x in PtsOf(s, v) || (e.dst == v && e !in s.edges && x in PtsOf(s, e.src) && env.pass(e.src, v, x))
  {
    if e !in s.edges {
      var u := s.(edges := s.edges + [e]);
      AddSetGrows(env, u, e.dst, Carried(env, u, e, true));
    }
  }

  lemma InduceLast(env: Env, s: State, es: seq<Edge>, e: Edge)
    ensures InduceAll(env, s, es + [e]) == Induce(env, InduceAll(env, s, es), e)
  {
    hide Induce;
    InduceAppend(env, s, es, [e]);
  }

  /** Whether a trail is one does not depend on the edges after its last index. */
  lemma LaterEdges(env: Env, s: State, es: seq<Edge>, e: Edge, ks: seq<nat>, v: Path, x: Path)
    requires ks == [] || ks[|ks| - 1] < |es|
    ensures Trail(env, s, es + [e], ks, v, x) <==> Trail(env, s, es, ks, v, x)
  {
    if ks != [] {
      var k := ks[|ks| - 1];
      assert (es + [e])[..k] == es[..k] && (es + [e])[k] == es[k];
    }
  }

  ghost predicate ComesLast(env: Env, s: State, es: seq<Edge>, e: Edge, v: Path, x: Path)
  {
    e.dst == v && e !in s.edges && e !in es && env.pass(e.src, v, x) && Comes(env, s, es, e.src, x)
  }

  lemma EndsWithLast(env: Env, s: State, es: seq<Edge>, e: Edge, ks: seq<nat>, v: Path, x: Path)
    ensures Trail(env, s, es + [e], ks + [|es|], v, x) <==>
      e.dst == v && e !in s.edges && e !in es && env.pass(e.src, v, x) && Trail(env, s, es, ks, e.src, x)
  {
    assert (ks + [|es|])[..|ks|] == ks;
    assert (es + [e])[..|es|] == es && (es + [e])[|es|] == e;
  }

  lemma LastIndex(env: Env, s: State, es: seq<Edge>, ks: seq<nat>, v: Path, x: Path)
    requires Trail(env, s, es, ks, v, x) && ks != []
    ensures ks[|ks| - 1] < |es|
  {
  }

  /** A trail over a list with one more edge stops before it or ends with it. */
  lemma LastEdge(env: Env, s: State, es: seq<Edge>, e: Edge, v: Path, x: Path)
    ensures Comes(env, s, es + [e], v, x) <==> Comes(env, s, es, v, x) || ComesLast(env, s, es, e, v, x)
  {
    hide Trail;
    if Comes(env, s, es + [e], v, x) {
      var ks :| Trail(env, s, es + [e], ks, v, x);
      if ks == [] || ks[|ks| - 1] < |es| {
        LaterEdges(env, s, es, e, ks, v, x);
      } else {
        LastIndex(env, s, es + [e], ks, v, x);
        var rest: seq<nat> := ks[..|ks| - 1];
        assert ks == rest + [|es|];
        EndsWithLast(env, s, es, e, rest, v, x);
      }
    }
    ComesWithLast(env, s, es, e, v, x);
  }

  lemma ComesWithLast(env: Env, s: State, es: seq<Edge>, e: Edge, v: Path, x: Path)
    ensures Comes(env, s, es, v, x) || ComesLast(env, s, es, e, v, x) ==> Comes(env, s, es + [e], v, x)
  {
    if Comes(env, s, es, v, x) {
      var ks :| Trail(env, s, es, ks, v, x);
      LaterEdges(env, s, es, e, ks, v, x);
    }
    if ComesLast(env, s, es, e, v, x) {
      var ks: seq<nat> :| Trail(env, s, es, ks, e.src, x);
      EndsWithLast(env, s, es, e, ks, v, x);
    }
  }

  lemma NoEdges(env: Env, s: State, v: Path, x: Path)
    ensures Comes(env, s, [], v, x) <==> x in PtsOf(s, v)
  {
    assert x in PtsOf(s, v) ==> Trail(env, s, [], [], v, x);
  }

  /** A node holds a fact after some edges have been induced exactly when the fact comes to it along new ones of
      them, each induced after the one before it, from a node that held it at the start. */
  lemma {:induction false} ComesExactly(env: Env, s: State, es: seq<Edge>, v: Path, x: Path)
    ensures x in PtsOf(InduceAll(env, s, es), v) <==> Comes(env, s, es, v, x)
    decreases |es|
  {
    hide Comes, PtsOf, Induce;
    if es == [] {
      NoEdges(env, s, v, x);
    } else {
      var init, e := es[..|es| - 1], es[|es| - 1];
      assert es == init + [e];
      InduceLast(env, s, init, e);
      InducedFact(env, InduceAll(env, s, init), e, v, x);
      InducedEdges(env, s, init, e);
      ComesExactly(env, s, init, v, x);
      ComesExactly(env, s, init, e.src, x);
      LastEdge(env, s, init, e, v, x);
    }
  }

  // ----- the phases of a turn

  /** What serving n asks for, in order: the edges of its loads, and then those of the stores through it. */
  function Asked(env: Env, s: State, n: Path): seq<Edge>
  {
    var os := env.order(s.clock, n, Get(s.diff, n));
    AllInduced(Pick(s.edges, LoadOut, n), os) + AllInduced(Pick(s.edges, StoreIn, n), os)
  }

  /** Sending the new facts of n gives no node any other fact. */
  lemma {:induction false} OnlyOwnFactsSent(env: Env, s: State, es: seq<Edge>, n: Path, v: Path, x: Path)
    requires forall e :: e in es ==> e.src == n
    requires x !in Get(s.diff, n)
    ensures x in PtsOf(SendAll(env, s, es), v) <==> x in PtsOf(s, v)
    decreases |es|
  {
    if es != [] {
      var u := Propagate(env, s, es[0], false);
      AddSetGrows(env, s, es[0].dst, Carried(env, s, es[0], false));
      OnlyOwnFactsSent(env, u, es[1..], n, v, x);
    }
  }

  lemma StoreStays(env: Env, s: State, e: Edge, n: Path)
    requires e.kind.Direct?
    ensures Pick(Induce(env, s, e).edges, StoreIn, n) == Pick(s.edges, StoreIn, n)
  {
    hide Pick, PtsOf, Carried;
    NotPicked(s.edges, e, n);
  }

  lemma NotPicked(es: seq<Edge>, e: Edge, n: Path)
    requires e.kind.Direct?
    ensures Pick(es + [e], StoreIn, n) == Pick(es, StoreIn, n)
  {
    assert (es + [e])[..|es|] == es;
  }

  lemma {:induction false} StoresStay(env: Env, s: State, es: seq<Edge>, n: Path)
    requires forall e :: e in es ==> e.kind.Direct?
    ensures Pick(InduceAll(env, s, es).edges, StoreIn, n) == Pick(s.edges, StoreIn, n)
    decreases |es|
  {
    hide Induce;
    if es != [] {
      StoreStays(env, s, es[0], n);
      StoresStay(env, Induce(env, s, es[0]), es[1..], n);
    }
  }

  lemma MemoryPhases(env: Env, s: State, n: Path)
    ensures S3(env, s, n) == InduceAll(env, S1(env, s, n), Asked(env, s, n))
  {
    hide Grows, InduceAll;
    var s1 := S1(env, s, n);
    var os := env.order(s.clock, n, Get(s.diff, n));
    var loads := AllInduced(Pick(s.edges, LoadOut, n), os);
    SendAllMeaning(env, s, Pick(s.edges, DirectOut, n), n);
    AllInducedDirect(Pick(s.edges, LoadOut, n), os);
    StoresStay(env, s1, loads, n);
    InduceAppend(env, s1, loads, AllInduced(Pick(s.edges, StoreIn, n), os));
  }

  lemma {:induction false} TrailBefore(env: Env, s: State, t: State, es: seq<Edge>, ks: seq<nat>, v: Path, x: Path)
    requires t.edges == s.edges && forall w :: x in PtsOf(t, w) <==> x in PtsOf(s, w)
    ensures Trail(env, t, es, ks, v, x) <==> Trail(env, s, es, ks, v, x)
    decreases |ks|
  {
    if ks != [] && ks[|ks| - 1] < |es| {
      TrailBefore(env, s, t, es[..ks[|ks| - 1]], ks[..|ks| - 1], es[ks[|ks| - 1]].src, x);
    }
  }

  /** What n holds after the loads and the stores, apart from what it had still to send. */
  lemma MemoryBrings(env: Env, s: State, n: Path, x: Path)
    requires x !in Get(s.diff, n)
    ensures x in PtsOf(S3(env, s, n), n) <==> Comes(env, s, Asked(env, s, n), n, x)
  {
    hide Grows, InduceAll, Trail, Asked;
    var s1 := S1(env, s, n);
    var es := Asked(env, s, n);
    DirectMeaning(env, s, n);
    forall w ensures x in PtsOf(s1, w) <==> x in PtsOf(s, w) {
      OnlyOwnFactsSent(env, s, Pick(s.edges, DirectOut, n), n, w, x);
    }
    forall ks ensures Trail(env, s1, es, ks, n, x) <==> Trail(env, s, es, ks, n, x) {
      TrailBefore(env, s, s1, es, ks, n, x);
    }
    MemoryPhases(env, s, n);
    ComesExactly(env, s1, es, n, x);
  }

  /** A field-address edge of n that leads back to n makes x out of the object o. */
  predicate Addresses(s: State, n: Path, e: Edge, o: Path, x: Path)
  {
    e in s.edges && e.kind.Gep? && e.src == n && e.dst == n && x == AppendProjection(o, e.kind.proj)
  }

  lemma {:induction false} AddressesAreParts(env: Env, s: State, es: seq<Edge>, os: set<Path>, v: Path, x: Path)
    requires forall e :: e in es ==> e.kind.Gep?
    requires x in PtsOf(GepAll(s, es, os), v) && x !in PtsOf(s, v)
    ensures exists e, o :: e in es && e.dst == v && o in os && x == AppendProjection(o, e.kind.proj)
    decreases |es|
  {
    var parts := AppendAll(os, es[0].kind.proj);
    var u := AddSet(s, es[0].dst, parts);
    AddSetGrows(env, s, es[0].dst, parts);
    if x in PtsOf(u, v) {
      var o :| o in os && x == AppendProjection(o, es[0].kind.proj);
      assert es[0] in es;
    } else {
      AddressesAreParts(env, u, es[1..], os, v, x);
      var e, o :| e in es[1..] && e.dst == v && o in os && x == AppendProjection(o, e.kind.proj);
      assert e in es;
    }
  }

  lemma FactStays(env: Env, s: State, t: State, v: Path, x: Path)
    requires Grows(env, s, t) && x in PtsOf(s, v)
    ensures x in PtsOf(t, v)
  {
  }

  lemma AddressPhase(env: Env, s: State, n: Path, x: Path)
    ensures x in PtsOf(HandleGep(s, n), n) <==>
      x in PtsOf(s, n) || exists e, o :: Addresses(s, n, e, o, x) && o in Get(s.diff, n)
  {
    hide Grows, GepAll, PtsOf;
    var es, os := Pick(s.edges, GepOut, n), Get(s.diff, n);
    GepAllMeaning(env, s, es, os);
    if x in PtsOf(s, n) {
      FactStays(env, s, HandleGep(s, n), n, x);
    }
    if x in PtsOf(HandleGep(s, n), n) && x !in PtsOf(s, n) {
      AddressesAreParts(env, s, es, os, n, x);
      var e, o :| e in es && e.dst == n && o in os && x == AppendProjection(o, e.kind.proj);
      assert Addresses(s, n, e, o, x);
    }
    if exists e, o :: Addresses(s, n, e, o, x) && o in os {
      var e, o :| Addresses(s, n, e, o, x) && o in os;
      assert e in es;
    }
  }

  // ----- the turn

  /** An object that n lacks and that the edges asked for bring to it. */
  ghost predicate Brought(env: Env, s: State, n: Path, x: Path)
  {
    x !in PtsOf(s, n) && Comes(env, s, Asked(env, s, n), n, x)
  }

  /** An object that n lacks and is given while it is served: it is brought, or it is a part of an object that is
      brought or that n has still to send. */
  ghost predicate Gains(env: Env, s: State, n: Path, x: Path)
  {
    || Brought(env, s, n, x)
    || (x !in PtsOf(s, n) && exists e, o :: Addresses(s, n, e, o, x) && (o in Get(s.diff, n) || Brought(env, s, n, o)))
  }

  lemma BroughtExactly(env: Env, s: State, n: Path, x: Path)
    requires OrderOk(env) && Disjoint(s)
    ensures x in Get(S3(env, s, n).diff, n) <==> x in Get(s.diff, n) || Brought(env, s, n, x)
    ensures x !in Get(s.diff, n) ==> (x in PtsOf(S3(env, s, n), n) <==> x in PtsOf(s, n) || Brought(env, s, n, x))
  {
    hide Comes, Asked, EdgesGrow, CallsGrow, WorklistGrows;
    var s3 := S3(env, s, n);
    EdgePhasesGrow(env, s, n);
    KeepsDiff(env, s, s3, n);
    if x !in Get(s.diff, n) {
      MemoryBrings(env, s, n, x);
    }
  }

  lemma KeepsDiff(env: Env, s: State, t: State, n: Path)
    requires Grows(env, s, t)
    ensures Get(t.propa, n) == Get(s.propa, n) && Get(s.diff, n) <= Get(t.diff, n)
    ensures Disjoint(s) ==> Get(t.diff, n) !! Get(t.propa, n)
  {
  }

  lemma GainsExactly(env: Env, s: State, n: Path, x: Path)
    requires OrderOk(env) && Disjoint(s) && x !in Get(s.diff, n)
    ensures x in Get(S8(env, s, n).diff, n) <==> Gains(env, s, n, x)
  {
    hide Grows, Brought, HandleDirect, HandleLoads, HandleStores, HandleGep, HandleOffset, HandleDynamic, HandleFnptr,
         HandleFntrait, Disjoint;
    var s3, s4, t := S3(env, s, n), S4(env, s, n), S8(env, s, n);
    EdgePhasesGrow(env, s, n);
    PhasesGrow(env, s, n);
    OffsetMeaning(env, s4, n);
    KeepsDiff(env, s, s4, n);
    KeepsDiff(env, s, t, n);
    BroughtExactly(env, s, n, x);
    AddressPhase(env, s3, n, x);
    GepsStay(env, s, n);
    if x !in PtsOf(s, n) {
      forall e, o ensures Addresses(s3, n, e, o, x) && o in Get(s3.diff, n)
                     <==> Addresses(s, n, e, o, x) && (o in Get(s.diff, n) || Brought(env, s, n, o)) {
        BroughtExactly(env, s, n, o);
      }
    } else {
      LackedBefore(env, s, n, x);
    }
  }

  lemma LackedBefore(env: Env, s: State, n: Path, x: Path)
    requires x in PtsOf(s, n)
    ensures !Gains(env, s, n, x)
  {
  }

  /** The field-address edges are the same before and after the loads and stores. */
  lemma GepsStay(env: Env, s: State, n: Path)
    requires OrderOk(env)
    ensures forall e :: e in S3(env, s, n).edges && e.kind.Gep? <==> e in s.edges && e.kind.Gep?
  {
    hide FactsGrow, CallsGrow, WorklistGrows, S3;
    EdgePhasesGrow(env, s, n);
  }

  /** The facts that the flush of a turn takes without their having been sent are exactly the objects that the
      node gains while it is served, and the state before the turn tells which these are. */
  lemma TurnTakesUnsentFactsExactly(env: Env, s: State, x: Path)
    requires OrderOk(env) && Disjoint(s) && s.worklist != []
    ensures var n := s.worklist[0];
      var t := S8(env, Popped(s), n);
      && Turn(env, s) == Flush(t, n)
      && Get(s.diff, n) <= Get(t.diff, n)
      && (x in Get(t.diff, n) && x !in Get(s.diff, n) <==> Gains(env, Popped(s), n, x))
  {
    hide Grows, S8, Gains, Turn;
    var n := s.worklist[0];
    var s0 := Popped(s);
    TurnUnfolds(env, s);
    HandleGrows(env, s0, n);
    KeepsDiff(env, s0, S8(env, s0, n), n);
    if x !in Get(s.diff, n) {
      GainsExactly(env, s0, n, x);
    } else {
      LackedBefore(env, s0, n, x);
    }
  }
}
