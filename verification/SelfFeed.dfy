/** Why the hypothesis of the least-solution theorem is needed, and when it is plain from the program
    text. The flush at the end of a turn also moves facts that reached the node during that turn, after
    its direct edges had been served (src/pta/propagator/propagator.rs:141-152). */
module SelfFeed {
  import opened Options
  import opened Paths
  import opened Constraints
  import opened Solver
  import opened SolverSteps
  import opened SolverNode
  import opened SolverTheorems

  // The program  r = &o; o.next = &o2; p = r; p = (*p).next; q = p  as a graph.
  const R := LocalVariable(0, 1)
  const P := LocalVariable(0, 2)
  const Q := LocalVariable(0, 3)
  const O := LocalVariable(0, 4)
  const O2 := LocalVariable(0, 5)
  const NEXT: Projection := [Field(0)]
  const O_NEXT := QualifiedPath(O, NEXT)

  const TAKE_O := Edge(O, R, Addr)
  const TAKE_O2 := Edge(O2, O_NEXT, Addr)
  const R_TO_P := Edge(R, P, Direct)
  const P_LOADS_P := Edge(P, P, Load(NEXT))
  const P_TO_Q := Edge(P, Q, Direct)
  const FOUND := Edge(O_NEXT, P, Direct)

  const GRAPH := [TAKE_O, TAKE_O2, R_TO_P, P_LOADS_P, P_TO_Q]

  function Start(): State
  {
    State(GRAPH, map[], map[], map[], map[], map[], [TAKE_O, TAKE_O2], [], [], [], {}, {}, [], 0)
  }

  /** One points-to set for each of R, O_NEXT, P and Q. */
  datatype Four = Four(r: set<Path>, n: set<Path>, p: set<Path>, q: set<Path>)

  ghost function Sets(m: PtsMap): Four
  {
    Four(Get(m, R), Get(m, O_NEXT), Get(m, P), Get(m, Q))
  }

  ghost predicate At(s: State, edges: seq<Edge>, diff: Four, propa: Four, worklist: seq<Path>)
  {
    CallFree(s) && s.edges == edges && s.worklist == worklist && Sets(s.diff) == diff && Sets(s.propa) == propa
  }

  lemma OrderOfSmallSets(env: Env, o: Path)
    requires OrderOk(env)
    ensures forall t: nat, v: Path :: env.order(t, v, {}) == [] && env.order(t, v, {o}) == [o]
    ensures forall t: nat, k: SiteKind, v: Path :: env.siteOrder(t, k, v, {}) == []
  {
    forall t: nat, v: Path ensures env.order(t, v, {o}) == [o] {
      assert |env.order(t, v, {o})| == |{o}| == 1 && env.order(t, v, {o})[0] in env.order(t, v, {o});
    }
  }

  lemma {:induction false} NoSitesNoCalls(target: (CallSite, Path) -> Option<Call>, os: seq<Path>)
    ensures CallsFor(target, [], os) == []
  {
    if os != [] {
      NoSitesNoCalls(target, os[1..]);
    }
  }

  lemma {:induction false} NoSitesNoTraits(env: Env, s: State, os: seq<Path>)
    ensures TraitAll(env, s, [], os) == s
    decreases |os|
  {
    if os != [] {
      NoSitesNoTraits(env, s, os[1..]);
    }
  }

  ghost predicate CallFree(s: State)
  {
    s.dynSites == map[] && s.fnptrSites == map[] && s.fntraitSites == map[] && s.newCalls == [] && s.newInstances == []
  }

  lemma CallFreeHandlers(env: Env, s: State, n: Path)
    requires OrderOk(env) && CallFree(s)
    ensures HandleDynamic(env, s, n) == s && HandleFnptr(env, s, n) == s && HandleFntrait(env, s, n) == s
  {
    var os := env.order(s.clock, n, Get(s.diff, n));
    OrderOfSmallSets(env, n);
    NoSitesNoCalls(env.dynTarget, os);
    NoSitesNoCalls(env.fnTarget, os);
    NoSitesNoTraits(env, s, os);
    assert s.newInstances + [] == s.newInstances && s.newCalls + [] == s.newCalls;
  }

  /** Without call sites a turn is its edge phases and the flush. */
  lemma TurnWithoutCalls(env: Env, s: State)
    requires OrderOk(env) && s.worklist != [] && CallFree(s)
    ensures Turn(env, s) == Flush(S5(env, Popped(s), s.worklist[0]), s.worklist[0])
  {
    hide S5, Flush, Turn, HandleDynamic, HandleFnptr, HandleFntrait;
    var n := s.worklist[0];
    var s0 := Popped(s);
    TurnUnfolds(env, s);
    KeepsSites(env, s0, n);
    CallFreeHandlers(env, S5(env, s0, n), n);
  }

  /** The edge phases one by one. */
  lemma PhaseByPhase(env: Env, s: State, s1: State, s2: State, s3: State, s4: State, s5: State, n: Path)
    requires s1 == HandleDirect(env, s, n)
    requires s2 == HandleLoads(env, s1, n, env.order(s1.clock, n, Get(s1.diff, n)))
    requires s3 == HandleStores(env, s2, n, env.order(s1.clock, n, Get(s1.diff, n)))
    requires s4 == HandleGep(s3, n) && s5 == HandleOffset(env, s4, n)
    ensures S5(env, s, n) == s5
  {
  }

  predicate Unindexed(es: seq<Edge>, i: Index, n: Path)
  {
    forall e :: e in es ==> !Indexed(i, n, e)
  }

  lemma NoEdgesNoEffect(env: Env, s: State, n: Path, os: seq<Path>)
    ensures Unindexed(s.edges, DirectOut, n) ==> HandleDirect(env, s, n) == s
    ensures Unindexed(s.edges, LoadOut, n) ==> HandleLoads(env, s, n, os) == s
    ensures Unindexed(s.edges, StoreIn, n) ==> HandleStores(env, s, n, os) == s
    ensures Unindexed(s.edges, GepOut, n) ==> HandleGep(s, n) == s
    ensures Unindexed(s.edges, OffsetOut, n) ==> HandleOffset(env, s, n) == s
  {
    forall i | Unindexed(s.edges, i, n) ensures Pick(s.edges, i, n) == [] {
      PickNone(s.edges, i, n);
    }
  }

  /** The edge phases when only direct and load edges leave n. */
  lemma PhasesOfLoads(env: Env, s: State, s1: State, s2: State, n: Path)
    requires s1 == HandleDirect(env, s, n) && s2 == HandleLoads(env, s1, n, env.order(s1.clock, n, Get(s1.diff, n)))
    requires Unindexed(s2.edges, StoreIn, n) && Unindexed(s2.edges, GepOut, n) && Unindexed(s2.edges, OffsetOut, n)
    ensures S5(env, s, n) == s2
  {
    hide HandleDirect, HandleLoads, HandleStores, HandleGep, HandleOffset, Unindexed;
    NoEdgesNoEffect(env, s2, n, env.order(s1.clock, n, Get(s1.diff, n)));
    PhaseByPhase(env, s, s1, s2, s2, s2, s2, n);
  }

  /** The edge phases when only direct edges leave n. */
  lemma PhasesOfDirect(env: Env, s: State, s1: State, n: Path)
    requires s1 == HandleDirect(env, s, n) && Unindexed(s1.edges, LoadOut, n)
    requires Unindexed(s1.edges, StoreIn, n) && Unindexed(s1.edges, GepOut, n) && Unindexed(s1.edges, OffsetOut, n)
    ensures S5(env, s, n) == s1
  {
    hide HandleDirect, HandleLoads, HandleStores, HandleGep, HandleOffset, Unindexed;
    NoEdgesNoEffect(env, s1, n, env.order(s1.clock, n, Get(s1.diff, n)));
    PhasesOfLoads(env, s, s1, s1, n);
  }

  lemma GraphShape()
    ensures forall i :: i != DirectOut ==> Unindexed(GRAPH, i, R)
    ensures forall i :: i != DirectOut && i != LoadOut ==> Unindexed(GRAPH, i, P) && Unindexed(GRAPH + [FOUND], i, P)
  {
  }

  lemma OneDirectEdge(env: Env, s: State, n: Path, k: nat)
    requires k < |s.edges| && Indexed(DirectOut, n, s.edges[k])
    requires forall j :: 0 <= j < |s.edges| && j != k ==> !Indexed(DirectOut, n, s.edges[j])
    ensures HandleDirect(env, s, n) == Propagate(env, s, s.edges[k], false)
  {
    PickOne(s.edges, DirectOut, n, k);
    var t := Propagate(env, s, s.edges[k], false);
    assert [s.edges[k]][1..] == [];
    assert SendAll(env, t, []) == t;
  }

  lemma OneLoadEdge(env: Env, s: State, n: Path, k: nat, os: seq<Path>)
    requires k < |s.edges| && Indexed(LoadOut, n, s.edges[k])
    requires forall j :: 0 <= j < |s.edges| && j != k ==> !Indexed(LoadOut, n, s.edges[j])
    requires |os| <= 1
    ensures HandleLoads(env, s, n, os) == if os == [] then s else Induce(env, s, Induced(s.edges[k], os[0]))
  {
    var e := s.edges[k];
    PickOne(s.edges, LoadOut, n, k);
    assert [e][1..] == [];
    assert AllInduced([e], os) == InducedBy(e, os) + AllInduced([], os) == InducedBy(e, os);
    if os != [] {
      assert os[1..] == [];
      assert InducedBy(e, os) == [Induced(e, os[0])] + InducedBy(e, []) == [Induced(e, os[0])];
      var t := Induce(env, s, Induced(e, os[0]));
      assert [Induced(e, os[0])][1..] == [];
      assert InduceAll(env, t, []) == t;
    }
  }

  lemma KeepsSites(env: Env, s: State, n: Path)
    ensures var t := S5(env, s, n);
      t == s.(edges := t.edges, diff := t.diff, worklist := t.worklist)
  {
    var s1 := S1(env, s, n);
    SendAllMeaning(env, s, Pick(s.edges, DirectOut, n), n);
    var os := env.order(s1.clock, n, Get(s1.diff, n));
    AllInducedDirect(Pick(s1.edges, LoadOut, n), os);
    InduceAllMeaning(env, s1, AllInduced(Pick(s1.edges, LoadOut, n), os));
    var s2 := S2(env, s, n);
    AllInducedDirect(Pick(s2.edges, StoreIn, n), os);
    InduceAllMeaning(env, s2, AllInduced(Pick(s2.edges, StoreIn, n), os));
    var s3 := S3(env, s, n);
    GepAllMeaning(env, s3, Pick(s3.edges, GepOut, n), Get(s3.diff, n));
    var s4 := S4(env, s, n);
    SendAllMeaning(env, s4, Pick(s4.edges, OffsetOut, n), n);
  }

  /** A turn at a node from which nothing leaves. */
  lemma IdleTurn(env: Env, s: State)
    requires OrderOk(env) && CallFree(s) && s.worklist != []
    requires forall e, i :: e in s.edges ==> !Indexed(i, s.worklist[0], e)
    ensures Turn(env, s) == Flush(Popped(s), s.worklist[0])
  {
    hide Turn, S5, Flush, HandleDirect, HandleLoads, HandleStores, HandleGep, HandleOffset;
    var n := s.worklist[0];
    var s0 := Popped(s);
    TurnWithoutCalls(env, s);
    NoEdgesNoEffect(env, s0, n, env.order(s0.clock, n, Get(s0.diff, n)));
    PhaseByPhase(env, s0, s0, s0, s0, s0, s0, n);
  }

  predicate AllPass(env: Env)
  {
    env.pass(R, P, O) && env.pass(P, Q, O) && env.pass(P, Q, O2) && env.pass(O_NEXT, P, O2)
  }

  lemma AddSetExact(s: State, dst: Path, os: set<Path>)
    ensures var t := AddSet(s, dst, os);
      && t == s.(diff := t.diff, worklist := s.worklist + (if os <= PtsOf(s, dst) then [] else [dst]))
      && Get(t.diff, dst) == Get(s.diff, dst) + (os - PtsOf(s, dst))
      && (forall v :: v != dst ==> Get(t.diff, v) == Get(s.diff, v))
  {
  }

  function Flushed(diff: Four, n: Path): Four
  {
    if n == R then diff.(r := {})
    else if n == O_NEXT then diff.(n := {})
    else if n == P then diff.(p := {})
    else diff.(q := {})
  }

  function Settled(diff: Four, propa: Four, n: Path): Four
  {
    if n == R then propa.(r := diff.r + propa.r)
    else if n == O_NEXT then propa.(n := diff.n + propa.n)
    else if n == P then propa.(p := diff.p + propa.p)
    else propa.(q := diff.q + propa.q)
  }

  lemma NothingMore()
    ensures {O} + {} == {O} && {O2} + {} == {O2} && {O, O2} + {} == {O, O2}
    ensures {} + {O} == {O} && {} + {O, O2} == {O, O2}
  {
  }

  lemma FlushAt(s: State, n: Path, edges: seq<Edge>, diff: Four, propa: Four, worklist: seq<Path>)
    requires At(s, edges, diff, propa, worklist) && n in [R, O_NEXT, P, Q]
    ensures At(Flush(s, n), edges, Flushed(diff, n), Settled(diff, propa, n), worklist)
  {
    hide Items, Flush;
    FlushKeepsItems(s, n);
  }

  lemma InitTurn(env: Env)
    ensures At(InitConstraints(env, Start()), GRAPH, Four({O}, {O2}, {}, {}), Four({}, {}, {}, {}), [R, O_NEXT])
  {
    hide AddSet;
    var s := Start();
    AddSetExact(s, R, {O});
    var s1 := AddSet(s, R, {O});
    AddSetExact(s1, O_NEXT, {O2});
    var s2 := AddSet(s1, O_NEXT, {O2});
    TwoAddresses(s);
    assert ProcessInters(env, s2.(addrQueue := []), []) == s2.(addrQueue := []);
  }

  lemma TwoAddresses(s: State)
    ensures ProcessAddrs(s, [TAKE_O, TAKE_O2]) == AddSet(AddSet(s, R, {O}), O_NEXT, {O2})
  {
    hide AddSet;
    var s1 := AddSet(s, R, {O});
    assert [TAKE_O, TAKE_O2][1..] == [TAKE_O2];
    assert ProcessAddrs(s1, [TAKE_O2]) == AddSet(s1, O_NEXT, {O2});
  }

  lemma PhasesAtR(env: Env, s: State)
    requires s.edges == GRAPH
    ensures S5(env, s, R) == Propagate(env, s, R_TO_P, false)
  {
    hide S5;
    OneDirectEdge(env, s, R, 2);
    GraphShape();
    PhasesOfDirect(env, s, Propagate(env, s, R_TO_P, false), R);
  }

  lemma DirectAtP(env: Env, s: State)
    requires s.edges == GRAPH || s.edges == GRAPH + [FOUND]
    ensures HandleDirect(env, s, P) == Propagate(env, s, P_TO_Q, false)
  {
    OneDirectEdge(env, s, P, 4);
  }

  lemma LoadAtP(env: Env, s: State, os: seq<Path>)
    requires (s.edges == GRAPH || s.edges == GRAPH + [FOUND]) && |os| <= 1
    ensures HandleLoads(env, s, P, os) == if os == [] then s else Induce(env, s, Induced(P_LOADS_P, os[0]))
  {
    OneLoadEdge(env, s, P, 3, os);
  }

  lemma PhasesAtP(env: Env, s: State, s1: State, s2: State)
    requires s1 == HandleDirect(env, s, P) && s2 == HandleLoads(env, s1, P, env.order(s1.clock, P, Get(s1.diff, P)))
    requires s2.edges == GRAPH || s2.edges == GRAPH + [FOUND]
    ensures S5(env, s, P) == s2
  {
    hide S5, HandleDirect, HandleLoads;
    GraphShape();
    PhasesOfLoads(env, s, s1, s2, P);
  }

  lemma SendFromR(env: Env, s: State)
    requires AllPass(env) && At(s, GRAPH, Four({O}, {O2}, {}, {}), Four({}, {}, {}, {}), [O_NEXT])
    ensures At(Propagate(env, s, R_TO_P, false), GRAPH, Four({O}, {O2}, {O}, {}), Four({}, {}, {}, {}), [O_NEXT, P])
  {
    assert Carried(env, s, R_TO_P, false) == {O};
    AddSetExact(s, P, {O});
  }

  lemma FirstTurn(env: Env, s: State)
    requires OrderOk(env) && AllPass(env)
    requires At(s, GRAPH, Four({O}, {O2}, {}, {}), Four({}, {}, {}, {}), [R, O_NEXT])
    ensures At(Turn(env, s), GRAPH, Four({}, {O2}, {O}, {}), Four({O}, {}, {}, {}), [O_NEXT, P])
  {
    hide Items, OrderOk, AllPass;
    hide Turn, S5, Flush, Propagate;
    var s0 := Popped(s);
    TurnWithoutCalls(env, s);
    PhasesAtR(env, s0);
    SendFromR(env, s0);
    FlushAt(Propagate(env, s0, R_TO_P, false), R, GRAPH, Four({O}, {O2}, {O}, {}), Four({}, {}, {}, {}), [O_NEXT, P]);
    NothingMore();
  }

  lemma SecondTurn(env: Env, s: State)
    requires OrderOk(env)
    requires At(s, GRAPH, Four({}, {O2}, {O}, {}), Four({O}, {}, {}, {}), [O_NEXT, P])
    ensures At(Turn(env, s), GRAPH, Four({}, {}, {O}, {}), Four({O}, {O2}, {}, {}), [P])
  {
    hide Items, OrderOk, AllPass;
    hide Turn, Flush;
    IdleTurn(env, s);
    FlushAt(Popped(s), O_NEXT, GRAPH, Four({}, {O2}, {O}, {}), Four({O}, {}, {}, {}), [P]);
    NothingMore();
  }

  lemma SendFromP(env: Env, s: State)
    requires AllPass(env) && At(s, GRAPH, Four({}, {}, {O}, {}), Four({O}, {O2}, {}, {}), [])
    ensures At(Propagate(env, s, P_TO_Q, false), GRAPH, Four({}, {}, {O}, {O}), Four({O}, {O2}, {}, {}), [Q])
  {
    assert Carried(env, s, P_TO_Q, false) == {O};
    AddSetExact(s, Q, {O});
  }

  lemma LoadIntoP(env: Env, s: State)
    requires AllPass(env) && At(s, GRAPH, Four({}, {}, {O}, {O}), Four({O}, {O2}, {}, {}), [Q])
    ensures At(Induce(env, s, FOUND), GRAPH + [FOUND], Four({}, {}, {O, O2}, {O}), Four({O}, {O2}, {}, {}), [Q, P])
  {
    assert FOUND !in GRAPH;
    var u := s.(edges := GRAPH + [FOUND]);
    assert Carried(env, u, FOUND, true) == {O2};
    AddSetExact(u, P, {O2});
  }

  lemma PhasesOfLosingTurn(env: Env, s: State, s1: State, s2: State)
    requires OrderOk(env) && s.edges == GRAPH && s1.edges == GRAPH && s2.edges == GRAPH + [FOUND]
    requires s1 == Propagate(env, s, P_TO_Q, false) && Get(s1.diff, P) == {O} && s2 == Induce(env, s1, FOUND)
    ensures S5(env, s, P) == s2
  {
    hide S5, HandleDirect, HandleLoads, Propagate, Induce, OrderOk;
    DirectAtP(env, s);
    OrderOfSmallSets(env, O);
    LoadAtP(env, s1, [O]);
    PhasesAtP(env, s, s1, s2);
  }

  /** The turn that loses a fact: P is served with O, then receives O2, then is flushed. */
  lemma LosingTurn(env: Env, s: State)
    requires OrderOk(env) && AllPass(env)
    requires At(s, GRAPH, Four({}, {}, {O}, {}), Four({O}, {O2}, {}, {}), [P])
    ensures At(Turn(env, s), GRAPH + [FOUND], Four({}, {}, {}, {O}), Four({O}, {O2}, {O, O2}, {}), [Q, P])
  {
    hide Items, OrderOk, AllPass;
    hide Turn, S5, Flush, Propagate, Induce;
    var s0 := Popped(s);
    TurnWithoutCalls(env, s);
    SendFromP(env, s0);
    var s1 := Propagate(env, s0, P_TO_Q, false);
    LoadIntoP(env, s1);
    var s2 := Induce(env, s1, FOUND);
    PhasesOfLosingTurn(env, s0, s1, s2);
    FlushAt(s2, P, GRAPH + [FOUND], Four({}, {}, {O, O2}, {O}), Four({O}, {O2}, {}, {}), [Q, P]);
    NothingMore();
  }

  lemma FourthTurn(env: Env, s: State)
    requires OrderOk(env)
    requires At(s, GRAPH + [FOUND], Four({}, {}, {}, {O}), Four({O}, {O2}, {O, O2}, {}), [Q, P])
    ensures At(Turn(env, s), GRAPH + [FOUND], Four({}, {}, {}, {}), Four({O}, {O2}, {O, O2}, {O}), [P])
  {
    hide Items, OrderOk, AllPass;
    hide Turn, Flush;
    IdleTurn(env, s);
    FlushAt(Popped(s), Q, GRAPH + [FOUND], Four({}, {}, {}, {O}), Four({O}, {O2}, {O, O2}, {}), [P]);
    NothingMore();
  }

  lemma NothingFromP(env: Env, s: State)
    requires Get(s.diff, P) == {}
    ensures Propagate(env, s, P_TO_Q, false) == s
  {
  }

  /** The last visit of P finds nothing unpropagated. */
  lemma LastTurn(env: Env, s: State)
    requires OrderOk(env)
    requires At(s, GRAPH + [FOUND], Four({}, {}, {}, {}), Four({O}, {O2}, {O, O2}, {O}), [P])
    ensures At(Turn(env, s), GRAPH + [FOUND], Four({}, {}, {}, {}), Four({O}, {O2}, {O, O2}, {O}), [])
  {
    hide Items, OrderOk, Turn, S5, Flush, Propagate, Induce, HandleDirect, HandleLoads;
    var s0 := Popped(s);
    TurnWithoutCalls(env, s);
    DirectAtP(env, s0);
    NothingFromP(env, s0);
    OrderOfSmallSets(env, O);
    LoadAtP(env, s0, []);
    PhasesAtP(env, s0, s0, s0);
    FlushAt(s0, P, GRAPH + [FOUND], Four({}, {}, {}, {}), Four({O}, {O2}, {O, O2}, {O}), []);
    NothingMore();
  }

  /** The solver stops on this program without ever deriving that q may point to o2, although every
      solution contains it: a load from p into p makes the solver miss part of the least solution. */
  lemma LoadIntoItselfLosesFact(env: Env)
    requires OrderOk(env) && AllPass(env)
    ensures var t := Turns(env, InitConstraints(env, Start()), 5);
      && t.worklist == [] && O2 !in PtsOf(t, Q)
      && Pts(Q, O2) in Least(env, Items(Start()))
      && Items(t) != Least(env, Items(Start()))
  {
    hide Turn, Least, Items, InitConstraints;
    var s0 := InitConstraints(env, Start());
    InitTurn(env);
    FirstTurn(env, s0);
    var s1 := Turn(env, s0);
    SecondTurn(env, s1);
    var s2 := Turn(env, s1);
    LosingTurn(env, s2);
    var s3 := Turn(env, s2);
    FourthTurn(env, s3);
    var s4 := Turn(env, s3);
    LastTurn(env, s4);
    FiveTurns(env, s0);
    MissingFact(env);
    FactAbsent(Turn(env, s4));
  }

  lemma FiveTurns(env: Env, s: State)
    ensures Turns(env, s, 5) == Turn(env, Turn(env, Turn(env, Turn(env, Turn(env, s)))))
  {
    hide Turn;
    var s1 := Turn(env, s);
    var s2 := Turn(env, s1);
    var s3 := Turn(env, s2);
    assert Turns(env, s3, 2) == Turn(env, Turn(env, s3));
    assert Turns(env, s1, 4) == Turns(env, s3, 2);
  }

  lemma FactAbsent(t: State)
    requires O2 !in PtsOf(t, Q)
    ensures Pts(Q, O2) !in Items(t)
  {
  }

  lemma StartingEdges(env: Env)
    ensures forall e :: e in GRAPH ==> Arc(e) in Least(env, Items(Start()))
    ensures Closed(env, Least(env, Items(Start())))
  {
    hide Least, Closed;
    LeastIsClosed(env, Items(Start()));
    forall e | e in GRAPH ensures Arc(e) in Items(Start()) {
    }
  }

  lemma FlowIn(env: Env, L: iset<Item>, e: Edge, o: Path)
    requires Closed(env, L) && Arc(e) in L && e.kind.Direct? && Pts(e.src, o) in L && env.pass(e.src, e.dst, o)
    ensures Pts(e.dst, o) in L
  {
    hide RespectsDyn, RespectsFnptr, RespectsFntrait, RespectsLoad, RespectsStore, RespectsGep;
    assert Respects(env, L, e.src, o);
  }

  lemma LoadIn(env: Env, L: iset<Item>, e: Edge, o: Path)
    requires Closed(env, L) && Arc(e) in L && e.kind.Load? && Pts(e.src, o) in L
    ensures Arc(Edge(AppendProjection(o, e.kind.proj), e.dst, Direct)) in L
  {
    hide RespectsDyn, RespectsFnptr, RespectsFntrait, RespectsFlow, RespectsStore, RespectsGep;
    assert Respects(env, L, e.src, o);
  }

  lemma AddressIn(env: Env, L: iset<Item>, e: Edge)
    requires Closed(env, L) && Arc(e) in L && e.kind.Addr?
    ensures Pts(e.dst, e.src) in L
  {
  }

  lemma GraphMembers()
    ensures TAKE_O in GRAPH && TAKE_O2 in GRAPH && R_TO_P in GRAPH && P_LOADS_P in GRAPH && P_TO_Q in GRAPH
    ensures Edge(AppendProjection(O, NEXT), P, Direct) == FOUND
  {
  }

  lemma MissingFact(env: Env)
    requires AllPass(env)
    ensures Pts(Q, O2) in Least(env, Items(Start()))
  {
    hide Least, Closed, Start;
    var L := Least(env, Items(Start()));
    StartingEdges(env);
    GraphMembers();
    AddressIn(env, L, TAKE_O);
    AddressIn(env, L, TAKE_O2);
    FlowIn(env, L, R_TO_P, O);
    LoadIn(env, L, P_LOADS_P, O);
    FlowIn(env, L, FOUND, O2);
    FlowIn(env, L, P_TO_Q, O2);
  }

  // ----- a condition that can be read off the program

  /** No load or field address from a pointer into itself, and no store through a pointer that lives
      inside an object whose address is taken. */
  ghost predicate PlainlyNoSelfFeed(base: iset<Item>)
  {
    && (forall e :: Arc(e) in base && e.src == e.dst ==> !e.kind.Load? && !e.kind.Gep?)
    && (forall e, a :: Arc(e) in base && e.kind.Store? && Arc(a) in base && a.kind.Addr? ==> Base(a.src) != Base(e.dst))
    && (forall e, v, o :: Arc(e) in base && e.kind.Store? && Pts(v, o) in base ==> Base(o) != Base(e.dst))
  }

  ghost predicate WrittenThrough(base: iset<Item>, p: Path)
  {
    exists e :: Arc(e) in base && e.kind.Store? && Base(e.dst) == Base(p)
  }

  /** Memory edges of the program only, and no pointee inside a pointer that is stored through. */
  ghost predicate Plain(base: iset<Item>, i: Item)
  {
    match i
    case Pts(v, o) => !WrittenThrough(base, o)
    case Arc(e) => Arc(e) in base || e.kind.Direct?
    case _ => true
  }

  /** The plain condition implies that no node feeds itself, in the whole least solution. */
  lemma PlainConditionSuffices(env: Env, base: iset<Item>)
    requires PlainlyNoSelfFeed(base)
    ensures NoSelfFeed(Least(env, base))
  {
    var X := iset i: Item | Plain(base, i);
    forall v, o | Pts(v, o) in X ensures Respects(env, X, v, o) {
      forall e | Arc(e) in X && e.src == v && e.kind.Gep? ensures Pts(e.dst, AppendProjection(o, e.kind.proj)) in X {
        AppendKeepsBase(o, e.kind.proj);
      }
    }
    LeastIsBelow(env, base, X);
    forall e, o | Arc(e) in Least(env, base) && e.kind.Store? && Pts(e.dst, o) in Least(env, base)
      ensures AppendProjection(o, e.kind.proj) != e.dst
    {
      AppendKeepsBase(o, e.kind.proj);
      assert Arc(e) in X && Pts(e.dst, o) in X;
    }
    forall e | Arc(e) in Least(env, base) && e.src == e.dst ensures !e.kind.Load? && !e.kind.Gep? {
      assert Arc(e) in X;
    }
  }
}
