/** The steps of the on-the-fly driver (src/pta/andersen.rs) on states: adding the edges and call sites of a
    function, adding a call, and one run of the solver. */
module Driver {
  import opened Paths
  import opened Constraints
  import opened Solver
  import opened SolverSteps
  import opened SolverNode
  import opened SolverTheorems

  /** Edges from promoted constants and static variables are activated again when they are added. */
  predicate IsQueued(p: Path) { p.PromotedConstant? || p.StaticVariable? }

  function AddInternal(s: State, e: Edge): State
  {
    if e in s.edges then s
    else s.(edges := s.edges + [e],
            addrQueue := s.addrQueue + (if e.kind.Addr? then [e] else []),
            interQueue := s.interQueue + (if IsQueued(e.src) then [e] else []))
  }

  function AddInter(s: State, e: Edge): State
  {
    if e in s.edges then s else s.(edges := s.edges + [e], interQueue := s.interQueue + [e])
  }

  function AddInters(s: State, es: seq<Edge>): State
    decreases |es|
  {
    if es == [] then s else AddInters(AddInter(s, es[0]), es[1..])
  }

  function Attach(s: State, k: SiteKind, v: Path, c: CallSite): State
  {
    match k
    case DynSite => s.(dynSites := s.dynSites[v := Get(s.dynSites, v) + {c}])
    case FnPtrSite => s.(fnptrSites := s.fnptrSites[v := Get(s.fnptrSites, v) + {c}])
    case FnTraitSite => s.(fntraitSites := s.fntraitSites[v := Get(s.fntraitSites, v) + {c}])
  }

  /** The node whose facts an edge sends on. */
  function Trigger(e: Edge): Path
  {
    if e.kind.Store? then e.dst else e.src
  }

  /** The edge is activated by a queue when it is added; any other edge acts on later facts of its trigger only. */
  predicate Activated(e: Edge)
  {
    e.kind.Addr? || (Flows(e.kind) && IsQueued(e.src))
  }

  /** Queued edges are inter-procedural ones, which are direct, and those from queued paths. */
  ghost predicate QueueKinds(s: State)
  {
    forall e :: e in s.interQueue ==> Flows(e.kind) || IsQueued(e.src)
  }

  /** X has what edges from queued paths add when they are treated as direct edges. */
  ghost predicate QueueClosed(env: Env, X: iset<Item>)
  {
    forall e, o :: Arc(e) in X && IsQueued(e.src) && Pts(e.src, o) in X && env.pass(e.src, e.dst, o) ==> Pts(e.dst, o) in X
  }

  /** The fact was carried by an edge from a queued path that is neither direct nor an offset. */
  ghost predicate Carries(env: Env, X: iset<Item>, e: Edge, i: Item)
  {
    && i.Pts? && Arc(e) in X && IsQueued(e.src) && !Flows(e.kind)
    && e.dst == i.pointer && Pts(e.src, i.pointee) in X && env.pass(e.src, e.dst, i.pointee)
  }

  ghost predicate StrayOk(env: Env, X: iset<Item>, stray: iset<Item>)
  {
    forall i :: i in stray ==> exists e :: Carries(env, X, e, i)
  }

  lemma StrayStaysOk(env: Env, X: iset<Item>, Y: iset<Item>, stray: iset<Item>)
    requires StrayOk(env, X, stray) && X <= Y
    ensures StrayOk(env, Y, stray)
  {
    forall i | i in stray ensures exists e :: Carries(env, Y, e, i) {
      var e :| Carries(env, X, e, i);
      assert Carries(env, Y, e, i);
    }
  }

  lemma {:induction false} StrayIsCarried(env: Env, s: State, es: seq<Edge>, X: iset<Item>)
    requires Items(ProcessInters(env, s, es)) <= X
    requires forall e :: e in es ==> Arc(e) in X && (Flows(e.kind) || IsQueued(e.src))
    ensures StrayOk(env, X, StrayAlong(env, s, es))
    decreases |es|
  {
    hide Grows;
    if es != [] {
      var e := es[0];
      var u := Propagate(env, s, e, true);
      ProcessIntersMeaning(env, s, es);
      ItemsGrow(env, s, ProcessInters(env, s, es));
      StrayIsCarried(env, u, es[1..], X);
      forall o | o in Carried(env, s, e, true) && !Flows(e.kind) ensures Carries(env, X, e, Pts(e.dst, o)) {
        assert e in es && Pts(e.src, o) in Items(s);
      }
    }
  }

  lemma StrayIsOk(env: Env, s: State)
    requires QueueOk(s) && QueueKinds(s) && Items(s) <= Items(InitConstraints(env, s))
    ensures StrayOk(env, Items(InitConstraints(env, s)), Stray(env, s))
  {
    hide Items, ProcessAddrs, ProcessInters, StrayAlong, InitConstraints, StrayOk;
    var s1 := ProcessAddrs(s, s.addrQueue).(addrQueue := []);
    InitUnfolds(env, s);
    QueuesAreNotItems(ProcessInters(env, s1, s.interQueue), [], []);
    QueuedAreItems(s);
    StrayIsCarried(env, s1, s.interQueue, Items(InitConstraints(env, s)));
  }

  lemma QueueClosedIsSound(env: Env, s: State, X: iset<Item>)
    requires Items(s) <= X && Closed(env, X) && QueueClosed(env, X) && QueueOk(s) && QueueKinds(s)
    ensures QueueSound(env, X, s.interQueue)
  {
    forall e, o | e in s.interQueue && Pts(e.src, o) in X && env.pass(e.src, e.dst, o) ensures Pts(e.dst, o) in X {
      assert Arc(e) in Items(s);
      assert Respects(env, X, e.src, o);
    }
  }

  /** The served facts of other pointers than v. */
  function Beside(done: Facts, v: Path): (r: Facts)
    ensures forall w, o :: (w, o) in r <==> (w, o) in done && w != v
  {
    set p | p in done && p.0 != v
  }

  /** The facts that count as served after an edge has been added. */
  function DoneWithEdge(s: State, done: Facts, e: Edge): Facts
  {
    if e in s.edges || Activated(e) then done else Beside(done, Trigger(e))
  }

  /** The facts that count as served after a call site has been attached. */
  function DoneWithSite(s: State, done: Facts, k: SiteKind, v: Path, c: CallSite): Facts
  {
    if c in SitesOf(s, k, v) then done else Beside(done, v)
  }

  /** The facts that v had when something was added at it. */
  function FactsAt(s: State, v: Path): (r: Facts)
    ensures forall w, o :: (w, o) in r <==> w == v && o in Get(s.propa, v)
  {
    set o | o in Get(s.propa, v) :: (v, o)
  }

  /** The facts that adding an edge or a call site passes over. */
  function LateWithEdge(s: State, e: Edge): Facts
  {
    if e in s.edges || Activated(e) then {} else FactsAt(s, Trigger(e))
  }

  function LateWithSite(s: State, k: SiteKind, v: Path, c: CallSite): Facts
  {
    if c in SitesOf(s, k, v) then {} else FactsAt(s, v)
  }

  /** As long as no node feeds itself, the facts that were not sent on along everything are late ones. */
  ghost predicate LateOk(s: State, done: Facts, late: Facts)
  {
    && (forall v, o :: (v, o) in late ==> o in Get(s.propa, v))
    && (NoSelfFeed(Items(s)) ==> AllDone(s, done + late))
  }

  lemma NoSelfFeedInside(X: iset<Item>, Y: iset<Item>)
    requires X <= Y && NoSelfFeed(Y)
    ensures NoSelfFeed(X)
  {
  }

  lemma LateStaysOk(s: State, t: State, done: Facts, late: Facts, done': Facts, late': Facts)
    requires LateOk(s, done, late) && Items(s) <= Items(t) && t.propa == s.propa && late <= late'
    requires forall v, o :: (v, o) in late' ==> o in Get(t.propa, v)
    requires forall v, o :: (v, o) in done && o in Get(t.propa, v) ==> (v, o) in done' || (v, o) in late'
    ensures LateOk(t, done', late')
  {
    hide Items, NoSelfFeed;
    if NoSelfFeed(Items(t)) {
      NoSelfFeedInside(Items(s), Items(t));
    }
  }

  // ----- what adding something late costs

  /** The consequence of e for an object of its trigger. */
  ghost predicate EdgeServes(env: Env, X: iset<Item>, e: Edge, o: Path)
  {
    match e.kind
    case Load(j) => Arc(Edge(AppendProjection(o, j), e.dst, Direct)) in X
    case Store(j) => Arc(Edge(e.src, AppendProjection(o, j), Direct)) in X
    case Gep(j) => Pts(e.dst, AppendProjection(o, j)) in X
    case Addr => true
    case _ => env.pass(e.src, e.dst, o) ==> Pts(e.dst, o) in X
  }

  /** Adding an edge passes over the facts that its trigger already had, unless a queue activates it; each of
      them stays served exactly when what the edge would give is there. */
  lemma EdgePassesOverExactly(env: Env, s: State, done: Facts, e: Edge, v: Path, o: Path)
    requires Ready(env, s, done) && (v, o) in done
    ensures var t := AddInternal(s, e);
      && ((v, o) in DoneWithEdge(s, done, e) <==> e in s.edges || Activated(e) || v != Trigger(e))
      && (e !in s.edges && !Activated(e) && v == Trigger(e) ==> (ServedOne(env, t, v, o) <==> EdgeServes(env, Items(t), e, o)))
  {
    hide Items;
    AddInternalKeeps(env, s, done, e);
    assert ServedOne(env, s, v, o);
    if e !in s.edges && !Activated(e) && v == Trigger(e) {
      LateEdgeServes(env, s, AddInternal(s, e), e, v, o);
    }
  }

  lemma LateEdgeServes(env: Env, s: State, t: State, e: Edge, v: Path, o: Path)
    requires ServedOne(env, s, v, o) && Items(t) == Items(s) + iset{Arc(e)} && v == Trigger(e) && !Activated(e)
    requires t.interQueue == s.interQueue + if IsQueued(e.src) then [e] else []
    requires e !in s.interQueue
    ensures ServedOne(env, t, v, o) <==> EdgeServes(env, Items(t), e, o)
  {
    hide Items, RespectsDyn, RespectsFnptr, RespectsFntrait, RespectsFlowApart, RespectsLoad, RespectsStore,
         RespectsGep, EdgeServes;
    CallsWithOneMore(env, Items(s), Items(t), Arc(e), v, o);
    if Flows(e.kind) {
      assert t.interQueue == s.interQueue;
      MemoryWithOneMore(Items(s), Items(t), Arc(e), v, o);
      LateFlowServes(env, Items(s), Items(t), e, o, s.interQueue);
    } else {
      FlowWithOneMore(env, Items(s), Items(t), Arc(e), v, o, s.interQueue, t.interQueue);
      LateMemoryServes(env, Items(s), Items(t), e, o);
    }
  }

  lemma LateFlowServes(env: Env, X: iset<Item>, Y: iset<Item>, e: Edge, o: Path, q: seq<Edge>)
    requires Y == X + iset{Arc(e)} && Flows(e.kind) && e !in q && RespectsFlowApart(env, X, e.src, o, q)
    ensures RespectsFlowApart(env, Y, e.src, o, q) <==> EdgeServes(env, Y, e, o)
  {
  }

  lemma LateMemoryServes(env: Env, X: iset<Item>, Y: iset<Item>, e: Edge, o: Path)
    requires Y == X + iset{Arc(e)} && !Flows(e.kind)
    requires RespectsLoad(X, Trigger(e), o) && RespectsStore(X, Trigger(e), o) && RespectsGep(X, Trigger(e), o)
    ensures RespectsLoad(Y, Trigger(e), o) && RespectsStore(Y, Trigger(e), o) && RespectsGep(Y, Trigger(e), o) <==> EdgeServes(env, Y, e, o)
  {
  }

  /** What an object of the pointer v means at a call site. */
  ghost predicate SiteServes(env: Env, X: iset<Item>, k: SiteKind, c: CallSite, o: Path)
  {
    match k
    case DynSite => env.dynTarget(c, o).Some? ==> Called(env.dynTarget(c, o).value) in X
    case FnPtrSite => env.fnTarget(c, o).Some? ==> Called(env.fnTarget(c, o).value) in X
    case FnTraitSite => RespectsTrait(X, o, env.traitTarget(c, o))
  }

  /** Attaching a call site passes over the facts that its pointer already had; each of them stays served
      exactly when the call that it decides is there. */
  lemma SitePassesOverExactly(env: Env, s: State, done: Facts, k: SiteKind, p: Path, c: CallSite, v: Path, o: Path)
    requires Ready(env, s, done) && (v, o) in done
    ensures var t := Attach(s, k, p, c);
      && ((v, o) in DoneWithSite(s, done, k, p, c) <==> c in SitesOf(s, k, p) || v != p)
      && (c !in SitesOf(s, k, p) && v == p ==> (ServedOne(env, t, v, o) <==> SiteServes(env, Items(t), k, c, o)))
  {
    hide Items, RespectsFlowApart, RespectsLoad, RespectsStore, RespectsGep;
    AttachKeeps(env, s, done, k, p, c);
    assert ServedOne(env, s, v, o);
    if c !in SitesOf(s, k, p) && v == p {
      LateSiteServes(env, s, Attach(s, k, p, c), k, v, c, o);
    }
  }

  lemma LateSiteServes(env: Env, s: State, t: State, k: SiteKind, v: Path, c: CallSite, o: Path)
    requires ServedOne(env, s, v, o) && Items(t) == Items(s) + iset{Site(k, v, c)} && t.interQueue == s.interQueue
    ensures ServedOne(env, t, v, o) <==> SiteServes(env, Items(t), k, c, o)
  {
    hide Items, RespectsFlowApart, RespectsLoad, RespectsStore, RespectsGep, RespectsDyn, RespectsFnptr,
         RespectsFntrait, SiteServes;
    FlowWithOneMore(env, Items(s), Items(t), Site(k, v, c), v, o, s.interQueue, t.interQueue);
    MemoryWithOneMore(Items(s), Items(t), Site(k, v, c), v, o);
    LateCallServes(env, Items(s), Items(t), k, v, c, o);
  }

  lemma LateCallServes(env: Env, X: iset<Item>, Y: iset<Item>, k: SiteKind, v: Path, c: CallSite, o: Path)
    requires Y == X + iset{Site(k, v, c)} && RespectsDyn(env, X, v, o) && RespectsFnptr(env, X, v, o) && RespectsFntrait(env, X, v, o)
    ensures RespectsDyn(env, Y, v, o) && RespectsFnptr(env, Y, v, o) && RespectsFntrait(env, Y, v, o) <==> SiteServes(env, Y, k, c, o)
  {
    forall d | Site(FnTraitSite, v, d) in X ensures RespectsTrait(Y, o, env.traitTarget(d, o)) {
      assert RespectsTrait(X, o, env.traitTarget(d, o));
    }
  }

  // ----- adding to the graph between two runs of the solver

  /** t is s with some more edges and sites; facts and calls are the same. */
  ghost predicate Extends(s: State, t: State)
  {
    t == s.(edges := t.edges, addrQueue := t.addrQueue, interQueue := t.interQueue,
            dynSites := t.dynSites, fnptrSites := t.fnptrSites, fntraitSites := t.fntraitSites)
  }

  lemma OneEdgeMore(s: State, t: State, e: Edge)
    requires t == s.(edges := s.edges + [e], addrQueue := t.addrQueue, interQueue := t.interQueue)
    ensures Items(t) == Items(s) + iset{Arc(e)}
  {
  }

  lemma AddInternalKeeps(env: Env, s: State, done: Facts, e: Edge)
    requires Ready(env, s, done)
    ensures var t := AddInternal(s, e);
      Extends(s, t) && Ready(env, t, DoneWithEdge(s, done, e)) && Items(t) == Items(s) + iset{Arc(e)}
    ensures QueueKinds(s) ==> QueueKinds(AddInternal(s, e))
  {
    hide Items, ServedOne;
    var t := AddInternal(s, e);
    if e in s.edges {
      assert Items(t) == Items(s) + iset{Arc(e)} by { EdgeIsItem(s, e); }
    } else {
      OneEdgeMore(s, t, e);
      forall v, o | (v, o) in DoneWithEdge(s, done, e) ensures o in Get(t.propa, v) && ServedOne(env, t, v, o) {
        assert ServedOne(env, s, v, o);
        NewEdgeServed(env, s, t, e, v, o);
      }
    }
  }

  lemma EdgeIsItem(s: State, e: Edge)
    ensures Arc(e) in Items(s) <==> e in s.edges
  {
  }

  lemma NewEdgeServed(env: Env, s: State, t: State, e: Edge, v: Path, o: Path)
    requires ServedOne(env, s, v, o) && Items(t) == Items(s) + iset{Arc(e)}
    requires s.interQueue <= t.interQueue
    requires (e in t.interQueue && Flows(e.kind)) || e.kind.Addr? || v != Trigger(e)
    ensures ServedOne(env, t, v, o)
  {
    hide Items, RespectsDyn, RespectsFnptr, RespectsFntrait, RespectsFlowApart, RespectsLoad, RespectsStore,
         RespectsGep;
    var X, Y := Items(s), Items(t);
    FlowWithOneMore(env, X, Y, Arc(e), v, o, s.interQueue, t.interQueue);
    MemoryWithOneMore(X, Y, Arc(e), v, o);
    CallsWithOneMore(env, X, Y, Arc(e), v, o);
  }

  /** The item is an edge that concerns facts of v in a way that no queue takes care of. */
  predicate Concerns(i: Item, v: Path, queue: seq<Edge>)
  {
    match i
    case Arc(e) => v == Trigger(e) && Flows(e.kind) && e !in queue
    case _ => false
  }

  lemma FlowWithOneMore(env: Env, X: iset<Item>, Y: iset<Item>, i: Item, v: Path, o: Path, q: seq<Edge>, r: seq<Edge>)
    requires Y == X + iset{i} && q <= r && RespectsFlowApart(env, X, v, o, q) && (i in X || !Concerns(i, v, r))
    ensures RespectsFlowApart(env, Y, v, o, r)
  {
  }

  lemma MemoryWithOneMore(X: iset<Item>, Y: iset<Item>, i: Item, v: Path, o: Path)
    requires Y == X + iset{i} && RespectsLoad(X, v, o) && RespectsStore(X, v, o) && RespectsGep(X, v, o)
    requires i in X || (i.Arc? ==> v != Trigger(i.edge) || i.edge.kind.Addr? || Flows(i.edge.kind))
    ensures RespectsLoad(Y, v, o) && RespectsStore(Y, v, o) && RespectsGep(Y, v, o)
  {
  }

  lemma CallsWithOneMore(env: Env, X: iset<Item>, Y: iset<Item>, i: Item, v: Path, o: Path)
    requires Y == X + iset{i} && RespectsDyn(env, X, v, o) && RespectsFnptr(env, X, v, o) && RespectsFntrait(env, X, v, o)
    requires i in X || (i.Site? ==> i.pointer != v)
    ensures RespectsDyn(env, Y, v, o) && RespectsFnptr(env, Y, v, o) && RespectsFntrait(env, Y, v, o)
  {
  }

  lemma AddInterKeeps(env: Env, s: State, done: Facts, e: Edge)
    requires Ready(env, s, done) && e.kind.Direct?
    ensures var t := AddInter(s, e);
      Extends(s, t) && Ready(env, t, done) && Items(t) == Items(s) + iset{Arc(e)}
    ensures QueueKinds(s) ==> QueueKinds(AddInter(s, e))
    ensures Tame(env, s.interQueue) ==> Tame(env, AddInter(s, e).interQueue)
  {
    hide Items, ServedOne;
    var t := AddInter(s, e);
    if e in s.edges {
      assert Items(t) == Items(s) + iset{Arc(e)} by { EdgeIsItem(s, e); }
    } else {
      OneEdgeMore(s, t, e);
      forall v, o | (v, o) in done ensures o in Get(t.propa, v) && ServedOne(env, t, v, o) {
        assert ServedOne(env, s, v, o);
        NewEdgeServed(env, s, t, e, v, o);
      }
    }
  }

  ghost function Arcs(es: seq<Edge>): iset<Item>
  {
    iset i: Item | i.Arc? && i.edge in es
  }

  lemma {:induction false} AddIntersKeeps(env: Env, s: State, done: Facts, es: seq<Edge>)
    requires Ready(env, s, done) && forall e :: e in es ==> e.kind.Direct?
    ensures var t := AddInters(s, es);
      Extends(s, t) && Ready(env, t, done) && Items(t) == Items(s) + Arcs(es)
    ensures QueueKinds(s) ==> QueueKinds(AddInters(s, es))
    ensures Tame(env, s.interQueue) ==> Tame(env, AddInters(s, es).interQueue)
    decreases |es|
  {
    hide Items, ServedOne, Resting, ServedApart, Tame, QueueKinds;
    if es != [] {
      AddInterKeeps(env, s, done, es[0]);
      AddIntersKeeps(env, AddInter(s, es[0]), done, es[1..]);
      assert Arcs(es) == iset{Arc(es[0])} + Arcs(es[1..]);
    }
  }

  lemma {:induction false} AddIntersConcat(s: State, a: seq<Edge>, b: seq<Edge>)
    ensures AddInters(s, a + b) == AddInters(AddInters(s, a), b)
    decreases |a|
  {
    if a == [] {
      assert a + b == b;
    } else {
      assert (a + b)[0] == a[0] && (a + b)[1..] == a[1..] + b;
      AddIntersConcat(AddInter(s, a[0]), a[1..], b);
    }
  }

  lemma AttachKeeps(env: Env, s: State, done: Facts, k: SiteKind, p: Path, c: CallSite)
    requires Ready(env, s, done)
    ensures var t := Attach(s, k, p, c);
      Extends(s, t) && Ready(env, t, DoneWithSite(s, done, k, p, c)) && Items(t) == Items(s) + iset{Site(k, p, c)}
  {
    hide Items, ServedOne;
    var t := Attach(s, k, p, c);
    OneSiteMore(s, k, p, c);
    forall v, o | (v, o) in DoneWithSite(s, done, k, p, c) ensures o in Get(t.propa, v) && ServedOne(env, t, v, o) {
      assert ServedOne(env, s, v, o);
      if v == p {
        SiteIsItem(s, k, p, c);
      }
      NewSiteServed(env, s, t, k, p, c, v, o);
    }
  }

  lemma SiteIsItem(s: State, k: SiteKind, p: Path, c: CallSite)
    ensures Site(k, p, c) in Items(s) <==> c in SitesOf(s, k, p)
  {
  }

  lemma OneSiteMore(s: State, k: SiteKind, p: Path, c: CallSite)
    ensures Items(Attach(s, k, p, c)) == Items(s) + iset{Site(k, p, c)}
  {
    var t := Attach(s, k, p, c);
    forall i ensures i in Items(t) <==> i in Items(s) || i == Site(k, p, c) {
      if i.Site? {
        assert SitesOf(t, i.kind, i.pointer)
          == SitesOf(s, i.kind, i.pointer) + (if i.kind == k && i.pointer == p then {c} else {});
      }
    }
  }

  lemma NewSiteServed(env: Env, s: State, t: State, k: SiteKind, p: Path, c: CallSite, v: Path, o: Path)
    requires ServedOne(env, s, v, o) && Items(t) == Items(s) + iset{Site(k, p, c)} && t.interQueue == s.interQueue
    requires v != p || Site(k, p, c) in Items(s)
    ensures ServedOne(env, t, v, o)
  {
    hide Items, RespectsDyn, RespectsFnptr, RespectsFntrait, RespectsFlowApart, RespectsLoad, RespectsStore,
         RespectsGep;
    var X, Y := Items(s), Items(t);
    FlowWithOneMore(env, X, Y, Site(k, p, c), v, o, s.interQueue, t.interQueue);
    MemoryWithOneMore(X, Y, Site(k, p, c), v, o);
    CallsWithOneMore(env, X, Y, Site(k, p, c), v, o);
  }

  /** Handing a call over, recording a special call, and forgetting lists whose calls have all been handed
      over. */
  lemma ReportKeeps(env: Env, s: State, done: Facts, c: Call)
    requires Ready(env, s, done)
    ensures var t := s.(reported := s.reported + {c});
      Ready(env, t, done) && Items(t) == Items(s) + iset{Called(c)}
  {
    var t := s.(reported := s.reported + {c});
    assert forall i :: i in Items(t) <==> i in Items(s) || i == Called(c);
    hide Items, ServedOne;
    forall v, o | (v, o) in done ensures o in Get(t.propa, v) && ServedOne(env, t, v, o) {
      assert ServedOne(env, s, v, o);
      OneCallMore(env, s, t, Called(c), v, o);
    }
  }

  lemma RecordKeeps(env: Env, s: State, done: Facts, c: Call)
    requires Ready(env, s, done)
    ensures var t := s.(specials := s.specials + {c});
      Ready(env, t, done) && Items(t) == Items(s) + iset{Special(c)}
  {
    var t := s.(specials := s.specials + {c});
    assert forall i :: i in Items(t) <==> i in Items(s) || i == Special(c);
    hide Items, ServedOne;
    forall v, o | (v, o) in done ensures o in Get(t.propa, v) && ServedOne(env, t, v, o) {
      assert ServedOne(env, s, v, o);
      OneCallMore(env, s, t, Special(c), v, o);
    }
  }

  lemma OneCallMore(env: Env, s: State, t: State, i: Item, v: Path, o: Path)
    requires ServedOne(env, s, v, o) && Items(t) == Items(s) + iset{i} && t.interQueue == s.interQueue && (i.Called? || i.Special?)
    ensures ServedOne(env, t, v, o)
  {
    hide Items, RespectsDyn, RespectsFnptr, RespectsFntrait, RespectsFlowApart, RespectsLoad, RespectsStore,
         RespectsGep;
    FlowWithOneMore(env, Items(s), Items(t), i, v, o, s.interQueue, t.interQueue);
    MemoryWithOneMore(Items(s), Items(t), i, v, o);
    CallsWithOneMore(env, Items(s), Items(t), i, v, o);
  }

  lemma DropListsKeeps(env: Env, s: State, done: Facts)
    requires Ready(env, s, done)
    requires forall c :: c in s.newCalls || c in s.newInstances ==> c in s.reported
    ensures var t := s.(newCalls := [], newInstances := []);
      Ready(env, t, done) && Items(t) == Items(s)
  {
    var t := s.(newCalls := [], newInstances := []);
    assert forall i :: i in Items(t) <==> i in Items(s);
    assert Items(t) == Items(s);
    hide Items;
    forall v, o | (v, o) in done ensures o in Get(t.propa, v) && ServedOne(env, t, v, o) {
      assert ServedOne(env, s, v, o);
    }
  }

  // ----- one run of the solver

  /** The facts that have been sent on when the solver has run. */
  ghost function DoneAfterRun(env: Env, s: State, done: Facts, k: nat): Facts
  {
    DoneAfter(env, InitConstraints(env, s), done, k)
  }

  /** A run leaves the solver at rest with empty queues, forgets nothing, and makes calls only together with
      new facts; if no node feeds itself, no fact but the late ones remains unsent. */
  lemma RunOfSolver(env: Env, s: State, done: Facts, k: nat)
    requires OrderOk(env) && Ready(env, s, done) && Turns(env, InitConstraints(env, s), k).worklist == []
    ensures var t := Turns(env, InitConstraints(env, s), k);
      && Ready(env, t, DoneAfterRun(env, s, done, k)) && t.addrQueue == [] && t.interQueue == []
      && Items(s) + Stray(env, s) <= Items(t) && t.reported == s.reported && t.specials == s.specials
      && (t.newCalls != s.newCalls || t.newInstances != s.newInstances ==> FoundNew(s, t))
      && (forall late :: LateOk(s, done, late) ==> LateOk(t, DoneAfterRun(env, s, done, k), late))
      && (QueueKinds(s) ==> StrayOk(env, Items(t), Stray(env, s)))
  {
    hide Turn, Turns, StrayOk, QueueKinds, Items, Least, NoSelfFeed, Inv, Closed, InitConstraints, Stray, DoneAfter, Resting, ServedApart;
    var s1 := InitConstraints(env, s);
    var t := Turns(env, s1, k);
    RestingQueues(env, s, done);
    InitEstablishesInv(env, s, done);
    StrayIsFound(env, s);
    StepInvariants(env, s1, done, k);
    TurnsKeepQueues(env, s1, k);
    InvAtRestIsReady(env, t, DoneAfter(env, s1, done, k));
    InitQuiet(env, s);
    if s1.worklist == [] {
      NoTurns(env, s1, k);
    } else {
      FoundNewStays(s, s1, t);
    }
    if QueueKinds(s) {
      StrayIsOk(env, s);
      StrayStaysOk(env, Items(s1), Items(t), Stray(env, s));
    }
    forall late | LateOk(s, done, late) ensures LateOk(t, DoneAfterRun(env, s, done, k), late) {
      RunKeepsLate(env, s, done, late, k);
    }
  }

  lemma RunKeepsLate(env: Env, s: State, done: Facts, late: Facts, k: nat)
    requires OrderOk(env) && Ready(env, s, done) && LateOk(s, done, late)
    ensures LateOk(Turns(env, InitConstraints(env, s), k), DoneAfterRun(env, s, done, k), late)
  {
    hide Turn, Turns, Items, Least, NoSelfFeed, Inv, Closed, InitConstraints, Stray, DoneAfter, Resting, ServedApart, OrderOk;
    var s1 := InitConstraints(env, s);
    var t := Turns(env, s1, k);
    InitEstablishesInv(env, s, done);
    RunKeepsItems(env, s1, k);
    RunKeepsPropagated(env, s1, k);
    if NoSelfFeed(Items(t)) {
      NoSelfFeedInside(Items(s), Items(t));
      RunLosesNoMore(env, s1, done, late, k);
    }
  }

  lemma {:induction false} RunKeepsPropagated(env: Env, s: State, k: nat)
    requires OrderOk(env)
    ensures forall v :: Get(s.propa, v) <= Get(Turns(env, s, k).propa, v)
    decreases k
  {
    hide Turn, S8, Flush, OrderOk, EdgesGrow, CallsGrow, WorklistGrows;
    if k > 0 {
      TurnUnfolds(env, s);
      if s.worklist != [] {
        var s0 := Popped(s);
        HandleGrows(env, s0, s.worklist[0]);
        FlushKeepsItems(S8(env, s0, s.worklist[0]), s.worklist[0]);
      }
      RunKeepsPropagated(env, Turn(env, s), k - 1);
    }
  }

  lemma RestingQueues(env: Env, s: State, done: Facts)
    requires Ready(env, s, done)
    ensures QueueOk(s) && Resting(s)
  {
  }

  /** A run stays inside every closed set that has what strays. */
  lemma RunStaysInside(env: Env, s: State, k: nat, X: iset<Item>)
    requires OrderOk(env) && Resting(s) && Items(s) + Stray(env, s) <= X && Closed(env, X)
    ensures Items(Turns(env, InitConstraints(env, s), k)) <= X
  {
    hide Turns, Items, Closed, InitConstraints, Stray, AddressesTaken;
    InitSoundExactly(env, s, X);
    RunStays(env, InitConstraints(env, s), k, X);
  }

  /** Activating the queues enqueues a node only together with a new fact. */
  lemma InitQuiet(env: Env, s: State)
    requires Resting(s)
    ensures InitConstraints(env, s).worklist != [] ==> FoundNew(s, InitConstraints(env, s))
  {
    var u := ProcessAddrs(s, s.addrQueue);
    ProcessAddrsMeaning(env, s, s.addrQueue);
    var s1 := u.(addrQueue := []);
    var w := ProcessInters(env, s1, s1.interQueue);
    ProcessIntersMeaning(env, s1, s1.interQueue);
    if u.worklist != s.worklist {
      GrowthFoundNew(env, s, u);
      var v, o :| o in PtsOf(u, v) && o !in PtsOf(s, v);
      assert o in PtsOf(w, v);
    } else if w.worklist != s1.worklist {
      GrowthFoundNew(env, s1, w);
      var v, o :| o in PtsOf(w, v) && o !in PtsOf(s1, v);
      assert PtsOf(s, v) <= PtsOf(u, v) == PtsOf(s1, v);
    }
  }

  lemma {:induction false} RunStays(env: Env, s: State, k: nat, L: iset<Item>)
    requires OrderOk(env) && Items(s) <= L && Closed(env, L)
    ensures Items(s) <= Items(Turns(env, s, k)) <= L
    decreases k
  {
    hide Turn, Items, Closed, OrderOk;
    if k > 0 {
      TurnSound(env, s, L);
      TurnKeepsItems(env, s);
      RunStays(env, Turn(env, s), k - 1, L);
    }
  }

  lemma {:induction false} NoTurns(env: Env, s: State, k: nat)
    requires s.worklist == []
    ensures Turns(env, s, k) == s
    decreases k
  {
    if k > 0 {
      NoTurns(env, s, k - 1);
    }
  }

  lemma FoundNewStays(s: State, t: State, u: State)
    requires FoundNew(s, t) && Items(t) <= Items(u)
    ensures FoundNew(s, u)
  {
    var v, o :| o in PtsOf(t, v) && o !in PtsOf(s, v);
    assert Pts(v, o) in Items(u);
  }

  /** When no queue holds anything, the facts of a state are closed under the rules exactly when those that
      were never sent on have their consequences. */
  lemma ClosedIffUnsentServed(env: Env, s: State, done: Facts)
    requires Ready(env, s, done) && s.addrQueue == [] && s.interQueue == []
    ensures Closed(env, Items(s)) <==> forall v, o :: Lost(s, done, v, o) ==> Respects(env, Items(s), v, o)
  {
    hide Closed, Items, Lost, Respects;
    NoQueuesMeansInv(env, s, done);
    ClosedIffLostServed(env, s, done);
  }

  lemma NoQueuesMeansInv(env: Env, s: State, done: Facts)
    requires Ready(env, s, done) && s.addrQueue == [] && s.interQueue == []
    ensures Inv(env, s, done)
  {
    hide Items;
    forall v, o | (v, o) in done ensures o in Get(s.propa, v) && Respects(env, Items(s), v, o) {
      assert ServedOne(env, s, v, o);
    }
  }
}
