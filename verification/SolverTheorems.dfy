/** Theorems about whole runs of the solver: step invariants, the exact account of lost facts, the least
    solution, independence of the order, and termination. */
module SolverTheorems {
  import opened Paths
  import opened Constraints
  import opened Solver
  import opened SolverSteps
  import opened SolverCalls
  import opened SolverNode

  type Facts = set<(Path, Path)>

  /** The facts of `done` are propagated and all their consequences are in the state. */
  ghost predicate Served(env: Env, s: State, done: Facts)
  {
    forall v, o :: (v, o) in done ==> o in Get(s.propa, v) && Respects(env, Items(s), v, o)
  }

  ghost predicate AddressesTaken(s: State, apart: seq<Edge>)
  {
    forall e :: e in s.edges && e.kind.Addr? && e !in apart ==> e.src in PtsOf(s, e.dst)
  }

  /** What every state of a run keeps. */
  ghost predicate Inv(env: Env, s: State, done: Facts)
  {
    Disjoint(s) && Pending(s, {}) && AddressesTaken(s, []) && Served(env, s, done)
  }

  function NewFacts(s: State): Facts
  {
    if s.worklist == [] then {} else set o | o in Get(s.diff, s.worklist[0]) :: (s.worklist[0], o)
  }

  /** The facts that have been sent on by the first k turns, on top of those sent before. */
  function DoneAfter(env: Env, s: State, done: Facts, k: nat): Facts
    decreases k
  {
    if k == 0 then done else DoneAfter(env, Turn(env, s), done + NewFacts(s), k - 1)
  }

  // ----- one turn

  /** A turn of the loop: the handlers of the first node, then the flush. */
  lemma TurnUnfolds(env: Env, s: State)
    ensures s.worklist == [] ==> Turn(env, s) == s
    ensures s.worklist != [] ==>
      Turn(env, s) == Flush(S8(env, Popped(s), s.worklist[0]), s.worklist[0])
  {
  }

  lemma PopKeepsItems(s: State)
    requires s.worklist != []
    ensures Items(Popped(s)) == Items(s)
  {
  }

  /** One turn keeps the invariant, and everything that was in the state. */
  lemma TurnKeepsInv(env: Env, s: State, done: Facts)
    requires OrderOk(env) && Inv(env, s, done)
    ensures Inv(env, Turn(env, s), done + NewFacts(s))
    ensures Items(s) <= Items(Turn(env, s))
  {
    hide Turn, S8, Flush, Served, Items, EdgesGrow, CallsGrow, Disjoint, Pending, AddressesTaken;
    TurnUnfolds(env, s);
    if s.worklist != [] {
      var n := s.worklist[0];
      var s0 := Popped(s);
      var t := S8(env, s0, n);
      HandleGrows(env, s0, n);
      FlushKeepsItems(t, n);
      ItemsGrow(env, s0, t);
      PopKeepsItems(s);
      TurnKeepsPending(env, s, s0, t, n);
      TurnServes(env, s, s0, t, n, done);
    } else {
      assert done + NewFacts(s) == done;
    }
  }

  lemma TurnServes(env: Env, s: State, s0: State, t: State, n: Path, done: Facts)
    requires OrderOk(env) && s.worklist != [] && n == s.worklist[0] && s0 == Popped(s)
    requires t == S8(env, s0, n) && Grows(env, s0, t) && Served(env, s, done) && Items(s0) == Items(s)
    ensures Served(env, Flush(t, n), done + NewFacts(s))
  {
    hide S8, Flush, EdgesGrow, CallsGrow, WorklistGrows, Respects, Items;
    FlushKeepsItems(t, n);
    forall v, o | (v, o) in done + NewFacts(s)
      ensures o in Get(Flush(t, n).propa, v) && Respects(env, Items(Flush(t, n)), v, o)
    {
      if (v, o) in done {
        RespectsKept(env, s0, t, v, o);
      } else {
        assert v == n && o in Get(s0.diff, n);
        FactServed(env, s0, n, o);
      }
    }
  }

  lemma FactServed(env: Env, s: State, n: Path, o: Path)
    requires OrderOk(env) && o in Get(s.diff, n)
    ensures Respects(env, Items(S8(env, s, n)), n, o)
  {
    hide S8, Items, RespectsEdges, RespectsDyn, RespectsFnptr, RespectsFntrait;
    HandleServesEdges(env, s, n, o);
    HandleServesCalls(env, s, n, o);
  }

  lemma TurnKeepsPending(env: Env, s: State, s0: State, t: State, n: Path)
    requires s.worklist != [] && n == s.worklist[0] && s0 == Popped(s)
    requires Grows(env, s0, t) && Disjoint(s) && Pending(s, {}) && AddressesTaken(s, [])
    ensures Disjoint(Flush(t, n)) && Pending(Flush(t, n), {}) && AddressesTaken(Flush(t, n), [])
  {
    var u := Flush(t, n);
    FlushKeepsItems(t, n);
    assert Disjoint(s0);
    forall v | Get(u.diff, v) != {} ensures v in u.worklist {
      assert v != n;
      if Get(t.diff, v) == Get(s0.diff, v) {
        assert v in s.worklist;
        assert v in s0.worklist;
      }
    }
    forall v ensures Get(u.diff, v) !! Get(u.propa, v) {
      if v != n {
        assert Get(t.diff, v) !! Get(t.propa, v);
      }
    }
  }

  lemma TurnSound(env: Env, s: State, X: iset<Item>)
    requires OrderOk(env) && Items(s) <= X && Closed(env, X)
    ensures Items(Turn(env, s)) <= X
  {
    hide Turn, S8, Flush, Closed;
    TurnUnfolds(env, s);
    if s.worklist != [] {
      var s0 := Popped(s);
      PopKeepsItems(s);
      HandleSound(env, s0, s.worklist[0], X);
      FlushKeepsItems(S8(env, s0, s.worklist[0]), s.worklist[0]);
    }
  }

  // ----- runs

  /** Step invariants, without any hypothesis on the graph: after any number of turns, unpropagated and
      propagated facts are disjoint, every node with unpropagated facts is on the worklist, nothing was
      forgotten, and everything in the state is derivable. */
  lemma {:induction false} StepInvariants(env: Env, s: State, done: Facts, k: nat)
    requires OrderOk(env) && Inv(env, s, done)
    ensures var t := Turns(env, s, k);
      && Inv(env, t, DoneAfter(env, s, done, k))
      && Items(s) <= Items(t) <= Least(env, Items(s))
    decreases k
  {
    hide Turn, Inv, Items, Least, Closed;
    LeastIsClosed(env, Items(s));
    if k > 0 {
      var u := Turn(env, s);
      TurnKeepsInv(env, s, done);
      TurnSound(env, s, Least(env, Items(s)));
      StepInvariants(env, u, done + NewFacts(s), k - 1);
      LeastIdempotent(env, Items(s), Items(u));
    }
  }

  /** Whenever the worklist of a run is empty, every fact has been propagated. */
  lemma EmptyWorklistMeansPropagated(env: Env, s: State, done: Facts, k: nat)
    requires OrderOk(env) && Inv(env, s, done) && Turns(env, s, k).worklist == []
    ensures forall v :: Get(Turns(env, s, k).diff, v) == {}
  {
    hide Turns, Turn, Items, Least, Served, AddressesTaken;
    StepInvariants(env, s, done, k);
  }

  /** The facts that were propagated without having been sent on. */
  ghost predicate Lost(s: State, done: Facts, v: Path, o: Path)
  {
    o in PtsOf(s, v) && (v, o) !in done
  }

  /** The exact account: when the worklist is empty, the state is the least solution if and only if the
      facts that were never sent on happen to have all their consequences. */
  lemma LeastIffLostFactsServed(env: Env, s: State, done: Facts, k: nat)
    requires OrderOk(env) && Inv(env, s, done)
    requires Turns(env, s, k).worklist == []
    ensures var t := Turns(env, s, k);
      Items(t) == Least(env, Items(s)) <==>
      forall v, o :: Lost(t, DoneAfter(env, s, done, k), v, o) ==> Respects(env, Items(t), v, o)
  {
    hide Turn, Turns, DoneAfter, Least, Closed, Items, Lost, Respects, Inv;
    var t, all := Turns(env, s, k), DoneAfter(env, s, done, k);
    StepInvariants(env, s, done, k);
    LeastIsClosed(env, Items(s));
    ClosedIffLostServed(env, t, all);
    if Closed(env, Items(t)) {
      LeastIsBelow(env, Items(s), Items(t));
    }
  }

  lemma ClosedIffLostServed(env: Env, t: State, all: Facts)
    requires Inv(env, t, all)
    ensures Closed(env, Items(t)) <==> forall v, o :: Lost(t, all, v, o) ==> Respects(env, Items(t), v, o)
  {
  }

  // ----- graphs in which no node feeds itself

  /** No node feeds itself: no load or field-address edge from a node to itself, and no store through a
      pointer that writes the pointer. */
  ghost predicate NoSelfFeed(X: iset<Item>)
  {
    && (forall e :: Arc(e) in X && e.src == e.dst ==> !e.kind.Load? && !e.kind.Gep?)
    && (forall e, o :: Arc(e) in X && e.kind.Store? && Pts(e.dst, o) in X ==> AppendProjection(o, e.kind.proj) != e.dst)
  }

  ghost predicate AllDone(s: State, done: Facts)
  {
    forall v, o :: o in Get(s.propa, v) ==> (v, o) in done
  }

  lemma QuietInside(s: State, n: Path, X: iset<Item>)
    requires Items(s) <= X && NoSelfFeed(X)
    ensures !SelfFeeds(s, n)
  {
  }

  lemma TurnLosesNothing(env: Env, s: State, done: Facts, X: iset<Item>)
    requires OrderOk(env) && Items(s) <= X && NoSelfFeed(X) && AllDone(s, done)
    ensures AllDone(Turn(env, s), done + NewFacts(s))
  {
    hide Turn, S8, Flush, EdgesGrow, CallsGrow, WorklistGrows, Items, NoSelfFeed, SelfFeeds;
    TurnUnfolds(env, s);
    if s.worklist != [] {
      var n := s.worklist[0];
      var s0 := Popped(s);
      var t := S8(env, s0, n);
      HandleGrows(env, s0, n);
      FlushKeepsItems(t, n);
      PopKeepsItems(s);
      QuietInside(s0, n, X);
      HandleQuiet(env, s0, n);
    }
  }

  lemma {:induction false} RunLosesNothing(env: Env, s: State, done: Facts, k: nat, X: iset<Item>)
    requires OrderOk(env) && Items(s) <= X && Closed(env, X) && NoSelfFeed(X) && AllDone(s, done)
    ensures AllDone(Turns(env, s, k), DoneAfter(env, s, done, k))
    decreases k
  {
    hide Turn, Items, AllDone, NoSelfFeed, Closed;
    if k > 0 {
      TurnLosesNothing(env, s, done, X);
      TurnSound(env, s, X);
      RunLosesNothing(env, Turn(env, s), done + NewFacts(s), k - 1, X);
    }
  }

  lemma TurnKeepsItems(env: Env, s: State)
    requires OrderOk(env)
    ensures Items(s) <= Items(Turn(env, s))
  {
    hide Turn, Items, OrderOk, FoundNew, S8, Flush;
    if s.worklist != [] {
      TurnEnqueuesNewFactsOnly(env, s);
    } else {
      TurnUnfolds(env, s);
    }
  }

  lemma {:induction false} RunKeepsItems(env: Env, s: State, k: nat)
    requires OrderOk(env)
    ensures Items(s) <= Items(Turns(env, s, k))
    decreases k
  {
    hide Turn, Items, OrderOk;
    if k > 0 {
      TurnKeepsItems(env, s);
      RunKeepsItems(env, Turn(env, s), k - 1);
    }
  }

  /** It is enough that no node feeds itself in what the run finds; the facts of `late` are left as they are. */
  lemma {:induction false} RunLosesNoMore(env: Env, s: State, done: Facts, late: Facts, k: nat)
    requires OrderOk(env) && NoSelfFeed(Items(Turns(env, s, k))) && AllDone(s, done + late)
    ensures AllDone(Turns(env, s, k), DoneAfter(env, s, done, k) + late)
    decreases k
  {
    hide Turn, Items, AllDone, NoSelfFeed, OrderOk;
    if k > 0 {
      RunKeepsItems(env, s, k);
      TurnLosesNothing(env, s, done + late, Items(Turns(env, s, k)));
      assert done + late + NewFacts(s) == done + NewFacts(s) + late;
      RunLosesNoMore(env, Turn(env, s), done + NewFacts(s), late, k - 1);
    }
  }

  /** If no node feeds itself, an empty worklist means the least solution, fully propagated. */
  lemma RunReachesLeast(env: Env, s: State, done: Facts, k: nat)
    requires OrderOk(env) && Inv(env, s, done) && AllDone(s, done)
    requires NoSelfFeed(Least(env, Items(s)))
    requires Turns(env, s, k).worklist == []
    ensures var t := Turns(env, s, k);
      && Items(t) == Least(env, Items(s))
      && (forall v :: Get(t.diff, v) == {})
      && Inv(env, t, DoneAfter(env, s, done, k)) && AllDone(t, DoneAfter(env, s, done, k))
  {
    hide Turn, Turns, Inv, NoSelfFeed, Items, Least, DoneAfter;
    var t := Turns(env, s, k);
    LeastIsClosed(env, Items(s));
    StepInvariants(env, s, done, k);
    EmptyWorklistMeansPropagated(env, s, done, k);
    RunLosesNothing(env, s, done, k, Least(env, Items(s)));
    LeastIffLostFactsServed(env, s, done, k);
  }

  // ----- starting the solver

  /** Along the edges that are not queued. */
  ghost predicate RespectsFlowApart(env: Env, X: iset<Item>, v: Path, o: Path, apart: seq<Edge>)
  {
    forall e :: Arc(e) in X && e.src == v && Flows(e.kind) && e !in apart && env.pass(v, e.dst, o) ==> Pts(e.dst, o) in X
  }

  /** All consequences of a fact, apart from those of queued edges. */
  ghost predicate ServedOne(env: Env, s: State, v: Path, o: Path)
  {
    && RespectsFlowApart(env, Items(s), v, o, s.interQueue)
    && RespectsLoad(Items(s), v, o) && RespectsStore(Items(s), v, o) && RespectsGep(Items(s), v, o)
    && RespectsDyn(env, Items(s), v, o) && RespectsFnptr(env, Items(s), v, o) && RespectsFntrait(env, Items(s), v, o)
  }

  ghost predicate ServedApart(env: Env, s: State, done: Facts)
  {
    forall v, o {:trigger ServedOne(env, s, v, o)} :: (v, o) in done ==> o in Get(s.propa, v) && ServedOne(env, s, v, o)
  }

  /** What the queues hold are edges of the graph. */
  ghost predicate QueueOk(s: State)
  {
    && (forall e :: e in s.addrQueue ==> e in s.edges && e.kind.Addr?)
    && (forall e :: e in s.interQueue ==> e in s.edges)
  }

  /** Reading the second queue treats its edges as direct edges whatever their kind. What that adds along other
      kinds of edges has no other reason to be there. */
  ghost function StrayAlong(env: Env, s: State, es: seq<Edge>): iset<Item>
    decreases |es|
  {
    if es == [] then iset{}
    else
      var e := es[0];
      (iset o | o in Carried(env, s, e, true) && !Flows(e.kind) :: Pts(e.dst, o)) + StrayAlong(env, Propagate(env, s, e, true), es[1..])
  }

  ghost function Stray(env: Env, s: State): iset<Item>
  {
    StrayAlong(env, ProcessAddrs(s, s.addrQueue).(addrQueue := []), s.interQueue)
  }

  /** The edges of a queue carry nothing but what direct and offset edges carry. */
  ghost predicate Tame(env: Env, queue: seq<Edge>)
  {
    forall e :: e in queue ==> Flows(e.kind) || forall o :: !env.pass(e.src, e.dst, o)
  }

  /** X has what all queued edges add as direct edges. */
  ghost predicate QueueSound(env: Env, X: iset<Item>, queue: seq<Edge>)
  {
    forall e, o :: e in queue && Pts(e.src, o) in X && env.pass(e.src, e.dst, o) ==> Pts(e.dst, o) in X
  }

  /** The solver is not at work: nothing is unpropagated. */
  ghost predicate Resting(s: State)
  {
    s.worklist == [] && (forall v :: Get(s.diff, v) == {}) && QueueOk(s) && AddressesTaken(s, s.addrQueue)
  }

  /** A state in which the solver may be started: the facts of `done` have all their consequences along edges
      that are not queued. */
  ghost predicate Ready(env: Env, s: State, done: Facts)
  {
    Resting(s) && ServedApart(env, s, done)
  }

  lemma {:induction false} ProcessAddrsMeaning(env: Env, s: State, es: seq<Edge>)
    ensures var t := ProcessAddrs(s, es);
      && Grows(env, s, t) && t == s.(diff := t.diff, worklist := t.worklist)
      && (forall e :: e in es ==> e.src in PtsOf(t, e.dst))
    decreases |es|
  {
    if es == [] {
      GrowsReflexive(env, s);
    } else {
      var u := AddSet(s, es[0].dst, {es[0].src});
      AddSetGrows(env, s, es[0].dst, {es[0].src});
      ProcessAddrsMeaning(env, u, es[1..]);
      GrowsTransitive(env, s, u, ProcessAddrs(u, es[1..]));
      assert es[0].src in PtsOf(u, es[0].dst);
    }
  }

  lemma {:induction false} ProcessIntersMeaning(env: Env, s: State, es: seq<Edge>)
    ensures var t := ProcessInters(env, s, es);
      && Grows(env, s, t) && t == s.(diff := t.diff, worklist := t.worklist)
      && (forall e :: e in es ==> Delivered(env, s, t, e))
    decreases |es|
  {
    if es == [] {
      GrowsReflexive(env, s);
    } else {
      var e := es[0];
      var u := Propagate(env, s, e, true);
      AddSetGrows(env, s, e.dst, Carried(env, s, e, true));
      ProcessIntersMeaning(env, u, es[1..]);
      var t := ProcessInters(env, u, es[1..]);
      GrowsTransitive(env, s, u, t);
      forall f | f in es ensures Delivered(env, s, t, f) {
        if f == e {
          assert forall o :: o in PtsOf(s, e.src) && env.pass(e.src, e.dst, o) ==> o in Carried(env, s, e, true);
        } else {
          assert Delivered(env, u, t, f);
        }
      }
    }
  }

  lemma {:induction false} ProcessAddrsSound(s: State, es: seq<Edge>, X: iset<Item>)
    requires Items(s) <= X && forall e :: e in es ==> Pts(e.dst, e.src) in X
    ensures Items(ProcessAddrs(s, es)) <= X
    decreases |es|
  {
    if es != [] {
      AddSetSound(s, es[0].dst, {es[0].src}, X);
      ProcessAddrsSound(AddSet(s, es[0].dst, {es[0].src}), es[1..], X);
    }
  }

  lemma {:induction false} ProcessIntersSound(env: Env, s: State, es: seq<Edge>, X: iset<Item>)
    requires Items(s) <= X && Closed(env, X) && StrayAlong(env, s, es) <= X && forall e :: e in es ==> Arc(e) in X
    ensures Items(ProcessInters(env, s, es)) <= X
    decreases |es|
  {
    if es != [] {
      var e := es[0];
      assert e in es;
      forall o | o in Carried(env, s, e, true) ensures Pts(e.dst, o) in X {
        assert Pts(e.src, o) in Items(s);
        assert Respects(env, X, e.src, o);
        assert !Flows(e.kind) ==> Pts(e.dst, o) in StrayAlong(env, s, es);
      }
      AddSetSound(s, e.dst, Carried(env, s, e, true), X);
      assert StrayAlong(env, Propagate(env, s, e, true), es[1..]) <= StrayAlong(env, s, es);
      ProcessIntersSound(env, Propagate(env, s, e, true), es[1..], X);
    }
  }

  /** What strays is really added. */
  lemma {:induction false} StrayIsAdded(env: Env, s: State, es: seq<Edge>)
    ensures StrayAlong(env, s, es) <= Items(ProcessInters(env, s, es))
    decreases |es|
  {
    hide Grows;
    if es != [] {
      var e := es[0];
      var u := Propagate(env, s, e, true);
      AddSetGrows(env, s, e.dst, Carried(env, s, e, true));
      ProcessIntersMeaning(env, u, es[1..]);
      ItemsGrow(env, u, ProcessInters(env, u, es[1..]));
      StrayIsAdded(env, u, es[1..]);
      assert forall o :: o in Carried(env, s, e, true) ==> Pts(e.dst, o) in Items(u);
    }
  }

  lemma {:induction false} StrayInside(env: Env, s: State, es: seq<Edge>, X: iset<Item>)
    requires Items(s) <= X && QueueSound(env, X, es)
    ensures StrayAlong(env, s, es) <= X
    decreases |es|
  {
    if es != [] {
      var e := es[0];
      assert e in es;
      assert forall o :: o in PtsOf(s, e.src) ==> Pts(e.src, o) in Items(s);
      AddSetSound(s, e.dst, Carried(env, s, e, true), X);
      StrayInside(env, Propagate(env, s, e, true), es[1..], X);
    }
  }

  lemma {:induction false} NothingStrays(env: Env, s: State, es: seq<Edge>)
    requires Tame(env, es)
    ensures StrayAlong(env, s, es) == iset{}
    decreases |es|
  {
    if es != [] {
      assert es[0] in es;
      NothingStrays(env, Propagate(env, s, es[0], true), es[1..]);
    }
  }

  lemma QueuesAreNotItems(s: State, a: seq<Edge>, b: seq<Edge>)
    ensures Items(s.(addrQueue := a)) == Items(s) && Items(s.(interQueue := b)) == Items(s)
  {
  }

  lemma AddressesSound(s: State, X: iset<Item>)
    requires QueueOk(s) && Items(s) <= X && forall e :: Arc(e) in X && e.kind.Addr? ==> Pts(e.dst, e.src) in X
    ensures Items(ProcessAddrs(s, s.addrQueue).(addrQueue := [])) <= X
  {
    forall e | e in s.addrQueue ensures Pts(e.dst, e.src) in X {
      assert Arc(e) in Items(s);
    }
    ProcessAddrsSound(s, s.addrQueue, X);
    QueuesAreNotItems(ProcessAddrs(s, s.addrQueue), [], []);
  }

  lemma InitUnfolds(env: Env, s: State)
    ensures InitConstraints(env, s)
      == ProcessInters(env, ProcessAddrs(s, s.addrQueue).(addrQueue := []), s.interQueue).(interQueue := [])
  {
    ProcessAddrsMeaning(env, s, s.addrQueue);
  }

  lemma StrayIsFound(env: Env, s: State)
    ensures Stray(env, s) <= Items(InitConstraints(env, s))
  {
    hide Items, ProcessAddrs, ProcessInters, StrayAlong, InitConstraints;
    var s1 := ProcessAddrs(s, s.addrQueue).(addrQueue := []);
    InitUnfolds(env, s);
    QueuesAreNotItems(ProcessInters(env, s1, s.interQueue), [], []);
    StrayIsAdded(env, s1, s.interQueue);
  }

  /** Activating the queues stays inside a closed set exactly when what strays lies in it. */
  lemma InitSoundExactly(env: Env, s: State, X: iset<Item>)
    requires QueueOk(s) && Items(s) <= X && Closed(env, X)
    ensures Items(InitConstraints(env, s)) <= X <==> Stray(env, s) <= X
  {
    hide Items, ProcessAddrs, ProcessInters, StrayAlong, InitConstraints, Respects;
    var s1 := ProcessAddrs(s, s.addrQueue).(addrQueue := []);
    InitUnfolds(env, s);
    AddressesSound(s, X);
    QueuesAreNotItems(ProcessInters(env, s1, s.interQueue), [], []);
    StrayIsFound(env, s);
    if Stray(env, s) <= X {
      QueuedAreItems(s);
      ProcessIntersSound(env, s1, s.interQueue, X);
    }
  }

  lemma QueuedAreItems(s: State)
    requires QueueOk(s)
    ensures forall e :: e in s.interQueue ==> Arc(e) in Items(s)
  {
  }

  /** Nothing strays when the queue holds direct and offset edges only. */
  lemma TameQueueIsHarmless(env: Env, s: State)
    ensures Tame(env, s.interQueue) ==> Stray(env, s) == iset{}
  {
    if Tame(env, s.interQueue) {
      NothingStrays(env, ProcessAddrs(s, s.addrQueue).(addrQueue := []), s.interQueue);
    }
  }

  lemma StrayStaysInside(env: Env, s: State, X: iset<Item>)
    requires QueueOk(s) && Items(s) <= X && Closed(env, X) && QueueSound(env, X, s.interQueue)
    ensures Stray(env, s) <= X
  {
    hide Items, ProcessAddrs, StrayAlong;
    AddressesSound(s, X);
    StrayInside(env, ProcessAddrs(s, s.addrQueue).(addrQueue := []), s.interQueue, X);
  }

  /** Reading both queues establishes the invariant of the worklist loop. */
  lemma InitEstablishesInv(env: Env, s: State, done: Facts)
    requires Ready(env, s, done)
    ensures var t := InitConstraints(env, s);
      && Inv(env, t, done) && Items(s) <= Items(t)
      && t.propa == s.propa && t.newCalls == s.newCalls && t.newInstances == s.newInstances
      && t.reported == s.reported && t.specials == s.specials && t.edges == s.edges && t.addrQueue == [] && t.interQueue == []
      && t.dynSites == s.dynSites && t.fnptrSites == s.fnptrSites && t.fntraitSites == s.fntraitSites
  {
    var r := s.(addrQueue := []);
    var u := ProcessAddrs(r, s.addrQueue);
    ProcessAddrsMeaning(env, r, s.addrQueue);
    ProcessAddrsQueue(s, s.addrQueue);
    var w := ProcessInters(env, u, s.interQueue);
    ProcessIntersMeaning(env, u, s.interQueue);
    GrowsTransitive(env, r, u, w);
    var t := w.(interQueue := []);
    assert t == InitConstraints(env, s);
    ItemsGrow(env, r, w);
    QueuesAreNotItems(s, [], []);
    QueuesAreNotItems(w, [], []);
    InitServes(env, s, done, r, u, w);
    assert Disjoint(r);
    forall v | Get(t.diff, v) != {} ensures v in t.worklist {
      assert Get(r.diff, v) == {};
    }
    forall e | e in t.edges && e.kind.Addr? ensures e.src in PtsOf(t, e.dst) {
      if e in s.addrQueue {
        assert e.src in PtsOf(u, e.dst);
      } else {
        assert e.src in PtsOf(s, e.dst);
      }
    }
  }

  lemma {:induction false} ProcessAddrsQueue(s: State, es: seq<Edge>)
    ensures ProcessAddrs(s.(addrQueue := []), es) == ProcessAddrs(s, es).(addrQueue := [])
    decreases |es|
  {
    if es != [] {
      ProcessAddrsQueue(AddSet(s, es[0].dst, {es[0].src}), es[1..]);
    }
  }

  lemma InitServes(env: Env, s: State, done: Facts, r: State, u: State, w: State)
    requires ServedApart(env, s, done) && r == s.(addrQueue := [])
    requires Grows(env, r, u) && Grows(env, r, w)
    requires forall e :: e in s.interQueue ==> Delivered(env, u, w, e)
    ensures Served(env, w.(interQueue := []), done)
  {
    hide Items, Grows, ServedOne, Respects, Delivered;
    QueuesAreNotItems(s, [], []);
    QueuesAreNotItems(w, [], []);
    forall v, o | (v, o) in done
      ensures o in Get(w.propa, v) && Respects(env, Items(w), v, o)
    {
      assert ServedOne(env, s, v, o);
      FactServedAtInit(env, s, r, u, w, v, o);
    }
  }

  lemma FactServedAtInit(env: Env, s: State, r: State, u: State, w: State, v: Path, o: Path)
    requires r == s.(addrQueue := []) && Items(r) == Items(s) && o in Get(s.propa, v) && ServedOne(env, s, v, o)
    requires Grows(env, r, u) && Grows(env, r, w)
    requires forall e :: e in s.interQueue ==> Delivered(env, u, w, e)
    ensures o in Get(w.propa, v) && Respects(env, Items(w), v, o)
  {
    hide RespectsLoad, RespectsStore, RespectsGep, RespectsDyn, RespectsFnptr, RespectsFntrait, Items;
    MemoryEdgesKept(env, r, w);
    RespectsMemoryKept(Items(r), Items(w), v, o);
    RespectsDynKept(env, r, w, v, o);
    RespectsFnptrKept(env, r, w, v, o);
    RespectsFntraitKept(env, r, w, v, o);
    FlowServedAtInit(env, s, r, u, w, v, o);
  }

  lemma FlowServedAtInit(env: Env, s: State, r: State, u: State, w: State, v: Path, o: Path)
    requires r == s.(addrQueue := []) && o in Get(s.propa, v) && RespectsFlowApart(env, Items(s), v, o, s.interQueue)
    requires Grows(env, r, u) && Grows(env, r, w) && Items(s) <= Items(w)
    requires forall e :: e in s.interQueue ==> Delivered(env, u, w, e)
    ensures RespectsFlow(env, Items(w), v, o)
  {
    hide CallsGrow, WorklistGrows;
    assert o in PtsOf(r, v) && o in PtsOf(u, v);
    forall e | Arc(e) in Items(w) && e.src == v && Flows(e.kind) && env.pass(v, e.dst, o)
      ensures Pts(e.dst, o) in Items(w)
    {
      if e in s.interQueue {
        assert Delivered(env, u, w, e);
      } else if e in s.edges {
        assert Arc(e) in Items(s);
      } else {
        assert Delivered(env, r, w, e);
      }
    }
  }

  // ----- the theorem

  /** The solver's result. If no node feeds itself and the edges outside the queues are satisfied by the
      propagated facts, then whenever the worklist is empty all facts are propagated and the state holds
      exactly the least solution of the graph it was started on, with what strays along the queue. It is the
      least solution of the graph itself exactly when that contains what strays. */
  lemma SolverReachesLeastSolution(env: Env, s: State, done: Facts, k: nat)
    requires OrderOk(env) && Ready(env, s, done) && AllDone(s, done)
    requires NoSelfFeed(Least(env, Items(s) + Stray(env, s)))
    requires Turns(env, InitConstraints(env, s), k).worklist == []
    ensures var t := Turns(env, InitConstraints(env, s), k);
      && Items(t) == Least(env, Items(s) + Stray(env, s))
      && (Items(t) == Least(env, Items(s)) <==> Stray(env, s) <= Least(env, Items(s)))
      && (forall v :: Get(t.diff, v) == {})
      && Ready(env, t, DoneAfter(env, InitConstraints(env, s), done, k))
      && AllDone(t, DoneAfter(env, InitConstraints(env, s), done, k))
  {
    hide Turn, Turns, DoneAfter, InitConstraints, Items, Least, NoSelfFeed, QueueOk, Stray, Closed;
    var s1 := InitConstraints(env, s);
    var t, all := Turns(env, s1, k), DoneAfter(env, s1, done, k);
    InitEstablishesInv(env, s, done);
    StartedInside(env, s);
    RunReachesLeast(env, s1, done, k);
    TurnsKeepQueues(env, s1, k);
    InvAtRestIsReady(env, t, all);
    LeastIsClosed(env, Items(s));
    if Stray(env, s) <= Least(env, Items(s)) {
      LeastIdempotent(env, Items(s), Items(s) + Stray(env, s));
    } else {
      LeastIsClosed(env, Items(s) + Stray(env, s));
    }
  }

  /** Once the queues have been activated the least solution has all that strays. */
  lemma StartedInside(env: Env, s: State)
    requires QueueOk(s) && Items(s) <= Items(InitConstraints(env, s))
    ensures Items(InitConstraints(env, s)) <= Least(env, Items(s) + Stray(env, s))
    ensures Least(env, Items(InitConstraints(env, s))) == Least(env, Items(s) + Stray(env, s))
  {
    hide Items, Least, InitConstraints, QueueOk, Stray, Closed;
    var base := Items(s) + Stray(env, s);
    LeastIsClosed(env, base);
    InitSoundExactly(env, s, Least(env, base));
    StrayIsFound(env, s);
    LeastIdempotent(env, base, Items(InitConstraints(env, s)));
  }

  lemma InvAtRestIsReady(env: Env, t: State, done: Facts)
    requires Inv(env, t, done) && t.worklist == [] && t.addrQueue == [] && t.interQueue == []
    ensures Ready(env, t, done)
  {
  }

  lemma {:induction false} TurnsKeepQueues(env: Env, s: State, k: nat)
    requires OrderOk(env)
    ensures var t := Turns(env, s, k);
      t.addrQueue == s.addrQueue && t.interQueue == s.interQueue && t.reported == s.reported && t.specials == s.specials
      && t.dynSites == s.dynSites && t.fntraitSites == s.fntraitSites
    decreases k
  {
    hide Turn, S8, Flush, EdgesGrow;
    if k > 0 {
      TurnUnfolds(env, s);
      if s.worklist != [] {
        var s0 := Popped(s);
        HandleGrows(env, s0, s.worklist[0]);
        FlushKeepsItems(S8(env, s0, s.worklist[0]), s.worklist[0]);
      }
      TurnsKeepQueues(env, Turn(env, s), k - 1);
    }
  }

  /** The result does not depend on the order of the worklist, of the edges, of the queues or of any
      traversal: two runs over the same items with the same types and targets end with the same items. */
  lemma ResultIsOrderIndependent(env: Env, s: State, done: Facts, k: nat, env': Env, s': State, done': Facts, k': nat)
    requires OrderOk(env) && Ready(env, s, done) && AllDone(s, done) && Turns(env, InitConstraints(env, s), k).worklist == []
    requires OrderOk(env') && Ready(env', s', done') && AllDone(s', done')
    requires Turns(env', InitConstraints(env', s'), k').worklist == []
    requires env' == env.(order := env'.order, siteOrder := env'.siteOrder)
    requires Items(s) == Items(s') && NoSelfFeed(Least(env, Items(s)))
    requires Stray(env, s) <= Least(env, Items(s)) && Stray(env', s') <= Least(env, Items(s))
    ensures Items(Turns(env, InitConstraints(env, s), k)) == Items(Turns(env', InitConstraints(env', s'), k'))
    ensures forall v ::
      Get(Turns(env, InitConstraints(env, s), k).propa, v) == Get(Turns(env', InitConstraints(env', s'), k').propa, v)
  {
    hide Turn, Turns, Items, Least, InitConstraints, Ready, AllDone, NoSelfFeed, OrderOk, DoneAfter, Stray, Closed;
    SameRules(env, env', Items(s));
    LeastIsClosed(env, Items(s));
    LeastIdempotent(env, Items(s), Items(s) + Stray(env, s));
    LeastIdempotent(env', Items(s), Items(s) + Stray(env', s'));
    SolverReachesLeastSolution(env, s, done, k);
    SolverReachesLeastSolution(env', s', done', k');
    SamePropagated(Turns(env, InitConstraints(env, s), k), Turns(env', InitConstraints(env', s'), k'));
  }

  lemma SamePropagated(t: State, t': State)
    requires Items(t) == Items(t') && (forall v :: Get(t.diff, v) == {}) && (forall v :: Get(t'.diff, v) == {})
    ensures forall v :: Get(t.propa, v) == Get(t'.propa, v)
  {
    forall v ensures Get(t.propa, v) == Get(t'.propa, v) {
      forall o ensures o in Get(t.propa, v) <==> o in Get(t'.propa, v) {
        assert Pts(v, o) in Items(t) <==> Pts(v, o) in Items(t');
      }
    }
  }

  lemma SameRules(env: Env, env': Env, base: iset<Item>)
    requires env' == env.(order := env'.order, siteOrder := env'.siteOrder)
    ensures Least(env, base) == Least(env', base)
  {
    forall X: iset<Item> ensures Closed(env, X) <==> Closed(env', X) {
      forall v, o ensures Respects(env, X, v, o) <==> Respects(env', X, v, o) {
      }
      if Closed(env, X) {
        forall v, o | Pts(v, o) in X ensures Respects(env', X, v, o) { assert Respects(env, X, v, o); }
      }
      if Closed(env', X) {
        forall v, o | Pts(v, o) in X ensures Respects(env, X, v, o) { assert Respects(env', X, v, o); }
      }
    }
  }

  // ----- termination

  /** What a bound still leaves to be found. */
  ghost function Missing(s: State, bound: set<Item>): set<Item>
  {
    set i | i in bound && !Says(s, i)
  }

  lemma MissingShrinks(s: State, t: State, bound: set<Item>)
    requires Items(s) <= Items(t)
    ensures Missing(t, bound) <= Missing(s, bound)
  {
    forall i | i in Missing(t, bound) ensures i in Missing(s, bound) {
      assert i !in Items(t);
    }
  }

  ghost predicate FoundNew(s: State, t: State)
  {
    exists v, o :: o in PtsOf(t, v) && o !in PtsOf(s, v)
  }

  lemma GrowthFoundNew(env: Env, s: State, t: State)
    requires Grows(env, s, t) && t.worklist != s.worklist
    ensures FoundNew(s, t)
  {
  }

  /** Nothing is forgotten, and a node is enqueued only together with a new fact. */
  lemma TurnEnqueuesNewFactsOnly(env: Env, s: State)
    requires OrderOk(env) && s.worklist != []
    ensures Items(s) <= Items(Turn(env, s))
    ensures Turn(env, s).worklist != s.worklist[1..] ==> FoundNew(s, Turn(env, s))
  {
    hide Turn, S8, Flush, Grows, Items;
    TurnUnfolds(env, s);
    var n := s.worklist[0];
    var s0 := Popped(s);
    var t := S8(env, s0, n);
    HandleGrows(env, s0, n);
    FlushKeepsItems(t, n);
    ItemsGrow(env, s0, t);
    PopKeepsItems(s);
    if t.worklist != s0.worklist {
      GrowthFoundNew(env, s0, t);
    }
  }

  lemma FoundNewFillsIn(s: State, t: State, bound: set<Item>)
    requires FoundNew(s, t) && forall i :: i in Items(t) ==> i in bound
    ensures exists i :: i in Missing(s, bound) && i !in Missing(t, bound)
  {
    var v, o :| o in PtsOf(t, v) && o !in PtsOf(s, v);
    assert Pts(v, o) in Items(t);
    assert Pts(v, o) in Missing(s, bound) && Pts(v, o) !in Missing(t, bound);
  }

  /** Each turn finds something new or shortens the worklist. */
  lemma TurnDecreases(env: Env, s: State, bound: set<Item>)
    requires OrderOk(env) && s.worklist != []
    requires forall i :: i in Items(Turn(env, s)) ==> i in bound
    ensures Missing(Turn(env, s), bound) < Missing(s, bound)
      || (Missing(Turn(env, s), bound) == Missing(s, bound) && |Turn(env, s).worklist| < |s.worklist|)
  {
    hide Turn, Items, Missing, FoundNew;
    TurnEnqueuesNewFactsOnly(env, s);
    MissingShrinks(s, Turn(env, s), bound);
    if Turn(env, s).worklist != s.worklist[1..] {
      FoundNewFillsIn(s, Turn(env, s), bound);
    }
  }

  /** The solver stops whenever the least solution is finite. */
  lemma {:induction false} SolverTerminates(env: Env, s: State, bound: set<Item>) returns (k: nat)
    requires OrderOk(env)
    requires forall i :: i in Least(env, Items(s)) ==> i in bound
    ensures Turns(env, s, k).worklist == []
    decreases Missing(s, bound), |s.worklist|
  {
    hide Turn;
    if s.worklist == [] {
      k := 0;
    } else {
      var u := Turn(env, s);
      LeastIsClosed(env, Items(s));
      TurnSound(env, s, Least(env, Items(s)));
      TurnDecreases(env, s, bound);
      forall i | i in Least(env, Items(u)) ensures i in bound {
        LeastIsBelow(env, Items(u), Least(env, Items(s)));
      }
      var j := SolverTerminates(env, u, bound);
      k := j + 1;
    }
  }
}
