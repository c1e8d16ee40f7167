/** Facts of static variables and promoted constants reach everything they flow to, even along edges that are added
    in a later round: such edges are queued, and reading the queue sends everything (src/pta/andersen.rs:113-121). */
module Statics {
  import opened Paths
  import opened Constraints
  import opened Solver
  import opened SolverSteps
  import opened SolverNode
  import opened SolverTheorems
  import opened Joint
  import opened Driver
  import opened DriverInvariant
  import opened DriverSteps
  import opened Exit
  import opened Moves

  /** Everything that the source of e has sent on has reached its target. */
  ghost predicate FlowServed(env: Env, s: State, e: Edge)
  {
    forall o :: o in Get(s.propa, e.src) && env.pass(e.src, e.dst, o) ==> o in PtsOf(s, e.dst)
  }

  /** So for all direct and offset edges from static variables and promoted constants that do not wait. */
  ghost predicate StaticsServed(env: Env, s: State)
  {
    forall e {:trigger FlowServed(env, s, e)} ::
      e in s.edges && e !in s.interQueue && (e.src.StaticVariable? || e.src.PromotedConstant?) && Flows(e.kind) ==> FlowServed(env, s, e)
  }

  lemma GrowthKeeps(env: Env, s: State, t: State)
    requires Grows(env, s, t) && StaticsServed(env, s)
    ensures StaticsServed(env, t)
  {
    forall e | e in t.edges && e !in t.interQueue && (e.src.StaticVariable? || e.src.PromotedConstant?) && Flows(e.kind)
      ensures FlowServed(env, t, e)
    {
      if e in s.edges {
        assert FlowServed(env, s, e);
      } else {
        assert Delivered(env, s, t, e);
      }
    }
  }

  lemma SameFlowsKeep(env: Env, s: State, t: State)
    requires t.edges == s.edges && t.interQueue == s.interQueue && t.diff == s.diff && t.propa == s.propa && StaticsServed(env, s)
    ensures StaticsServed(env, t)
  {
    forall e | e in s.edges && FlowServed(env, s, e) ensures FlowServed(env, t, e) {
    }
  }

  /** An edge from a static variable or promoted constant waits in the queue until the next run. */
  lemma InternalKeepsStatics(env: Env, s: State, e: Edge)
    requires StaticsServed(env, s)
    ensures StaticsServed(env, AddInternal(s, e))
  {
    var t := AddInternal(s, e);
    forall f | f in t.edges && f !in t.interQueue && (f.src.StaticVariable? || f.src.PromotedConstant?) && Flows(f.kind)
      ensures FlowServed(env, t, f)
    {
      assert FlowServed(env, s, f);
    }
  }

  lemma {:induction false} IntersKeepStatics(env: Env, s: State, es: seq<Edge>)
    requires StaticsServed(env, s)
    ensures StaticsServed(env, AddInters(s, es))
    decreases |es|
  {
    if es != [] {
      var t := AddInter(s, es[0]);
      forall f | f in t.edges && f !in t.interQueue && (f.src.StaticVariable? || f.src.PromotedConstant?) && Flows(f.kind)
        ensures FlowServed(env, t, f)
      {
        assert FlowServed(env, s, f);
      }
      IntersKeepStatics(env, t, es[1..]);
    }
  }

  /** Reading the queue sends all facts along each edge. */
  lemma InitKeepsStatics(env: Env, s: State)
    requires StaticsServed(env, s)
    ensures StaticsServed(env, InitConstraints(env, s))
  {
    hide CallsGrow, WorklistGrows, ProcessAddrs, ProcessInters;
    var u := ProcessAddrs(s, s.addrQueue);
    ProcessAddrsMeaning(env, s, s.addrQueue);
    GrowthKeeps(env, s, u);
    var s1 := u.(addrQueue := []);
    SameFlowsKeep(env, u, s1);
    var w := ProcessInters(env, s1, s1.interQueue);
    ProcessIntersMeaning(env, s1, s1.interQueue);
    GrowthKeeps(env, s1, w);
    var t := w.(interQueue := []);
    forall e | e in t.edges && (e.src.StaticVariable? || e.src.PromotedConstant?) && Flows(e.kind) ensures FlowServed(env, t, e) {
      if e in s1.interQueue {
        assert Delivered(env, s1, w, e);
      } else {
        assert FlowServed(env, w, e);
      }
    }
  }

  lemma FlushKeepsStatics(env: Env, s0: State, t: State, n: Path)
    requires Grows(env, s0, t) && StaticsServed(env, t) && Get(t.diff, n) == Get(s0.diff, n)
    requires forall o :: o in Get(s0.diff, n) ==> RespectsFlow(env, Items(t), n, o)
    ensures StaticsServed(env, Flush(t, n))
  {
    var u := Flush(t, n);
    FlushKeepsItems(t, n);
    forall e | e in u.edges && e !in u.interQueue && (e.src.StaticVariable? || e.src.PromotedConstant?) && Flows(e.kind)
      ensures FlowServed(env, u, e)
    {
      assert FlowServed(env, t, e);
      forall o | o in Get(u.propa, e.src) && env.pass(e.src, e.dst, o) ensures o in PtsOf(u, e.dst) {
        if o !in Get(t.propa, e.src) {
          assert Arc(e) in Items(t);
          assert Pts(e.dst, o) in Items(t);
          assert Pts(e.dst, o) in Items(u);
        }
      }
    }
  }

  /** A turn of a node that does not feed itself sends all that it flushes. */
  lemma TurnKeepsStatics(env: Env, s: State, X: iset<Item>)
    requires OrderOk(env) && StaticsServed(env, s) && Items(s) <= X && NoSelfFeed(X)
    ensures StaticsServed(env, Turn(env, s))
  {
    hide Turn, S8, Flush, Grows, StaticsServed, Items, NoSelfFeed, SelfFeeds, RespectsFlow, OrderOk;
    TurnUnfolds(env, s);
    if s.worklist != [] {
      var n := s.worklist[0];
      var s0 := Popped(s);
      var t := S8(env, s0, n);
      SameFlowsKeep(env, s, s0);
      HandleGrows(env, s0, n);
      GrowthKeeps(env, s0, t);
      PopKeepsItems(s);
      QuietInside(s0, n, X);
      HandleQuiet(env, s0, n);
      forall o | o in Get(s0.diff, n) ensures RespectsFlow(env, Items(t), n, o) {
        HandleServesEdges(env, s0, n, o);
      }
      FlushKeepsStatics(env, s0, t, n);
    }
  }

  lemma {:induction false} RunKeepsStatics(env: Env, s: State, k: nat)
    requires OrderOk(env) && StaticsServed(env, s) && NoSelfFeed(Items(Turns(env, s, k)))
    ensures StaticsServed(env, Turns(env, s, k))
    decreases k
  {
    hide Turn, Items, NoSelfFeed, OrderOk, StaticsServed;
    if k > 0 {
      RunKeepsItems(env, s, k);
      TurnKeepsStatics(env, s, Items(Turns(env, s, k)));
      RunKeepsStatics(env, Turn(env, s), k - 1);
    }
  }

  /** What is found is never forgotten. */
  lemma MoveKeepsItems(env: Env, prog: Program, d: Drive, m: Move)
    requires OrderOk(env) && Core(env, prog, d) && Possible(env, prog, d, m)
    ensures Items(d.s) <= Items(Moved(env, prog, d, m).s)
  {
    hide Core, Items, Known, Involves, EdgesIn, Next, InTurn, MayCall, MayAdvance, Idle, OrderOk, Turns, InitConstraints, Ready;
    CoreParts(env, prog, d);
    match m
    case AddEdge(f, e) => AddInternalKeeps(env, d.s, d.past.done, e);
    case AddCall(c) => CallItems(env, prog, d, c);
    case AddSpecial(f, c) => RecordKeeps(env, d.s, d.past.done, c);
    case AddSite(f, k, v, c) => AttachKeeps(env, d.s, d.past.done, k, v, c);
    case Solve(k) => RunKeepsCore(env, prog, d, k);
    case Drop => DropKeepsCore(env, prog, d);
    case _ =>
  }

  lemma CallKeepsStatics(env: Env, prog: Program, d: Drive, c: Call)
    requires StaticsServed(env, d.s)
    ensures StaticsServed(env, WithCall(prog, d, c).s)
  {
    hide StaticsServed, AddInters, InterEdges;
    var s := if KeyOf(c) in d.calls then d.s else AddInters(d.s, InterEdges(prog, c));
    IntersKeepStatics(env, d.s, InterEdges(prog, c));
    SameFlowsKeep(env, s, s.(reported := s.reported + {c}));
  }

  lemma MoveKeepsStatics(env: Env, prog: Program, d: Drive, m: Move)
    requires OrderOk(env) && StaticsServed(env, d.s) && NoSelfFeed(Items(Moved(env, prog, d, m).s))
    ensures StaticsServed(env, Moved(env, prog, d, m).s)
  {
    hide StaticsServed, NoSelfFeed, Items, Turns, InitConstraints, AddInternal, OrderOk, Marks, WithCall;
    match m
    case AddEdge(f, e) => InternalKeepsStatics(env, d.s, e);
    case AddCall(c) => CallKeepsStatics(env, prog, d, c);
    case Solve(k) =>
      InitKeepsStatics(env, d.s);
      RunKeepsStatics(env, InitConstraints(env, d.s), k);
    case AddSite(f, k, v, c) => SameFlowsKeep(env, d.s, Attach(d.s, k, v, c));
    case AddSpecial(f, c) => SameFlowsKeep(env, d.s, d.s.(specials := d.s.specials + {c}));
    case Drop => SameFlowsKeep(env, d.s, d.s.(newCalls := [], newInstances := []));
    case _ =>
  }

  lemma {:induction false} PlayKeepsStatics(env: Env, prog: Program, moves: seq<Move>)
    requires OrderOk(env) && Allowed(env, prog, moves) && NoSelfFeed(Items(Play(env, prog, moves).s))
    ensures StaticsServed(env, Play(env, prog, moves).s)
  {
    hide Core, Possible, Moved, OrderOk, Items, NoSelfFeed;
    if moves != [] {
      var before, m := moves[..|moves| - 1], moves[|moves| - 1];
      var d := Play(env, prog, before);
      forall i | 0 <= i < |before| ensures Possible(env, prog, Play(env, prog, before[..i]), before[i]) {
        assert before[..i] == moves[..i];
      }
      PlayKeepsCore(env, prog, before);
      MoveKeepsItems(env, prog, d, m);
      NoSelfFeedInside(Items(d.s), Items(Moved(env, prog, d, m).s));
      PlayKeepsStatics(env, prog, before);
      MoveKeepsStatics(env, prog, d, m);
    }
  }

  /** At the end of every run without self-feeding nodes, whatever a static variable or promoted constant points to
      is also at the target of each direct and offset edge from it that lets it pass, whenever the edge was added. */
  lemma StaticFactsArrive(env: Env, prog: Program, d: Drive, e: Edge, o: Path)
    requires OrderOk(env) && Arises(env, prog, d) && AtExit(d) && NoSelfFeed(Items(d.s))
    requires Arc(e) in Items(d.s) && Flows(e.kind) && (e.src.StaticVariable? || e.src.PromotedConstant?)
    requires Pts(e.src, o) in Items(d.s) && env.pass(e.src, e.dst, o)
    ensures Pts(e.dst, o) in Items(d.s)
  {
    hide Allowed, Play, NoSelfFeed, Core, OrderOk;
    var moves :| Allowed(env, prog, moves) && Play(env, prog, moves) == d;
    PlayKeepsCore(env, prog, moves);
    PlayKeepsStatics(env, prog, moves);
    ExitAccount(env, prog, d);
    assert FlowServed(env, d.s, e);
  }
}
