/** Edges from promoted constants and static variables are queued and then processed as direct edges, whatever
    their kind (src/pta/andersen.rs:113-121): a program on which that adds a fact that nothing justifies. */
module QueuedStore {
  import opened Options
  import opened Paths
  import opened Constraints
  import opened Solver
  import opened SolverSteps
  import opened SolverTheorems
  import opened Joint
  import opened Driver

  // p = &o;  (*p).next = CONST;  where the promoted constant CONST is  &o2
  const MAIN: FuncId := 0
  const PROMOTED: FuncId := 1
  const P := LocalVariable(MAIN, 1)
  const O := LocalVariable(MAIN, 2)
  const O2 := LocalVariable(PROMOTED, 1)
  const CONST := PromotedConstant(0, 0)
  const NEXT: Projection := [Field(0)]
  const O_NEXT := QualifiedPath(O, NEXT)

  const TAKE_O := Edge(O, P, Addr)
  const STORE := Edge(CONST, P, Store(NEXT))
  const TAKE_O2 := Edge(O2, CONST, Addr)
  const FOUND := Edge(CONST, O_NEXT, Direct)

  const PROGRAM := Program(
    MAIN,
    f => if f == MAIN then Some(Body([], [], [], [], [])) else None,
    f => if f == MAIN then [TAKE_O, STORE] else if f == PROMOTED then [TAKE_O2] else [],
    f => if f == MAIN then [PROMOTED] else [],
    f => {},
    f => if f == MAIN then 1 else 0,
    p => [[]],
    f => true)

  const EMPTY := State([], map[], map[], map[], map[], map[], [], [], [], [], {}, {}, [], 0)
  const START := EMPTY.(edges := [TAKE_O, STORE, TAKE_O2], addrQueue := [TAKE_O, TAKE_O2], interQueue := [STORE])

  /** The driver adds the edges of the function and then those of its promoted constant. */
  lemma DriverBuildsStart(env: Env)
    ensures AddInternal(AddInternal(AddInternal(EMPTY, TAKE_O), STORE), TAKE_O2) == START
    ensures Ready(env, START, {})
  {
    assert forall v :: Get(START.diff, v) == {} && Get(START.propa, v) == {};
  }

  /** What the rules give: the store makes the next field of o point to o2. */
  ghost predicate Justified(i: Item)
  {
    match i
    case Pts(v, o) => (v == P && o == O) || (v == CONST && o == O2) || (v == O_NEXT && o == O2)
    case Arc(e) => e == TAKE_O || e == STORE || e == TAKE_O2 || e == FOUND
    case _ => false
  }

  lemma JustifiedIsClosed(env: Env, X: iset<Item>)
    requires forall i :: i in X <==> Justified(i)
    ensures Closed(env, X)
  {
    assert AppendProjection(O, NEXT) == O_NEXT;
    forall v, o | Pts(v, o) in X ensures Respects(env, X, v, o) {
      assert forall k, p, c :: Site(k, p, c) !in X;
    }
  }

  lemma StartIsJustified(X: iset<Item>)
    requires forall i :: i in X <==> Justified(i)
    ensures Items(START) <= X
  {
    assert forall v :: PtsOf(START, v) == {};
    assert forall k, v :: SitesOf(START, k, v) == {};
  }

  lemma JustifiedHoldsProgram(env: Env, X: iset<Item>)
    requires forall i :: i in X <==> Justified(i)
    ensures JointClosed(env, PROGRAM, AllBut(iset{}, iset{}), X)
  {
    JustifiedIsClosed(env, X);
    hide Closed;
    forall f, g, e | f == MAIN && Involves(PROGRAM, f, g) && e in PROGRAM.edgesOf(g) ensures Arc(e) in X {
    }
    forall f | Reached(PROGRAM, X, f) ensures FunctionIn(PROGRAM, X, f) {
      assert forall c :: !InCallGraph(X, c);
    }
  }

  /** No rule makes p point to o2. */
  lemma NothingJustifiesIt(env: Env)
    ensures Pts(P, O2) !in Least(env, Items(START))
    ensures Pts(P, O2) !in JointLeast(env, PROGRAM, AllBut(iset{}, iset{}), iset{})
  {
    hide Items, Closed, JointClosed;
    var X := iset i: Item | Justified(i);
    JustifiedIsClosed(env, X);
    StartIsJustified(X);
    JustifiedHoldsProgram(env, X);
    LeastIsBelow(env, Items(START), X);
    JointLeastIsBelow(env, PROGRAM, AllBut(iset{}, iset{}), iset{}, X);
  }

  /** What strays: the constant points to o2 when the queue is read, and the store passes it on to p. */
  lemma StoreStrays(env: Env)
    requires env.pass(CONST, P, O2)
    ensures Stray(env, START) == iset{Pts(P, O2)}
  {
    var s1 := AddSet(START, P, {O});
    var s2 := AddSet(s1, CONST, {O2});
    assert [TAKE_O, TAKE_O2][1..] == [TAKE_O2];
    assert ProcessAddrs(START, START.addrQueue) == ProcessAddrs(s1, [TAKE_O2]) == ProcessAddrs(s2, []);
    AddSetGrows(env, START, P, {O});
    AddSetGrows(env, s1, CONST, {O2});
    var s := s2.(addrQueue := []);
    assert PtsOf(s, CONST) == {O2};
    assert Carried(env, s, STORE, true) == {O2};
    assert [STORE][1..] == [];
    assert StrayAlong(env, Propagate(env, s, STORE, true), []) == iset{};
    assert Stray(env, START) == StrayAlong(env, s, [STORE]);
  }

  /** So every run of the solver on this program ends with a fact that is in no joint least fixpoint: p points
      to o2 itself. */
  lemma StoredConstantReachesPointer(env: Env, k: nat)
    requires OrderOk(env) && env.pass(CONST, P, O2)
    requires Turns(env, InitConstraints(env, START), k).worklist == []
    ensures var t := Turns(env, InitConstraints(env, START), k);
      && Pts(P, O2) in Items(t)
      && Pts(P, O2) !in Least(env, Items(START))
      && Pts(P, O2) !in JointLeast(env, PROGRAM, AllBut(iset{}, iset{}), iset{})
  {
    hide Items, Least, JointLeast, InitConstraints, Turns, Stray, Ready, OrderOk;
    DriverBuildsStart(env);
    NothingJustifiesIt(env);
    StoreStrays(env);
    RunOfSolver(env, START, {}, k);
  }
}
