/** The driver adds the edges of promoted constants and static variables, and never looks at the calls in their
    initialisers (src/pta/andersen.rs:98-101, 123-136). What that costs. */
module NestedCalls {
  import opened Options
  import opened Paths
  import opened Constraints
  import opened Joint

  /** The calls of everything that f involves are in X. */
  ghost predicate NestedIn(prog: Program, X: iset<Item>, f: FuncId)
  {
    forall g :: prog.body(f).Some? && Involves(prog, f, g) && prog.body(g).Some? ==> BodyIn(X, prog.body(g).value)
  }

  /** Closed under the rules of the driver, and the calls in initialisers are processed as well. */
  ghost predicate NestedClosed(env: Env, prog: Program, scope: Scope, X: iset<Item>)
  {
    && JointClosed(env, prog, scope, X)
    && (forall f {:trigger NestedIn(prog, X, f)} :: f in scope.funcs && Reached(prog, X, f) ==> NestedIn(prog, X, f))
  }

  ghost predicate InEveryNestedClosed(env: Env, prog: Program, scope: Scope, base: iset<Item>, i: Item)
  {
    forall X: iset<Item> :: base <= X && NestedClosed(env, prog, scope, X) ==> i in X
  }

  ghost function NestedLeast(env: Env, prog: Program, scope: Scope, base: iset<Item>): iset<Item>
  {
    iset i: Item | InEveryNestedClosed(env, prog, scope, base, i)
  }

  lemma NestedLeastIsBelow(env: Env, prog: Program, scope: Scope, base: iset<Item>, X: iset<Item>)
    requires base <= X && NestedClosed(env, prog, scope, X)
    ensures NestedLeast(env, prog, scope, base) <= X
  {
  }

  lemma NestedLeastHoldsCalls(env: Env, prog: Program, scope: Scope, base: iset<Item>, f: FuncId)
    requires f in scope.funcs && Reached(prog, NestedLeast(env, prog, scope, base), f)
    ensures NestedIn(prog, NestedLeast(env, prog, scope, base), f)
  {
    hide JointClosed, Reached, Involves;
    var N := NestedLeast(env, prog, scope, base);
    forall X: iset<Item> | base <= X && NestedClosed(env, prog, scope, X) ensures NestedIn(prog, X, f) {
      NestedLeastIsBelow(env, prog, scope, base, X);
      ReachedMonotone(prog, N, X, f);
    }
  }

  lemma NestedFindsMore(env: Env, prog: Program, scope: Scope, base: iset<Item>)
    ensures JointLeast(env, prog, scope, base) <= NestedLeast(env, prog, scope, base)
  {
    hide JointClosed, NestedIn, JointLeast;
    var J := JointLeast(env, prog, scope, base);
    forall X: iset<Item> | base <= X && NestedClosed(env, prog, scope, X) ensures J <= X {
      JointLeastIsBelow(env, prog, scope, base, X);
    }
  }

  /** Leaving the calls of initialisers out loses nothing exactly when they are found anyway. */
  lemma NestedCallsMatterExactly(env: Env, prog: Program, scope: Scope, base: iset<Item>)
    ensures var J := JointLeast(env, prog, scope, base);
      J == NestedLeast(env, prog, scope, base) <==> forall f :: f in scope.funcs && Reached(prog, J, f) ==> NestedIn(prog, J, f)
  {
    hide JointClosed, NestedIn, JointLeast, Reached, NestedLeast;
    var J := JointLeast(env, prog, scope, base);
    JointLeastIsClosed(env, prog, scope, base);
    NestedFindsMore(env, prog, scope, base);
    if J == NestedLeast(env, prog, scope, base) {
      forall f | f in scope.funcs && Reached(prog, J, f) ensures NestedIn(prog, J, f) {
        NestedLeastHoldsCalls(env, prog, scope, base, f);
      }
    }
    if forall f :: f in scope.funcs && Reached(prog, J, f) ==> NestedIn(prog, J, f) {
      NestedLeastIsBelow(env, prog, scope, base, J);
    }
  }

  // ----- a program in which it does matter

  // static S: &T = make();    const fn make() -> &T { &o }    and  main  mentions S
  const MAIN: FuncId := 0
  const INIT: FuncId := 1
  const MAKE: FuncId := 2
  const S := StaticVariable(0)
  const O := LocalVariable(MAKE, 1)
  const TAKE_O := Edge(O, ReturnValue(MAKE), Addr)
  const RETURN := Edge(ReturnValue(MAKE), S, Direct)
  const CALL := Call(CallSite(INIT, 0, [], S), MAKE)

  const PROGRAM := Program(
    MAIN,
    f => if f == INIT then Some(Body([CALL], [], [], [], [])) else if f == MAIN || f == MAKE then Some(Body([], [], [], [], []))
      else None,
    f => if f == MAKE then [TAKE_O] else [],
    f => if f == MAIN then [INIT] else [],
    f => {},
    f => if f == MAIN then 1 else 0,
    p => [[]],
    f => true)

  lemma NothingIsFound(env: Env)
    ensures JointLeast(env, PROGRAM, AllBut(iset{}, iset{}), iset{}) == iset{}
  {
    hide Respects;
    var X: iset<Item> := iset{};
    forall f | Reached(PROGRAM, X, f) ensures FunctionIn(PROGRAM, X, f) {
      assert forall c :: !InCallGraph(X, c);
      assert f == MAIN;
      forall g | Involves(PROGRAM, MAIN, g) ensures PROGRAM.edgesOf(g) == [] {
      }
    }
    JointLeastIsBelow(env, PROGRAM, AllBut(iset{}, iset{}), iset{}, X);
  }

  lemma ReturnEdge()
    ensures InterEdges(PROGRAM, CALL) == [RETURN]
  {
    assert forall p: Path :: AppendProjection(p, []) == p;
    assert ArgEdges(PROGRAM, [], MAKE, 1) == [];
    assert PartEdges(ReturnValue(MAKE), S, [[]]) == [RETURN];
  }

  lemma CallIsThere(env: Env, X: iset<Item>)
    requires NestedClosed(env, PROGRAM, AllBut(iset{}, iset{}), X)
    ensures Called(CALL) in X && Arc(TAKE_O) in X && Arc(RETURN) in X
  {
    hide Closed, InterEdges;
    assert Reached(PROGRAM, X, MAIN) && NestedIn(PROGRAM, X, MAIN);
    assert INIT in PROGRAM.related(MAIN) && Involves(PROGRAM, INIT, INIT) && Involves(PROGRAM, MAIN, INIT);
    assert CALL in PROGRAM.body(INIT).value.staticCalls;
    assert InCallGraph(X, CALL);
    assert FunctionIn(PROGRAM, X, MAKE) && Involves(PROGRAM, MAKE, MAKE);
    assert CallIn(PROGRAM, X, CALL);
    ReturnEdge();
  }

  lemma FactIsThere(env: Env, X: iset<Item>)
    requires Closed(env, X) && Arc(TAKE_O) in X && Arc(RETURN) in X && env.pass(ReturnValue(MAKE), S, O)
    ensures Pts(S, O) in X
  {
    assert Respects(env, X, ReturnValue(MAKE), O);
  }

  /** The static variable points to o, and the joint least fixpoint of the driver does not know. */
  lemma StaticInitialiserIsLost(env: Env)
    requires env.pass(ReturnValue(MAKE), S, O)
    ensures Pts(S, O) in NestedLeast(env, PROGRAM, AllBut(iset{}, iset{}), iset{})
    ensures Pts(S, O) !in JointLeast(env, PROGRAM, AllBut(iset{}, iset{}), iset{})
  {
    hide Closed, NestedClosed, JointLeast;
    NothingIsFound(env);
    forall X: iset<Item> | NestedClosed(env, PROGRAM, AllBut(iset{}, iset{}), X) ensures Pts(S, O) in X {
      CallIsThere(env, X);
      NestedIsClosed(env, X);
      FactIsThere(env, X);
    }
  }

  lemma NestedIsClosed(env: Env, X: iset<Item>)
    requires NestedClosed(env, PROGRAM, AllBut(iset{}, iset{}), X)
    ensures Closed(env, X)
  {
    hide Closed;
  }
}
