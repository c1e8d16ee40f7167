/** A program on which the analysis ends strictly below the joint least fixpoint (src/pta/andersen.rs:191-201). */
module TwoClosures {
  import opened Options
  import opened Paths
  import opened Constraints
  import opened Joint
  import opened DriverInvariant
  import Solver
  import Andersen

  // A function pointer may hold two closures of one definition:  let f: fn() = if c { a } else { b };  f()
  // The two calls have the same base site and callee, but each passes a reference to its own closure. The
  // source adds the address edges of the two references when it resolves the calls; here the program has them.
  const MAIN: FuncId := 0
  const CLOSURE: FuncId := 1
  const F := LocalVariable(MAIN, 1)
  const A := LocalVariable(MAIN, 2)
  const B := LocalVariable(MAIN, 3)
  const RESULT := LocalVariable(MAIN, 4)
  const REF_A := Auxiliary(MAIN, 0)
  const REF_B := Auxiliary(MAIN, 1)
  const SELF := Parameter(CLOSURE, 1)

  const SITE := CallSite(MAIN, 0, [], RESULT)
  const CALL_A := Call(CallSite(MAIN, 0, [REF_A], RESULT), CLOSURE)
  const CALL_B := Call(CallSite(MAIN, 0, [REF_B], RESULT), CLOSURE)

  const ADDRESSES := [Edge(A, F, Addr), Edge(B, F, Addr), Edge(A, REF_A, Addr), Edge(B, REF_B, Addr)]
  const PASS_A := Edge(REF_A, SELF, Direct)
  const PASS_B := Edge(REF_B, SELF, Direct)

  const PROGRAM := Program(
    MAIN,
    f => if f == MAIN then Some(Body([], [], [], [(F, SITE)], [])) else if f == CLOSURE then Some(Body([], [], [], [], [])) else None,
    f => if f == MAIN then ADDRESSES else [],
    f => [],
    f => {},
    f => 0,
    p => if p == RESULT || p == ReturnValue(CLOSURE) then [] else [[]],
    f => true)

  /** The compiler's answers: types let everything pass, and each closure is resolved. */
  ghost predicate Answers(env: Env)
  {
    && (forall v, w, o :: env.pass(v, w, o))
    && (forall c, o :: env.fnTarget(c, o) ==
          if c == SITE && o == A then Some(CALL_A) else if c == SITE && o == B then Some(CALL_B) else None)
    && (forall c, o :: env.dynTarget(c, o) == None)
    && (forall c, o :: env.traitTarget(c, o) == Unresolved)
  }

  /** What can be found when the call of the given closures is wired. */
  ghost predicate Findable(withA: bool, withB: bool, i: Item)
  {
    match i
    case Pts(v, o) => (v == F && (o == A || o == B)) || (v == REF_A && o == A) || (v == REF_B && o == B)
      || (v == SELF && ((withA && o == A) || (withB && o == B)))
    case Arc(e) => e in ADDRESSES || (withA && e == PASS_A) || (withB && e == PASS_B)
    case Site(k, p, c) => k == FnPtrSite && p == F && c == SITE
    case Called(c) => c == CALL_A || c == CALL_B
    case Special(_) => false
  }

  lemma EdgesOfCalls()
    ensures InterEdges(PROGRAM, CALL_A) == [PASS_A] && InterEdges(PROGRAM, CALL_B) == [PASS_B]
    ensures KeyOf(CALL_A) == KeyOf(CALL_B) && CALL_A != CALL_B
  {
    assert forall p: Path :: AppendProjection(p, []) == p;
    assert CALL_A.site.args[1..] == [] && CALL_B.site.args[1..] == [];
    assert ArgEdges(PROGRAM, [], CLOSURE, 2) == [];
    assert PartEdges(REF_A, SELF, [[]]) == [PASS_A] && PartEdges(REF_B, SELF, [[]]) == [PASS_B];
  }

  lemma FindableIsClosed(env: Env, withA: bool, withB: bool, X: iset<Item>)
    requires Answers(env) && forall i :: i in X <==> Findable(withA, withB, i)
    ensures Closed(env, X)
  {
    hide Respects;
    forall v, o | Pts(v, o) in X ensures Respects(env, X, v, o) {
      FactIsServed(env, withA, withB, X, v, o);
    }
  }

  lemma FactIsServed(env: Env, withA: bool, withB: bool, X: iset<Item>, v: Path, o: Path)
    requires Answers(env) && Pts(v, o) in X && forall i :: i in X <==> Findable(withA, withB, i)
    ensures Respects(env, X, v, o)
  {
    hide Answers;
    EdgesAreServed(env, withA, withB, X, v, o);
    CallsAreServed(env, withA, withB, X, v, o);
  }

  lemma EdgesAreServed(env: Env, withA: bool, withB: bool, X: iset<Item>, v: Path, o: Path)
    requires Pts(v, o) in X && forall i :: i in X <==> Findable(withA, withB, i)
    ensures RespectsEdges(env, X, v, o)
  {
    assert forall e :: Arc(e) in X ==> e.kind.Addr? || e == PASS_A || e == PASS_B;
  }

  lemma CallsAreServed(env: Env, withA: bool, withB: bool, X: iset<Item>, v: Path, o: Path)
    requires Answers(env) && forall i :: i in X <==> Findable(withA, withB, i)
    ensures RespectsDyn(env, X, v, o) && RespectsFnptr(env, X, v, o) && RespectsFntrait(env, X, v, o)
  {
  }

  lemma FindableHoldsProgram(env: Env, withA: bool, withB: bool, X: iset<Item>, scope: Scope)
    requires Answers(env) && forall i :: i in X <==> Findable(withA, withB, i)
    requires (CALL_A in scope.calls ==> withA) && (CALL_B in scope.calls ==> withB)
    ensures JointClosed(env, PROGRAM, scope, X)
  {
    hide Closed, FunctionIn, Reached, InterEdges, Answers;
    FindableIsClosed(env, withA, withB, X);
    EdgesOfCalls();
    forall f | Reached(PROGRAM, X, f) ensures FunctionIn(PROGRAM, X, f) {
      FunctionsFound(withA, withB, X, f);
    }
    forall c | c in scope.calls && Called(c) in X ensures CallIn(PROGRAM, X, c) {
      assert c == CALL_A || c == CALL_B;
    }
  }

  lemma FunctionsFound(withA: bool, withB: bool, X: iset<Item>, f: FuncId)
    requires forall i :: i in X <==> Findable(withA, withB, i)
    ensures FunctionIn(PROGRAM, X, f)
  {
    if PROGRAM.body(f).Some? {
      forall g, e | Involves(PROGRAM, f, g) && e in PROGRAM.edgesOf(g) ensures Arc(e) in X {
      }
    }
  }

  /** Everything that can be found at all. */
  const ALL: set<Item> :=
    {Pts(F, A), Pts(F, B), Pts(REF_A, A), Pts(REF_B, B), Pts(SELF, A), Pts(SELF, B),
     Arc(ADDRESSES[0]), Arc(ADDRESSES[1]), Arc(ADDRESSES[2]), Arc(ADDRESSES[3]), Arc(PASS_A), Arc(PASS_B),
     Site(FnPtrSite, F, SITE), Called(CALL_A), Called(CALL_B)}

  lemma AllIsABound(env: Env)
    requires Answers(env)
    ensures Bounds(env, PROGRAM, Andersen.Items(ALL))
  {
    var X := Andersen.Items(ALL);
    forall i ensures i in X <==> Findable(true, true, i) {
    }
    FindableHoldsProgram(env, true, true, X, AllBut(iset{}, iset{}));
  }

  /** The joint least fixpoint knows that the closure may be called on either object. */
  lemma BothAreInLeast(env: Env)
    requires Answers(env)
    ensures var L := JointLeast(env, PROGRAM, AllBut(iset{}, iset{}), iset{});
      Pts(SELF, A) in L && Pts(SELF, B) in L
  {
    hide JointLeast, Closed;
    var L := JointLeast(env, PROGRAM, AllBut(iset{}, iset{}), iset{});
    JointLeastIsClosed(env, PROGRAM, AllBut(iset{}, iset{}), iset{});
    MainIsFound(env, L);
    AddressesTakenIn(env, L);
    EdgesOfCalls();
    CallResolved(env, L, A, CALL_A);
    CallResolved(env, L, B, CALL_B);
    assert CallIn(PROGRAM, L, CALL_A) && CallIn(PROGRAM, L, CALL_B);
    assert PASS_A in InterEdges(PROGRAM, CALL_A) && PASS_B in InterEdges(PROGRAM, CALL_B);
    FlowsOn(env, L, PASS_A, A);
    FlowsOn(env, L, PASS_B, B);
  }

  lemma MainIsFound(env: Env, L: iset<Item>)
    requires JointClosed(env, PROGRAM, AllBut(iset{}, iset{}), L)
    ensures Site(FnPtrSite, F, SITE) in L && forall e :: e in ADDRESSES ==> Arc(e) in L
  {
    hide Closed;
    assert Reached(PROGRAM, L, MAIN);
    assert FunctionIn(PROGRAM, L, MAIN);
    assert Involves(PROGRAM, MAIN, MAIN);
    var b := PROGRAM.body(MAIN).value;
    assert b.fnptrSites[0] in b.fnptrSites;
  }

  lemma AddressesTakenIn(env: Env, L: iset<Item>)
    requires Closed(env, L) && forall e :: e in ADDRESSES ==> Arc(e) in L
    ensures Pts(F, A) in L && Pts(F, B) in L && Pts(REF_A, A) in L && Pts(REF_B, B) in L
  {
    assert ADDRESSES[0] in ADDRESSES && ADDRESSES[1] in ADDRESSES && ADDRESSES[2] in ADDRESSES && ADDRESSES[3] in ADDRESSES;
  }

  lemma CallResolved(env: Env, L: iset<Item>, o: Path, c: Call)
    requires Closed(env, L) && Pts(F, o) in L && Site(FnPtrSite, F, SITE) in L && env.fnTarget(SITE, o) == Some(c)
    ensures Called(c) in L
  {
    assert Respects(env, L, F, o);
  }

  lemma FlowsOn(env: Env, L: iset<Item>, e: Edge, o: Path)
    requires Closed(env, L) && Arc(e) in L && e.kind.Direct? && Pts(e.src, o) in L && env.pass(e.src, e.dst, o)
    ensures Pts(e.dst, o) in L
  {
    assert Respects(env, L, e.src, o);
  }

  /** Wiring at most one of the two calls finds at most one of the two objects. */
  lemma OneIsMissing(env: Env, h: History)
    requires Answers(env) && WiredOnce(h.wired) && h.stray == iset{}
    ensures Pts(SELF, A) !in Known(env, PROGRAM, h) || Pts(SELF, B) !in Known(env, PROGRAM, h)
  {
    hide JointLeast, JointClosed, InterEdges, Answers;
    EdgesOfCalls();
    var withA, withB := CALL_A in h.wired, CALL_B in h.wired;
    var X := iset i: Item | Findable(withA, withB, i);
    FindableHoldsProgram(env, withA, withB, X, Scope(h.entered, h.wired));
    JointLeastIsBelow(env, PROGRAM, Scope(h.entered, h.wired), iset{}, X);
  }

  lemma NothingStraysHere(env: Env)
    ensures QueueSafe(env, PROGRAM)
  {
  }

  /** Every result of a run lies strictly below the joint least fixpoint. */
  lemma StrictlyBelow(env: Env, h: History, X: iset<Item>)
    requires Answers(env) && WiredOnce(h.wired) && h.stray == iset{} && X <= Known(env, PROGRAM, h)
    ensures var L := JointLeast(env, PROGRAM, AllBut(iset{}, iset{}), iset{});
      && X < L && Pts(SELF, A) in L && Pts(SELF, B) in L
      && (Pts(SELF, A) !in X || Pts(SELF, B) !in X)
  {
    hide JointLeast, Answers, WiredOnce;
    BothAreInLeast(env);
    OneIsMissing(env, h);
    JointLeastMonotone(env, PROGRAM, Scope(h.entered, h.wired), AllBut(iset{}, iset{}), iset{}, iset{});
  }

  /** Whatever order hash sets are traversed in, the analysis stops on this program without finding that the
      closure may be called on one of the two objects: it ends strictly below the joint least fixpoint. */
  method SecondClosureIsLost(env: Env) returns (pta: Andersen.AndersenPTA)
    requires OrderOk(env) && Answers(env)
    ensures pta.env == env && pta.prog == PROGRAM && pta.Valid()
    ensures var L := JointLeast(env, PROGRAM, AllBut(iset{}, iset{}), iset{});
      && Solver.Items(pta.Snap()) < L
      && Pts(SELF, A) in L && Pts(SELF, B) in L
      && (Pts(SELF, A) !in Solver.Items(pta.Snap()) || Pts(SELF, B) !in Solver.Items(pta.Snap()))
  {
    hide *;
    NothingStraysHere(env);
    RelatedNest();
    AllIsABound(env);
    pta := Andersen.Analyze(env, PROGRAM, ALL);
    StrictlyBelow(env, pta.past, Solver.Items(pta.Snap()));
  }

  lemma RelatedNest()
    ensures ProgramOk(PROGRAM)
  {
  }
}
