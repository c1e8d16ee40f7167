/** A program with an indirect call that the analysis solves completely: the conditions under which nothing is
    passed over hold of it. */
module OneClosure {
  import opened Options
  import opened Paths
  import opened Constraints
  import opened Joint
  import opened Ownership
  import opened DriverInvariant
  import opened Exit
  import opened RtaCovers
  import Rta = RtaRules
  import Solver
  import Andersen

  // let f: fn() = a;  f()    where  a  is a closure that takes itself by reference
  const MAIN: FuncId := 0
  const CLOSURE: FuncId := 1
  const F := LocalVariable(MAIN, 1)
  const A := LocalVariable(MAIN, 2)
  const RESULT := LocalVariable(MAIN, 3)
  const REF_A := Auxiliary(MAIN, 0)
  const SELF := Parameter(CLOSURE, 1)

  const SITE := CallSite(MAIN, 0, [], RESULT)
  const CALL := Call(CallSite(MAIN, 0, [REF_A], RESULT), CLOSURE)

  const ADDRESSES := [Edge(A, F, Addr), Edge(A, REF_A, Addr)]
  const PASS := Edge(REF_A, SELF, Direct)

  const PROGRAM := Program(
    MAIN,
    f => if f == MAIN then Some(Body([], [], [], [(F, SITE)], [])) else if f == CLOSURE then Some(Body([], [], [], [], [])) else None,
    f => if f == MAIN then ADDRESSES else [],
    f => [],
    f => {},
    f => 0,
    p => if p == RESULT || p == ReturnValue(CLOSURE) then [] else [[]],
    f => true)

  /** The compiler's answers: types let everything pass, and the closure is resolved. */
  ghost predicate Answers(env: Env)
  {
    && (forall v, w, o :: env.pass(v, w, o))
    && (forall c, o :: env.fnTarget(c, o) == if c == SITE && o == A then Some(CALL) else None)
    && (forall c, o :: env.dynTarget(c, o) == None)
    && (forall c, o :: env.traitTarget(c, o) == Unresolved)
  }

  const ALL: set<Item> :=
    {Pts(F, A), Pts(REF_A, A), Pts(SELF, A), Arc(ADDRESSES[0]), Arc(ADDRESSES[1]), Arc(PASS), Site(FnPtrSite, F, SITE), Called(CALL)}

  lemma EdgesOfCall()
    ensures InterEdges(PROGRAM, CALL) == [PASS]
  {
    assert forall p: Path :: AppendProjection(p, []) == p;
    assert CALL.site.args[1..] == [];
    assert ArgEdges(PROGRAM, [], CLOSURE, 2) == [];
    assert PartEdges(REF_A, SELF, [[]]) == [PASS];
  }

  lemma AllIsClosed(env: Env)
    requires Answers(env)
    ensures Closed(env, Andersen.Items(ALL))
  {
    var X := Andersen.Items(ALL);
    assert forall e :: Arc(e) in X ==> e.kind.Addr? || e == PASS;
    assert forall k, v, c :: Site(k, v, c) in X ==> k == FnPtrSite && v == F && c == SITE;
    forall v, o | Pts(v, o) in X ensures Respects(env, X, v, o) {
    }
  }

  lemma AllIsABound(env: Env)
    requires Answers(env)
    ensures Bounds(env, PROGRAM, Andersen.Items(ALL))
  {
    hide Closed, InterEdges, Answers;
    var X := Andersen.Items(ALL);
    AllIsClosed(env);
    EdgesOfCall();
    forall f ensures FunctionIn(PROGRAM, X, f) {
      forall g, e | Involves(PROGRAM, f, g) && e in PROGRAM.edgesOf(g) ensures Arc(e) in X {
      }
    }
    forall c | Called(c) in X ensures CallIn(PROGRAM, X, c) {
      assert c == CALL;
    }
  }

  lemma FramesAreOwned()
    ensures forall f {:trigger EdgesOwned(PROGRAM, f)} :: EdgesOwned(PROGRAM, f)
    ensures forall f {:trigger BodyOwned(PROGRAM, f)} :: BodyOwned(PROGRAM, f)
  {
  }

  lemma CallsAreOwned(env: Env)
    requires Answers(env)
    ensures TargetsOwned(env)
  {
    assert CALL.site.args == [REF_A] && ContainingFunc(REF_A) == ContainingFunc(A);
    assert SiteFrom(CALL.site, SITE, A);
  }

  lemma NothingIsBrought(X: iset<Item>, g: FuncId)
    ensures !BroughtByOther(PROGRAM, X, g)
  {
  }

  lemma OneCallOnly()
    ensures OneShape(PROGRAM, Andersen.Items(ALL))
  {
    hide InterEdges;
    var X := Andersen.Items(ALL);
    assert forall c :: Called(c) in X ==> c == CALL;
    assert forall c :: Special(c) !in X;
  }

  /** Facts stay in the frames of the functions that are being added. */
  lemma IsWellOwned(env: Env)
    requires Answers(env)
    ensures WellOwned(env, PROGRAM, Andersen.Items(ALL))
  {
    hide EdgesOwned, BodyOwned, TargetsOwned, BroughtByOther, Answers, Reached, OneShape, Andersen.Items;
    OneCallOnly();
    FramesAreOwned();
    CallsAreOwned(env);
    forall g ensures !BroughtByOther(PROGRAM, Andersen.Items(ALL), g) {
      NothingIsBrought(Andersen.Items(ALL), g);
    }
  }

  lemma IsPlain(env: Env)
    ensures PlainProgram(PROGRAM) && QueueSafe(env, PROGRAM) && ProgramOk(PROGRAM)
  {
    assert forall e :: EdgeOf(PROGRAM, e) ==> e in ADDRESSES;
  }

  lemma NothingIsSpecial(env: Env)
    ensures Specials(env, PROGRAM, iset{}) == iset{}
  {
    hide JointLeast;
    forall f ensures Marks(PROGRAM, f) == {} {
    }
  }

  /** The analysis computes the joint least fixpoint, in every order. */
  method ClosureIsFound(env: Env) returns (pta: Andersen.AndersenPTA)
    requires OrderOk(env) && Answers(env)
    ensures pta.env == env && pta.prog == PROGRAM && pta.Valid()
    ensures Solver.Items(pta.Snap()) == JointLeast(env, PROGRAM, AllBut(iset{}, iset{}), iset{})
  {
    hide *;
    IsPlain(env);
    AllIsABound(env);
    IsWellOwned(env);
    NothingIsSpecial(env);
    pta := Andersen.Analyze(env, PROGRAM, ALL);
    NothingSkipped(env, pta);
  }

  lemma NothingSkipped(env: Env, pta: Andersen.AndersenPTA)
    requires pta.Valid() && pta.past.skipped <= Specials(env, PROGRAM, iset{})
    ensures NotSkipped(pta.D()) == AllBut(iset{}, iset{})
  {
    hide Specials;
    NothingIsSpecial(env);
    assert pta.past.skipped == iset{};
  }

  // ----- the same program for rapid type analysis

  const FN_TYPE: Rta.Ty := 0
  const CLOSURE_TYPE: Rta.Ty := 1
  const SIGNATURE: Rta.FnSig := 0

  const VISITED := [Rta.Find(Rta.Target(SIGNATURE, CLOSURE_TYPE)), Rta.Find(Rta.FnPtrAt(FN_TYPE, BaseOf(SITE)))]

  const RTA_PROGRAM := Rta.Program(
    MAIN,
    f => if f == MAIN then Some(VISITED) else if f == CLOSURE then Some([]) else None,
    (at, t) => None,
    (at, t) => Rta.NoCallee,
    t => Some(SIGNATURE),
    (a, b) => a == b,
    t => CLOSURE)

  const TYPES := Types(v => None, v => if v == F then Some(FN_TYPE) else None, o => CLOSURE_TYPE)

  lemma TargetIsRecorded()
    ensures var R := Rta.Least(RTA_PROGRAM, iset{});
      Rta.Target(SIGNATURE, CLOSURE_TYPE) in R && Rta.FnPtrAt(FN_TYPE, BaseOf(SITE)) in R
    ensures Rta.CallIn(Rta.Least(RTA_PROGRAM, iset{}), BaseOf(SITE), CLOSURE)
  {
    hide Rta.Least;
    var R := Rta.Least(RTA_PROGRAM, iset{});
    Rta.LeastIsClosed(RTA_PROGRAM, iset{});
    assert Rta.Reach(MAIN) in R && Rta.BodyFound(RTA_PROGRAM, R, MAIN);
    assert VISITED[0] in VISITED && VISITED[1] in VISITED;
    assert Rta.Matched(RTA_PROGRAM, FN_TYPE, SIGNATURE);
  }

  lemma EverythingFits(v: Path, o: Path)
    ensures Fits(RTA_PROGRAM, TYPES, Rta.Least(RTA_PROGRAM, iset{}), v, o)
  {
    hide Rta.Least, Rta.CallIn;
    TargetIsRecorded();
    assert Rta.Matched(RTA_PROGRAM, FN_TYPE, SIGNATURE);
  }

  lemma BodiesAgree(env: Env, f: FuncId)
    requires Answers(env)
    ensures BodyAgrees(env, PROGRAM, RTA_PROGRAM, TYPES, Rta.Least(RTA_PROGRAM, iset{}), f)
  {
    hide Rta.Least, Fits, Answers;
    forall g, e | Involves(PROGRAM, f, g) && e in PROGRAM.edgesOf(g)
      ensures EdgeFits(RTA_PROGRAM, TYPES, Rta.Least(RTA_PROGRAM, iset{}), e)
    {
      EverythingFits(e.dst, e.src);
    }
    assert VISITED[1] in VISITED;
  }

  lemma TypesAgree(env: Env)
    requires Answers(env)
    ensures FilterAgrees(env, RTA_PROGRAM, TYPES, Rta.Least(RTA_PROGRAM, iset{})) && PointersAlike(env, RTA_PROGRAM, TYPES)
  {
    hide Rta.Least, PointersAlike, FitsPtr;
    forall v, o ensures FitsPtr(RTA_PROGRAM, TYPES, Rta.Least(RTA_PROGRAM, iset{}), v, o) {
      EverythingFits(v, o);
    }
    CallsAlike(env);
  }

  lemma CallsAlike(env: Env)
    requires Answers(env)
    ensures PointersAlike(env, RTA_PROGRAM, TYPES)
  {
    forall c, o | env.fnTarget(c, o).Some?
      ensures BaseOf(env.fnTarget(c, o).value.site) == BaseOf(c) && RTA_PROGRAM.itemFunc(TYPES.tyOf(o)) == env.fnTarget(c, o).value.callee
    {
      assert c == SITE && env.fnTarget(c, o) == Some(CALL);
    }
  }

  /** The two analyses read the same program here, and both find the call. */
  lemma BothFindTheCall(env: Env)
    requires Answers(env)
    ensures SameProgram(env, PROGRAM, RTA_PROGRAM, TYPES, iset{})
    ensures Called(CALL) in JointLeast(env, PROGRAM, AllBut(iset{}, iset{}), iset{})
    ensures Rta.CallIn(Rta.Least(RTA_PROGRAM, iset{}), BaseOf(SITE), CLOSURE)
  {
    hide Rta.Least, BodyAgrees, JointLeast, FilterAgrees, PointersAlike, Answers;
    forall f ensures BodyAgrees(env, PROGRAM, RTA_PROGRAM, TYPES, Rta.Least(RTA_PROGRAM, iset{}), f) {
      BodiesAgree(env, f);
    }
    TypesAgree(env);
    TargetIsRecorded();
    JointLeastIsClosed(env, PROGRAM, AllBut(iset{}, iset{}), iset{});
    CallIsFound(env, JointLeast(env, PROGRAM, AllBut(iset{}, iset{}), iset{}));
  }

  lemma CallIsFound(env: Env, X: iset<Item>)
    requires Answers(env) && JointClosed(env, PROGRAM, AllBut(iset{}, iset{}), X)
    ensures Called(CALL) in X
  {
    assert Reached(PROGRAM, X, MAIN) && FunctionIn(PROGRAM, X, MAIN) && Involves(PROGRAM, MAIN, MAIN);
    assert Arc(ADDRESSES[0]) in X;
    assert Respects(env, X, F, A);
  }
}
