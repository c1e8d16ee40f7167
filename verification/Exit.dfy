/** The exit state of the driver: which joint fixpoint it is, and on what that depends. */
module Exit {
  import opened Paths
  import opened Constraints
  import opened Solver
  import opened SolverTheorems
  import opened Joint
  import opened Driver
  import opened Ownership
  import opened DriverInvariant

  /** All queues have been read and no call waits to be added. */
  ghost predicate AtExit(d: Drive)
  {
    && d.next == |d.nodes| && d.s.newCalls == [] && d.s.newInstances == []
    && d.s.addrQueue == [] && d.s.interQueue == []
  }

  /** Calls, call graph and reached functions agree when nothing waits. */
  lemma ExitCalls(env: Env, prog: Program, d: Drive)
    requires Core(env, prog, d) && AtExit(d)
    ensures forall c :: Called(c) in Items(d.s) <==> c in d.s.reported
    ensures forall k :: k in d.calls <==> exists c :: InCallGraph(Items(d.s), c) && KeyOf(c) == k
    ensures forall f :: f in d.nodes <==> Reached(prog, Items(d.s), f)
  {
    hide FunctionIn, EdgesIn, CallIn, Ready, HistoryOk, WiresOk, FunctionsOk, Tidy, WellOwned, NoSelfFeed, QueueSafe,
         Known;
    forall c ensures InCallGraph(Items(d.s), c) <==> InGraph(d.s, c) {
    }
    forall k | k in d.calls ensures exists c :: InCallGraph(Items(d.s), c) && KeyOf(c) == k {
      var c :| InGraph(d.s, c) && KeyOf(c) == k;
      assert InCallGraph(Items(d.s), c);
    }
    forall f | Reached(prog, Items(d.s), f) ensures f in d.nodes {
      if f != prog.entry {
        var c :| InCallGraph(Items(d.s), c) && (f == c.callee || f == c.site.func);
        assert InGraph(d.s, c);
      }
    }
  }

  /** The calls that brought no edges. */
  ghost function PassedCalls(d: Drive): iset<Call>
  {
    iset c | c in d.s.reported && c !in d.past.wired
  }

  /** Everything but what was passed over. */
  ghost function NotPassedOver(d: Drive): Scope
  {
    AllBut(d.past.skipped + d.past.passed, PassedCalls(d))
  }

  /** Everything but the special functions that were passed over. */
  ghost function NotSkipped(d: Drive): Scope
  {
    AllBut(d.past.skipped, iset{})
  }

  /** Every fact that was never sent on has its consequences anyway. */
  ghost predicate UnsentServed(env: Env, d: Drive)
  {
    forall v, o :: Lost(d.s, d.past.done, v, o) ==> Respects(env, Items(d.s), v, o)
  }

  /** What was passed over, apart from special functions, is there anyway. */
  ghost predicate PassedFound(prog: Program, d: Drive)
  {
    && (forall f :: f in d.past.passed ==> FunctionIn(prog, Items(d.s), f))
    && (forall c :: c in PassedCalls(d) ==> CallIn(prog, Items(d.s), c))
  }

  /** The result of a run never exceeds the least joint fixpoint of what was not passed over. */
  lemma ExitIsBelow(env: Env, prog: Program, d: Drive)
    requires Core(env, prog, d)
    ensures Items(d.s) <= JointLeast(env, prog, Scope(d.past.entered, d.past.wired), d.past.stray)
    ensures JointLeast(env, prog, Scope(d.past.entered, d.past.wired), d.past.stray)
      <= JointLeast(env, prog, NotPassedOver(d), d.past.stray)
    ensures JointLeast(env, prog, NotPassedOver(d), d.past.stray) <= JointLeast(env, prog, NotSkipped(d), d.past.stray)
  {
    hide Items, JointLeast, GraphOk, WiresOk, FunctionsOk, Ready, Tidy, WellOwned, NoSelfFeed, QueueSafe, Ordered,
         MarksOk, NeverEntered, Taken;
    JointLeastMonotone(env, prog, Scope(d.past.entered, d.past.wired), NotPassedOver(d), d.past.stray, d.past.stray);
    JointLeastMonotone(env, prog, NotPassedOver(d), NotSkipped(d), d.past.stray, d.past.stray);
  }

  /** At exit every reached function that was not passed over is there, and so are the edges of every call that
      was not. */
  lemma ExitHolds(env: Env, prog: Program, d: Drive)
    requires Core(env, prog, d) && AtExit(d)
    ensures forall f :: Reached(prog, Items(d.s), f) && f !in d.past.skipped && f !in d.past.passed ==> FunctionIn(prog, Items(d.s), f)
    ensures forall c :: Called(c) in Items(d.s) && c !in PassedCalls(d) ==> CallIn(prog, Items(d.s), c)
    ensures forall f :: f in d.past.passed ==> Reached(prog, Items(d.s), f)
    ensures forall c :: c in PassedCalls(d) ==> Called(c) in Items(d.s)
    ensures d.past.passed !! d.past.skipped
  {
    hide Items, EdgesIn, BodyIn, CallIn, Ready, Tidy, WellOwned, NoSelfFeed, QueueSafe, Known, MarkedBefore, Reached,
         MarksOk, NeverEntered, WiredOnce, Rivalled, ReachedPlainly, InGraph;
    ExitCalls(env, prog, d);
    forall f | Reached(prog, Items(d.s), f) && f !in d.past.skipped && f !in d.past.passed ensures FunctionIn(prog, Items(d.s), f) {
      var i :| 0 <= i < |d.nodes| && d.nodes[i] == f;
      assert OrderedAt(prog, d.nodes, d.past, i);
    }
    forall f | f in d.past.passed ensures Reached(prog, Items(d.s), f) {
      assert Taken(d.nodes, d.next + 1, f);
    }
  }

  /** The exact account. The exit state is the least joint fixpoint of what was not passed over exactly when the
      facts that were never sent on have their consequences. It is that of everything but the special functions
      that were passed over exactly when, further, what was passed over for other reasons is there anyway. */
  lemma ExitExactly(env: Env, prog: Program, d: Drive)
    requires Core(env, prog, d) && AtExit(d)
    ensures Items(d.s) == JointLeast(env, prog, NotPassedOver(d), d.past.stray) <==> UnsentServed(env, d)
    ensures Items(d.s) == JointLeast(env, prog, NotSkipped(d), d.past.stray) <==> UnsentServed(env, d) && PassedFound(prog, d)
  {
    hide Items, FunctionIn, CallIn, Ready, Tidy, WellOwned, NoSelfFeed, QueueSafe, Known, Reached, GraphOk, WiresOk,
         FunctionsOk, HistoryOk, PassedCalls, JointLeast, Closed, QueueKinds, AllDone, Tame, Respects, Lost;
    var X := Items(d.s);
    ExitHolds(env, prog, d);
    ExitIsBelow(env, prog, d);
    ClosedIffUnsentServed(env, d.s, d.past.done);
    JointLeastIsClosed(env, prog, NotPassedOver(d), d.past.stray);
    JointLeastIsClosed(env, prog, NotSkipped(d), d.past.stray);
    if UnsentServed(env, d) {
      assert JointClosed(env, prog, NotPassedOver(d), X);
      JointLeastIsBelow(env, prog, NotPassedOver(d), d.past.stray, X);
      if PassedFound(prog, d) {
        assert JointClosed(env, prog, NotSkipped(d), X);
        JointLeastIsBelow(env, prog, NotSkipped(d), d.past.stray, X);
      }
    }
  }

  /** What strayed changes nothing exactly when it is found without straying. */
  lemma StrayMattersExactly(env: Env, prog: Program, scope: Scope, stray: iset<Item>)
    ensures JointLeast(env, prog, scope, stray) == JointLeast(env, prog, scope, iset{}) <==> stray <= JointLeast(env, prog, scope, iset{})
  {
    hide JointLeast, Closed, Reached, FunctionIn, CallIn;
    JointLeastIsClosed(env, prog, scope, stray);
    JointLeastIsClosed(env, prog, scope, iset{});
    JointLeastMonotone(env, prog, scope, scope, iset{}, stray);
    if stray <= JointLeast(env, prog, scope, iset{}) {
      JointLeastIsBelow(env, prog, scope, stray, JointLeast(env, prog, scope, iset{}));
    }
  }

  /** What the invariant says of a state in which nothing waits. */
  lemma ExitAccount(env: Env, prog: Program, d: Drive)
    requires Core(env, prog, d) && AtExit(d)
    ensures Items(d.s) <= Known(env, prog, d.past) && WiredOnce(d.past.wired) && forall v :: Get(d.s.diff, v) == {}
    ensures Ordered(prog, d.nodes, |d.nodes|, d.past) && MarksOk(prog, d.special, d.past.entered)
    ensures QueueSafe(env, prog) ==> d.past.stray == iset{}
    ensures StrayOk(env, Items(d.s), d.past.stray)
    ensures forall c :: c in PassedCalls(d) ==> Rivalled(d.s, d.past.wired, c)
  {
    hide Carries, ProcessedOk, Items, Known, GraphOk, FunctionsOk, WellOwned, NoSelfFeed, CallIn, Rivalled, OrderedAt, NeverEntered;
  }

  // ----- runs in which nothing is passed over

  /** Every fact that was passed over when an edge or a call site was added has its consequences anyway. */
  ghost predicate LateServed(env: Env, d: Drive)
  {
    forall v, o :: (v, o) in d.past.late ==> Respects(env, Items(d.s), v, o)
  }

  /** As long as no node feeds itself in what was found, the facts that were never sent on are among those passed
      over when an edge or a call site was added. */
  lemma UnsentAreLate(env: Env, prog: Program, d: Drive)
    requires Core(env, prog, d) && AtExit(d) && NoSelfFeed(Items(d.s))
    ensures forall v, o :: Lost(d.s, d.past.done, v, o) ==> (v, o) in d.past.late
    ensures UnsentServed(env, d) <==> LateServed(env, d)
  {
    hide Items, NoSelfFeed, Known, GraphOk, WiresOk, FunctionsOk, HistoryOk, QueueSafe, InEveryBound, Respects, Served, AddressesTaken;
    NoQueuesMeansInv(env, d.s, d.past.done);
    ServedRespect(env, d.s, d.past.done);
  }

  lemma ServedRespect(env: Env, s: State, done: Facts)
    requires Inv(env, s, done)
    ensures forall v, o :: (v, o) in done ==> Respects(env, Items(s), v, o)
  {
    hide Items;
  }

  /** The exact account for runs without self-feeding nodes: the exit state is the least joint fixpoint of what was
      not passed over exactly when the facts passed over have their consequences; in particular when there are
      none, that is, when every edge and call site that was added was known, activated by a queue, or decided by a
      pointer without facts. */
  lemma ExitWithoutSelfFeed(env: Env, prog: Program, d: Drive)
    requires Core(env, prog, d) && AtExit(d) && NoSelfFeed(Items(d.s))
    ensures Items(d.s) == JointLeast(env, prog, NotPassedOver(d), d.past.stray) <==> LateServed(env, d)
    ensures d.past.late == {} ==> Items(d.s) == JointLeast(env, prog, NotPassedOver(d), d.past.stray)
  {
    hide Core, Items, NoSelfFeed, Respects, JointLeast;
    UnsentAreLate(env, prog, d);
    ExitExactly(env, prog, d);
  }

  // ----- programs in which nothing is passed over

  /** In a well-owned program nothing is late and whatever was passed over, apart from special functions, is
      there; if no node feeds itself every fact was sent on. */
  lemma WellOwnedExit(env: Env, prog: Program, L: iset<Item>, d: Drive)
    requires Consistent(env, prog, L, d) && AtExit(d) && WellOwned(env, prog, L)
    ensures d.past.late == {} && PassedFound(prog, d)
    ensures NoSelfFeed(Items(d.s)) ==> Items(d.s) == JointLeast(env, prog, NotSkipped(d), d.past.stray)
  {
    hide Core, Items, FunctionIn, CallIn, Known, GraphOk, WiresOk, FunctionsOk, HistoryOk, JointLeast, NoSelfFeed, WellOwned, PassedCalls;
    CoreParts(env, prog, d);
    forall c | c in PassedCalls(d) ensures CallIn(prog, Items(d.s), c) {
      LateCallHasEdges(env, prog, L, d, c);
    }
    ExitExactly(env, prog, d);
    if NoSelfFeed(Items(d.s)) {
      UnsentAreLate(env, prog, d);
    }
  }

  /** Calls with one base site and callee bring the same edges. */
  lemma LateCallHasEdges(env: Env, prog: Program, L: iset<Item>, d: Drive, c: Call)
    requires Items(d.s) <= L && WellOwned(env, prog, L) && WiresOk(prog, d.s, d.past.wired) && c in PassedCalls(d)
    ensures CallIn(prog, Items(d.s), c)
  {
    hide WiredOnce, TargetsOwned, InterEdges;
    assert Rivalled(d.s, d.past.wired, c);
    var b :| (b in d.past.wired || b in d.s.specials) && KeyOf(b) == KeyOf(c);
    assert Called(c) in Items(d.s);
    assert (b in d.past.wired ==> Called(b) in Items(d.s)) && (b in d.s.specials ==> Special(b) in Items(d.s));
    if b in d.past.wired {
      assert CallIn(prog, Items(d.s), b);
    }
  }

  // ----- the order of special functions

  /** A function that may be reached makes g special. */
  ghost predicate MadeSpecial(env: Env, prog: Program, base: iset<Item>, g: FuncId)
  {
    exists f :: Reached(prog, JointLeast(env, prog, AllBut(iset{}, iset{}), base), f) && g in Marks(prog, f)
  }

  /** The functions other than the entry that may become special. */
  ghost function Specials(env: Env, prog: Program, base: iset<Item>): iset<FuncId>
  {
    iset g | g != prog.entry && MadeSpecial(env, prog, base, g)
  }

  /** Only special functions are passed over as such, and never the entry. */
  lemma SkippedAreSpecial(env: Env, prog: Program, d: Drive)
    requires Core(env, prog, d) && AtExit(d)
    ensures d.past.skipped <= Specials(env, prog, d.past.stray) && prog.entry !in d.past.skipped
  {
    hide Items, FunctionIn, CallIn, Ready, Tidy, WellOwned, NoSelfFeed, QueueSafe, JointLeast, Reached,
         ReachedPlainly, WiresOk, FunctionsOk, MarksOk, NeverEntered, Marks;
    ExitIsBelow(env, prog, d);
    JointLeastMonotone(env, prog, NotSkipped(d), AllBut(iset{}, iset{}), d.past.stray, d.past.stray);
    forall f | f in d.past.skipped ensures MadeSpecial(env, prog, d.past.stray, f) && f != prog.entry {
      var i :| 0 <= i < d.next + 1 && i < |d.nodes| && d.nodes[i] == f;
      assert OrderedAt(prog, d.nodes, d.past, i);
      var j :| 0 <= j < i && d.nodes[j] in d.past.entered && d.nodes[i] in Marks(prog, d.nodes[j]);
      ReachedMonotone(prog, Items(d.s), JointLeast(env, prog, AllBut(iset{}, iset{}), d.past.stray), d.nodes[j]);
    }
  }

  /** When the functions of a set are reached by special calls only, none of them is entered, and the result of
      every run stays below the least joint fixpoint without them. */
  lemma NeverPlainStaysBelow(env: Env, prog: Program, d: Drive, S: iset<FuncId>)
    requires Core(env, prog, d) && NeverPlain(env, prog, S, d.past.stray)
    ensures S !! d.past.entered
    ensures Items(d.s) <= JointLeast(env, prog, AllBut(S, iset{}), d.past.stray)
  {
    hide Items, JointLeast, GraphOk, WiresOk, FunctionsOk, Ready, Tidy, WellOwned, NoSelfFeed, QueueSafe, Ordered,
         MarksOk, NeverPlain, Taken;
    JointLeastMonotone(env, prog, Scope(d.past.entered, d.past.wired), AllBut(S, iset{}), d.past.stray, d.past.stray);
  }

  /** When no function is reached both specially and otherwise, the order in which functions are taken does not
      matter: every complete run ends with the least joint fixpoint without the special functions. */
  lemma OrderDoesNotMatter(env: Env, prog: Program, d: Drive)
    requires Core(env, prog, d) && AtExit(d)
    requires NeverPlain(env, prog, Specials(env, prog, d.past.stray), d.past.stray)
    requires Items(d.s) == JointLeast(env, prog, NotSkipped(d), d.past.stray)
    ensures Items(d.s) == JointLeast(env, prog, AllBut(Specials(env, prog, d.past.stray), iset{}), d.past.stray)
  {
    hide Items, JointLeast, Core, NeverPlain, Specials;
    var S := Specials(env, prog, d.past.stray);
    SkippedAreSpecial(env, prog, d);
    NeverPlainStaysBelow(env, prog, d, S);
    JointLeastMonotone(env, prog, AllBut(S, iset{}), NotSkipped(d), d.past.stray, d.past.stray);
  }

  /** In any case a complete run ends between the least joint fixpoints without and with all special functions. */
  lemma BetweenTheExtremes(env: Env, prog: Program, d: Drive)
    requires Core(env, prog, d) && AtExit(d)
    requires Items(d.s) == JointLeast(env, prog, NotSkipped(d), d.past.stray)
    ensures JointLeast(env, prog, AllBut(Specials(env, prog, d.past.stray), iset{}), d.past.stray) <= Items(d.s)
    ensures Items(d.s) <= JointLeast(env, prog, AllBut(iset{}, iset{}), d.past.stray)
  {
    hide Items, JointLeast, Core, NeverPlain, Specials;
    SkippedAreSpecial(env, prog, d);
    JointLeastMonotone(env, prog, AllBut(Specials(env, prog, d.past.stray), iset{}), NotSkipped(d), d.past.stray, d.past.stray);
    JointLeastMonotone(env, prog, NotSkipped(d), AllBut(iset{}, iset{}), d.past.stray, d.past.stray);
  }

  // ----- programs in which nothing strays

  /** The edge is not harmed by being treated as a direct edge. */
  ghost predicate ArcSafe(env: Env, e: Edge)
  {
    IsQueued(e.src) ==> Flows(e.kind) || forall o :: !env.pass(e.src, e.dst, o)
  }

  /** If no edge of the program is harmed by being treated as direct, the least joint fixpoint is a set from
      which no step leads out; the analysis stops when it is finite. */
  lemma LeastBounds(env: Env, prog: Program)
    requires QueueSafe(env, prog)
    ensures Bounds(env, prog, JointLeast(env, prog, AllBut(iset{}, iset{}), iset{}))
  {
    hide JointLeast, Reached, FunctionIn, CallIn, Closed;
    var L := JointLeast(env, prog, AllBut(iset{}, iset{}), iset{});
    JointLeastIsClosed(env, prog, AllBut(iset{}, iset{}), iset{});
    SafeArcsOnly(env, prog, L);
    forall e, o | Arc(e) in L && IsQueued(e.src) && Pts(e.src, o) in L && env.pass(e.src, e.dst, o) ensures Pts(e.dst, o) in L {
      assert ArcSafe(env, e);
      FlowsInClosed(env, L, e, o);
    }
  }

  lemma FlowsInClosed(env: Env, X: iset<Item>, e: Edge, o: Path)
    requires Closed(env, X) && Arc(e) in X && Flows(e.kind) && Pts(e.src, o) in X && env.pass(e.src, e.dst, o)
    ensures Pts(e.dst, o) in X
  {
    assert Respects(env, X, e.src, o);
  }

  ghost predicate OnlySafe(env: Env, i: Item)
  {
    i.Arc? ==> ArcSafe(env, i.edge)
  }

  lemma SafeArcsOnly(env: Env, prog: Program, L: iset<Item>)
    requires QueueSafe(env, prog) && L == JointLeast(env, prog, AllBut(iset{}, iset{}), iset{})
    ensures forall e :: Arc(e) in L ==> ArcSafe(env, e)
  {
    hide JointLeast, Reached, FunctionIn, CallIn, Closed, ArcSafe;
    JointLeastIsClosed(env, prog, AllBut(iset{}, iset{}), iset{});
    var Y := iset i: Item | i in L && OnlySafe(env, i);
    SafePartIsClosed(env, L, Y);
    forall f | Reached(prog, Y, f) ensures FunctionIn(prog, Y, f) {
      ReachedMonotone(prog, Y, L, f);
      SafePartHasFunction(env, prog, L, Y, f);
    }
    forall c | Called(c) in Y ensures CallIn(prog, Y, c) {
      SafePartHasCall(env, prog, L, Y, c);
    }
    JointLeastIsBelow(env, prog, AllBut(iset{}, iset{}), iset{}, Y);
  }

  lemma SafePartIsClosed(env: Env, L: iset<Item>, Y: iset<Item>)
    requires Closed(env, L) && forall i :: i in Y <==> i in L && OnlySafe(env, i)
    ensures Closed(env, Y)
  {
    forall v, o | Pts(v, o) in Y ensures Respects(env, Y, v, o) {
      assert Respects(env, L, v, o);
    }
  }

  lemma SafePartHasFunction(env: Env, prog: Program, L: iset<Item>, Y: iset<Item>, f: FuncId)
    requires QueueSafe(env, prog) && FunctionIn(prog, L, f) && forall i :: i in Y <==> i in L && OnlySafe(env, i)
    ensures FunctionIn(prog, Y, f)
  {
  }

  lemma SafePartHasCall(env: Env, prog: Program, L: iset<Item>, Y: iset<Item>, c: Call)
    requires CallIn(prog, L, c) && forall i :: i in Y <==> i in L && OnlySafe(env, i)
    ensures CallIn(prog, Y, c)
  {
    InterEdgesDirect(prog, c);
  }

  // ----- programs in which no node feeds itself

  ghost predicate EdgeOf(prog: Program, e: Edge)
  {
    exists f :: e in prog.edgesOf(f)
  }

  /** No load or field address from a pointer into itself, and no store through a pointer that lives inside an
      object whose address is taken. */
  ghost predicate PlainProgram(prog: Program)
  {
    && (forall e :: EdgeOf(prog, e) && e.src == e.dst ==> !e.kind.Load? && !e.kind.Gep?)
    && (forall e, a :: EdgeOf(prog, e) && e.kind.Store? && EdgeOf(prog, a) && a.kind.Addr? ==> Base(a.src) != Base(e.dst))
  }

  ghost predicate StoredThrough(prog: Program, p: Path)
  {
    exists e :: EdgeOf(prog, e) && e.kind.Store? && Base(e.dst) == Base(p)
  }

  /** Memory edges of the program only, and no pointee inside a pointer that is stored through. */
  ghost predicate PlainItem(prog: Program, i: Item)
  {
    match i
    case Pts(v, o) => !StoredThrough(prog, o)
    case Arc(e) => EdgeOf(prog, e) || e.kind.Direct?
    case _ => true
  }

  lemma PlainItemsAreClosed(env: Env, prog: Program, X: iset<Item>)
    requires PlainProgram(prog) && forall i :: i in X <==> PlainItem(prog, i)
    ensures Closed(env, X) && QueueClosed(env, X)
  {
    forall v, o | Pts(v, o) in X ensures Respects(env, X, v, o) {
      forall e | Arc(e) in X && e.src == v && e.kind.Gep? ensures Pts(e.dst, AppendProjection(o, e.kind.proj)) in X {
        AppendKeepsBase(o, e.kind.proj);
      }
    }
  }

  /** No step leads out of the plain items. */
  lemma PlainItemsBound(env: Env, prog: Program, X: iset<Item>)
    requires PlainProgram(prog) && forall i :: i in X <==> PlainItem(prog, i)
    ensures Bounds(env, prog, X)
  {
    hide Closed, QueueClosed, PlainProgram;
    PlainItemsAreClosed(env, prog, X);
    forall f ensures FunctionIn(prog, X, f) {
      forall g, e | Involves(prog, f, g) && e in prog.edgesOf(g) ensures Arc(e) in X {
        assert EdgeOf(prog, e);
      }
    }
    forall c ensures CallIn(prog, X, c) {
      InterEdgesDirect(prog, c);
    }
  }

  /** The condition on the program rules self-feeding out in every state of the driver. */
  lemma PlainProgramSuffices(env: Env, prog: Program, d: Drive)
    requires Core(env, prog, d) && PlainProgram(prog)
    ensures NoSelfFeed(Items(d.s))
  {
    hide Items, Known, PlainItem, Ready, GraphOk, WiresOk, FunctionsOk, HistoryOk, LateOk, QueueSafe, Bounds, NoSelfFeed;
    var X := iset i: Item | PlainItem(prog, i);
    PlainItemsBound(env, prog, X);
    KnownIsBelow(env, prog, X, d.past);
    PlainItemsFeedNothing(prog, X);
    NoSelfFeedInside(Items(d.s), X);
  }

  lemma PlainItemsFeedNothing(prog: Program, X: iset<Item>)
    requires PlainProgram(prog) && forall i :: i in X <==> PlainItem(prog, i)
    ensures NoSelfFeed(X)
  {
    forall e, o | Arc(e) in X && e.kind.Store? && Pts(e.dst, o) in X ensures AppendProjection(o, e.kind.proj) != e.dst {
      AppendKeepsBase(o, e.kind.proj);
      assert EdgeOf(prog, e);
    }
  }
}
