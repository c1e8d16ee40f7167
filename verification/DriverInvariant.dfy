/** What the driver keeps between its steps, and what its exit state is: the least jointly closed set for what
    was not passed over, exactly when the facts that were never sent on have their consequences. */
module DriverInvariant {
  import opened Paths
  import opened Constraints
  import opened Solver
  import opened SolverTheorems
  import opened CallGraph
  import opened Joint
  import opened Driver
  import opened Ownership

  /** What has happened so far. */
  datatype History = History(
    /** The facts that have been sent on along everything that the graph holds. */
    done: Facts,
    /** The facts that were passed over: those that a pointer already had when an edge or a call site that no
        queue activates was added at it. */
    late: Facts,
    /** The functions whose bodies were read, those passed over as special, and those passed over because
        their edges had been added before. */
    entered: iset<FuncId>,
    skipped: iset<FuncId>,
    passed: iset<FuncId>,
    /** The calls whose edges were added. */
    wired: iset<Call>,
    /** What strayed along the second queue. */
    stray: iset<Item>,
    /** The functions whose adding has begun, and those dealt with when the solver last ran. */
    started: set<FuncId>,
    settled: set<FuncId>)

  /** The driver: the solver's state, the call graph, the position in the queue of reachable functions, the
      functions whose edges have been added, the special functions, and the past. */
  datatype Drive = Drive(s: State, calls: set<CallKey>, nodes: seq<FuncId>, next: nat, processed: set<FuncId>,
                         special: set<FuncId>, past: History)

  /** Related functions nest. */
  ghost predicate ProgramOk(prog: Program)
  {
    forall f, g :: g in prog.related(f) ==> prog.depth(g) < prog.depth(f)
  }

  /** No edge of the program is harmed by being treated as a direct edge. */
  ghost predicate QueueSafe(env: Env, prog: Program)
  {
    forall f, e :: e in prog.edgesOf(f) && IsQueued(e.src) ==> Flows(e.kind) || forall o :: !env.pass(e.src, e.dst, o)
  }

  /** A set from which no step leads out, whatever is passed over and whatever strays. */
  ghost predicate Bounds(env: Env, prog: Program, L: iset<Item>)
  {
    JointClosed(env, prog, AllBut(iset{}, iset{}), L) && QueueClosed(env, L)
  }

  /** What the functions entered and the calls wired so far give. */
  ghost function Known(env: Env, prog: Program, h: History): iset<Item>
  {
    JointLeast(env, prog, Scope(h.entered, h.wired), h.stray)
  }

  lemma KnownIsBelow(env: Env, prog: Program, L: iset<Item>, h: History)
    requires Bounds(env, prog, L) && h.stray <= L
    ensures Known(env, prog, h) <= L
  {
    hide Closed, Reached, FunctionIn, CallIn, JointLeast, QueueClosed;
    JointLeastIsBelow(env, prog, Scope(h.entered, h.wired), h.stray, L);
  }

  lemma KnownGrows(env: Env, prog: Program, h: History, h': History)
    requires h.entered <= h'.entered && h.wired <= h'.wired && h.stray <= h'.stray
    ensures Known(env, prog, h) <= Known(env, prog, h')
  {
    hide JointLeast;
    JointLeastMonotone(env, prog, Scope(h.entered, h.wired), Scope(h'.entered, h'.wired), h.stray, h'.stray);
  }

  // ----- the parts of the invariant

  ghost predicate Distinct(nodes: seq<FuncId>)
  {
    forall i, j :: 0 <= i < j < |nodes| ==> nodes[i] != nodes[j]
  }

  predicate InGraph(s: State, c: Call)
  {
    c in s.reported || c in s.specials
  }

  ghost predicate GraphOk(prog: Program, d: Drive)
  {
    && d.nodes != [] && d.nodes[0] == prog.entry && Distinct(d.nodes)
    && (forall f :: f in d.nodes ==> Reached(prog, Items(d.s), f))
    && (forall f :: f in d.nodes ==> f in d.special || ReachedPlainly(prog, Items(d.s), f))
    && (forall c :: InGraph(d.s, c) ==> KeyOf(c) in d.calls && c.callee in d.nodes && c.site.func in d.nodes)
    && (forall k :: k in d.calls ==> exists c :: InGraph(d.s, c) && KeyOf(c) == k)
  }

  /** Of the calls with one base site and callee at most one has brought its edges. */
  ghost predicate WiredOnce(wired: iset<Call>)
  {
    forall b, c :: b in wired && c in wired && KeyOf(b) == KeyOf(c) ==> b == c
  }

  /** Another call with the same base site and callee came before. */
  ghost predicate Rivalled(s: State, wired: iset<Call>, c: Call)
  {
    exists b :: (b in wired || b in s.specials) && KeyOf(b) == KeyOf(c)
  }

  ghost predicate WiresOk(prog: Program, s: State, wired: iset<Call>)
  {
    && (forall c :: c in wired ==> c in s.reported)
    && (forall c :: c in wired ==> CallIn(prog, Items(s), c))
    && WiredOnce(wired)
    && (forall c :: c in s.reported && c !in wired ==> Rivalled(s, wired, c))
  }

  ghost predicate FunctionsOk(prog: Program, d: Drive)
  {
    && (forall f :: f in d.processed ==> EdgesIn(prog, Items(d.s), f))
    && d.next <= |d.nodes|
    && (forall i :: 0 <= i < d.next && d.nodes[i] in d.past.entered ==> FunctionIn(prog, Items(d.s), d.nodes[i]))
  }

  /** A function entered earlier made the j-th one special. */
  ghost predicate MarkedBefore(prog: Program, nodes: seq<FuncId>, entered: iset<FuncId>, j: nat)
    requires j < |nodes|
  {
    exists i :: 0 <= i < j && nodes[i] in entered && nodes[j] in Marks(prog, nodes[i])
  }

  /** A function entered earlier involves the j-th one, whose edges have therefore been added. */
  ghost predicate InvolvedBefore(prog: Program, nodes: seq<FuncId>, entered: iset<FuncId>, j: nat)
    requires j < |nodes|
  {
    exists i :: 0 <= i < j && nodes[i] in entered && Involves(prog, nodes[i], nodes[j])
  }

  /** What was done with the j-th function. It was passed over because of its edges exactly when a function
      entered earlier involves it; otherwise it was passed over as special exactly when a function entered
      earlier had made it special, and entered when it was not and has a body. */
  ghost predicate OrderedAt(prog: Program, nodes: seq<FuncId>, h: History, j: nat)
    requires j < |nodes|
  {
    && (nodes[j] in h.passed <==> InvolvedBefore(prog, nodes, h.entered, j))
    && (nodes[j] in h.skipped <==> nodes[j] !in h.passed && MarkedBefore(prog, nodes, h.entered, j))
    && (nodes[j] in h.entered <==>
        nodes[j] !in h.passed && !MarkedBefore(prog, nodes, h.entered, j) && prog.body(nodes[j]).Some?)
  }

  ghost predicate Ordered(prog: Program, nodes: seq<FuncId>, next: nat, h: History)
    requires next <= |nodes|
  {
    forall j {:trigger OrderedAt(prog, nodes, h, j)} :: 0 <= j < next ==> OrderedAt(prog, nodes, h, j)
  }

  /** The same in the program's own terms: which functions of the queue were passed over because of their edges, as
      special, or entered. */
  lemma OrderSays(prog: Program, nodes: seq<FuncId>, h: History, j: nat)
    requires Ordered(prog, nodes, |nodes|, h) && j < |nodes|
    ensures nodes[j] in h.passed <==> exists i :: 0 <= i < j && nodes[i] in h.entered && Involves(prog, nodes[i], nodes[j])
    ensures nodes[j] in h.skipped <==>
      nodes[j] !in h.passed && exists i :: 0 <= i < j && nodes[i] in h.entered && CallsSpecially(prog, nodes[i], nodes[j])
    ensures nodes[j] in h.entered <==> nodes[j] !in h.passed && nodes[j] !in h.skipped && prog.body(nodes[j]).Some?
  {
    hide Involves;
    assert OrderedAt(prog, nodes, h, j);
    forall i | 0 <= i < j ensures nodes[j] in Marks(prog, nodes[i]) <==> CallsSpecially(prog, nodes[i], nodes[j]) {
    }
  }

  /** The body of f calls g specially, or a promoted constant or static that is built with f does. */
  ghost predicate CallsSpecially(prog: Program, f: FuncId, g: FuncId)
  {
    g in prog.relatedSpecials(f) || (prog.body(f).Some? && exists c :: c in prog.body(f).value.specialCalls && c.callee == g)
  }

  ghost predicate Taken(nodes: seq<FuncId>, upTo: nat, f: FuncId)
  {
    exists i :: 0 <= i < upTo && i < |nodes| && nodes[i] == f
  }

  /** The functions that were entered or passed over are among the first ones, and no function was dealt with
      in two ways. */
  ghost predicate DealtWith(nodes: seq<FuncId>, upTo: nat, h: History)
  {
    && h.entered !! h.skipped && h.entered !! h.passed && h.skipped !! h.passed
    && (forall f :: f in h.entered || f in h.skipped || f in h.passed ==> Taken(nodes, upTo, f))
  }

  /** The functions of S are reached only by special calls as long as none of them is entered. */
  ghost predicate NeverPlain(env: Env, prog: Program, S: iset<FuncId>, base: iset<Item>)
  {
    forall f :: f in S ==> !ReachedPlainly(prog, JointLeast(env, prog, AllBut(S, iset{}), base), f)
  }

  /** Such functions are never entered. */
  ghost predicate NeverEntered(env: Env, prog: Program, h: History)
  {
    forall S: iset<FuncId> {:trigger NeverPlain(env, prog, S, h.stray)} :: NeverPlain(env, prog, S, h.stray) ==> S !! h.entered
  }

  ghost predicate MarksOk(prog: Program, special: set<FuncId>, entered: iset<FuncId>)
  {
    forall g :: g in special <==> exists f :: f in entered && g in Marks(prog, f)
  }

  /** The functions whose edges have been added are involved by entered ones, with all that they involve. */
  ghost predicate ProcessedOk(prog: Program, processed: set<FuncId>, entered: iset<FuncId>)
  {
    && (forall f, g :: f in processed && Involves(prog, f, g) ==> g in processed)
    && (forall g :: g in processed ==> exists f :: f in entered && Involves(prog, f, g))
  }

  /** Functions are added on behalf of entered ones only, and those have bodies. */
  ghost predicate StartedOk(prog: Program, started: set<FuncId>, entered: iset<FuncId>)
  {
    && (forall g :: g in started ==> exists f :: f in entered && Involves(prog, f, g))
    && (forall f :: f in entered ==> prog.body(f).Some?)
  }

  ghost predicate HistoryOk(env: Env, prog: Program, d: Drive)
  {
    && d.next <= |d.nodes| && Ordered(prog, d.nodes, d.next, d.past)
    && DealtWith(d.nodes, d.next + 1, d.past)
    && MarksOk(prog, d.special, d.past.entered)
    && ProcessedOk(prog, d.processed, d.past.entered)
    && StartedOk(prog, d.past.started, d.past.entered)
    && StrayOk(env, Items(d.s), d.past.stray)
    && NeverEntered(env, prog, d.past)
  }

  ghost function NodeSet(d: Drive): set<FuncId>
  {
    set f | f in d.nodes
  }

  /** What the condition on the program gives at every step. */
  ghost predicate Tidy(prog: Program, L: iset<Item>, d: Drive)
  {
    && (forall f :: f !in d.past.passed) && d.past.late == {}
    && (forall f :: f in d.past.settled ==> f in d.processed || f in d.past.skipped)
    && d.processed <= d.past.started
    && Items(d.s) <= ItemsIn(prog, L, NodeSet(d) + d.past.started)
    && (forall v :: PtsOf(d.s, v) != {} ==> PathIn(prog, L, d.past.settled, v))
    && (forall f :: f in d.past.started ==> BroughtByOther(prog, L, f) || Taken(d.nodes, d.next + 1, f))
    && (forall i :: 0 <= i < d.next && i < |d.nodes| && prog.body(d.nodes[i]).Some? ==>
          d.nodes[i] in d.past.started || d.nodes[i] in d.past.skipped)
  }

  /** What strayed lies in every set from which no step leads out. */
  ghost predicate InEveryBound(env: Env, prog: Program, stray: iset<Item>)
  {
    forall X: iset<Item> {:trigger Bounds(env, prog, X)} :: Bounds(env, prog, X) ==> stray <= X
  }

  /** What every state of the driver keeps, whatever the program. */
  ghost predicate Core(env: Env, prog: Program, d: Drive)
  {
    && Ready(env, d.s, d.past.done) && QueueKinds(d.s)
    && d.past.stray <= Items(d.s) <= Known(env, prog, d.past)
    && GraphOk(prog, d) && WiresOk(prog, d.s, d.past.wired) && FunctionsOk(prog, d) && HistoryOk(env, prog, d)
    && LateOk(d.s, d.past.done, d.past.late) && InEveryBound(env, prog, d.past.stray)
    && (QueueSafe(env, prog) ==> Tame(env, d.s.interQueue) && d.past.stray == iset{})
  }

  /** The invariant of the driver, relative to a set from which no step leads out. */
  ghost predicate Consistent(env: Env, prog: Program, L: iset<Item>, d: Drive)
  {
    && Core(env, prog, d) && Known(env, prog, d.past) <= L
    && (WellOwned(env, prog, L) ==> Tidy(prog, L, d))
  }

  /** What the parts say, for those who do not look inside. */
  lemma CoreParts(env: Env, prog: Program, d: Drive)
    requires Core(env, prog, d)
    ensures Ready(env, d.s, d.past.done) && QueueKinds(d.s)
    ensures d.past.stray <= Items(d.s) <= Known(env, prog, d.past)
    ensures GraphOk(prog, d) && WiresOk(prog, d.s, d.past.wired) && FunctionsOk(prog, d) && HistoryOk(env, prog, d)
    ensures LateOk(d.s, d.past.done, d.past.late) && InEveryBound(env, prog, d.past.stray)
  {
  }

  lemma BoundedByL(env: Env, prog: Program, L: iset<Item>, d: Drive)
    requires Core(env, prog, d) && Bounds(env, prog, L)
    ensures Known(env, prog, d.past) <= L
  {
    hide Ready, Items, Known, GraphOk, WiresOk, FunctionsOk, HistoryOk, LateOk, Bounds, QueueSafe;
    KnownIsBelow(env, prog, L, d.past);
  }

  /** Every entered function has been added. */
  ghost predicate EnteredAdded(d: Drive)
  {
    forall f :: f in d.past.entered ==> f in d.processed
  }

  /** The driver is between two functions: all adding has been finished, and the next function of the queue
      has not been added on its own account. */
  ghost predicate Between(env: Env, prog: Program, L: iset<Item>, d: Drive)
  {
    && d.past.started <= d.processed && EnteredAdded(d)
    && DealtWith(d.nodes, d.next, d.past)
    && (WellOwned(env, prog, L) && d.next < |d.nodes| && d.nodes[d.next] in d.past.started ==> BroughtByOther(prog, L, d.nodes[d.next]))
  }

  // ----- steps

  /** Adding an internal edge at a node that already has facts may lose its consequences. */
  ghost function WithInternal(d: Drive, e: Edge): Drive
  {
    d.(s := AddInternal(d.s, e),
       past := d.past.(done := DoneWithEdge(d.s, d.past.done, e), late := d.past.late + LateWithEdge(d.s, e)))
  }

  ghost function WithSite(d: Drive, k: SiteKind, v: Path, c: CallSite): Drive
  {
    d.(s := Attach(d.s, k, v, c),
       past := d.past.(done := DoneWithSite(d.s, d.past.done, k, v, c), late := d.past.late + LateWithSite(d.s, k, v, c)))
  }

  ghost function Linked(d: Drive, c: Call): Drive
  {
    d.(calls := d.calls + {KeyOf(c)}, nodes := Insert(Insert(d.nodes, c.site.func), c.callee))
  }

  /** A call whose base site and callee are known adds no edges, even if its arguments are new. */
  ghost function WithCall(prog: Program, d: Drive, c: Call): Drive
  {
    var s := if KeyOf(c) in d.calls then d.s else AddInters(d.s, InterEdges(prog, c));
    Linked(d, c).(s := s.(reported := s.reported + {c}),
                  past := d.past.(wired := d.past.wired + if KeyOf(c) in d.calls then iset{} else iset{c}))
  }

  /** A special call enters the call graph and nothing else. */
  ghost function WithSpecial(d: Drive, c: Call): Drive
  {
    Linked(d, c).(s := d.s.(specials := d.s.specials + {c}))
  }

  ghost function Entering(prog: Program, d: Drive, f: FuncId): Drive
  {
    d.(special := d.special + Marks(prog, f), past := d.past.(entered := d.past.entered + iset{f}))
  }

  // ----- adding edges and call sites of a function

  lemma InMonotone(prog: Program, X: iset<Item>, Y: iset<Item>)
    requires X <= Y
    ensures forall f :: EdgesIn(prog, X, f) ==> EdgesIn(prog, Y, f)
    ensures forall f :: FunctionIn(prog, X, f) ==> FunctionIn(prog, Y, f)
    ensures forall c :: CallIn(prog, X, c) ==> CallIn(prog, Y, c)
    ensures forall f :: Reached(prog, X, f) ==> Reached(prog, Y, f)
    ensures forall f :: ReachedPlainly(prog, X, f) ==> ReachedPlainly(prog, Y, f)
  {
    hide Reached, ReachedPlainly;
    forall f ensures Reached(prog, X, f) ==> Reached(prog, Y, f) {
      ReachedMonotone(prog, X, Y, f);
    }
    forall f ensures ReachedPlainly(prog, X, f) ==> ReachedPlainly(prog, Y, f) {
      ReachedMonotone(prog, X, Y, f);
    }
  }

  /** The parts of the invariant that do not look at the solver's own state are kept when items are added. */
  lemma GrowingKeepsRest(env: Env, prog: Program, d: Drive, d': Drive)
    requires GraphOk(prog, d) && WiresOk(prog, d.s, d.past.wired) && FunctionsOk(prog, d) && HistoryOk(env, prog, d)
    requires Items(d.s) <= Items(d'.s) && d'.s.reported == d.s.reported && d'.s.specials == d.s.specials
    requires d' == d.(s := d'.s, past := d.past.(done := d'.past.done, late := d'.past.late))
    ensures GraphOk(prog, d') && WiresOk(prog, d'.s, d'.past.wired) && FunctionsOk(prog, d') && HistoryOk(env, prog, d')
  {
    hide Items, EdgesIn, FunctionIn, CallIn, Reached, ReachedPlainly, MarksOk, NeverPlain, Taken, MarkedBefore,
         InvolvedBefore, ProcessedOk, StartedOk;
    StrayStaysOk(env, Items(d.s), Items(d'.s), d.past.stray);
    InMonotone(prog, Items(d.s), Items(d'.s));
    forall j | 0 <= j < d.next ensures OrderedAt(prog, d.nodes, d'.past, j) {
      assert OrderedAt(prog, d.nodes, d.past, j);
    }
  }

  lemma GrowingKeepsTidy(prog: Program, L: iset<Item>, d: Drive, d': Drive)
    requires Tidy(prog, L, d) && d' == d.(s := d'.s, past := d.past.(done := d'.past.done, late := d'.past.late))
    requires d'.past.late == {}
    requires d'.s.diff == d.s.diff && d'.s.propa == d.s.propa
    requires Items(d'.s) <= ItemsIn(prog, L, NodeSet(d) + d.past.started)
    ensures Tidy(prog, L, d')
  {
  }

  /** The function whose edges or sites are being added. */
  ghost predicate Adding(env: Env, prog: Program, L: iset<Item>, d: Drive, f: FuncId)
  {
    f in d.past.started && (WellOwned(env, prog, L) ==> f !in d.past.settled && BroughtIn(prog, L, f))
  }

  lemma InternalKeepsCore(env: Env, prog: Program, d: Drive, e: Edge, f: FuncId)
    requires Core(env, prog, d) && Arc(e) in Known(env, prog, d.past) && e in prog.edgesOf(f)
    ensures Core(env, prog, WithInternal(d, e))
    ensures Items(WithInternal(d, e).s) == Items(d.s) + iset{Arc(e)} && Extends(d.s, WithInternal(d, e).s)
  {
    hide Items, GraphOk, WiresOk, FunctionsOk, HistoryOk, NoSelfFeed, QueueKinds, JointLeast, DoneWithEdge, LateWithEdge, Ready, LateOk,
         InEveryBound;
    AddInternalKeeps(env, d.s, d.past.done, e);
    GrowingKeepsRest(env, prog, d, WithInternal(d, e));
    LateWithInternal(d, e);
  }

  lemma LateWithInternal(d: Drive, e: Edge)
    requires LateOk(d.s, d.past.done, d.past.late) && Items(d.s) <= Items(WithInternal(d, e).s)
    ensures var d' := WithInternal(d, e);
      LateOk(d'.s, d'.past.done, d'.past.late)
  {
    hide Items, NoSelfFeed;
    var d' := WithInternal(d, e);
    LateStaysOk(d.s, d'.s, d.past.done, d.past.late, d'.past.done, d'.past.late);
  }

  lemma InternalKeeps(env: Env, prog: Program, L: iset<Item>, d: Drive, e: Edge, f: FuncId)
    requires Consistent(env, prog, L, d) && Arc(e) in Known(env, prog, d.past)
    requires Adding(env, prog, L, d, f) && e in prog.edgesOf(f)
    ensures Consistent(env, prog, L, WithInternal(d, e))
    ensures Items(WithInternal(d, e).s) == Items(d.s) + iset{Arc(e)} && Extends(d.s, WithInternal(d, e).s)
  {
    hide Items, Core, Tidy, WellOwned, JointLeast, DoneWithEdge, LateWithEdge;
    InternalKeepsCore(env, prog, d, e, f);
    if WellOwned(env, prog, L) {
      InternalTidy(env, prog, L, d, e, f);
    }
  }

  lemma InternalTidy(env: Env, prog: Program, L: iset<Item>, d: Drive, e: Edge, f: FuncId)
    requires WellOwned(env, prog, L) && Tidy(prog, L, d) && Adding(env, prog, L, d, f) && e in prog.edgesOf(f)
    requires Items(WithInternal(d, e).s) == Items(d.s) + iset{Arc(e)}
    ensures Tidy(prog, L, WithInternal(d, e))
  {
    hide Items, PathIn, BroughtByOther, BroughtIn, Marks;
    assert EdgesOwned(prog, f);
    var S := NodeSet(d) + d.past.started;
    OwnedIsIn(prog, L, S, e.src, f);
    OwnedIsIn(prog, L, S, e.dst, f);
    if ContainingFunc(Trigger(e)) == OwnedBy(f) {
      NoFactsYet(prog, L, d.past.settled, d.s, Trigger(e), f);
      NothingLate(d.s, Trigger(e));
    }
    GrowingKeepsTidy(prog, L, d, WithInternal(d, e));
  }

  lemma NothingLate(s: State, v: Path)
    requires PtsOf(s, v) == {}
    ensures FactsAt(s, v) == {}
  {
  }

  lemma SiteKeepsCore(env: Env, prog: Program, d: Drive, k: SiteKind, v: Path, c: CallSite)
    requires Core(env, prog, d) && Site(k, v, c) in Known(env, prog, d.past)
    ensures Core(env, prog, WithSite(d, k, v, c))
    ensures Items(WithSite(d, k, v, c).s) == Items(d.s) + iset{Site(k, v, c)} && Extends(d.s, WithSite(d, k, v, c).s)
  {
    hide Items, GraphOk, WiresOk, FunctionsOk, HistoryOk, NoSelfFeed, JointLeast, DoneWithSite, LateWithSite, Attach, Ready, Tame,
         QueueSafe, LateOk, InEveryBound;
    AttachKeeps(env, d.s, d.past.done, k, v, c);
    GrowingKeepsRest(env, prog, d, WithSite(d, k, v, c));
    AttachKeepsQueues(d.s, k, v, c);
    LateWithAttach(d, k, v, c);
  }

  lemma LateWithAttach(d: Drive, k: SiteKind, v: Path, c: CallSite)
    requires LateOk(d.s, d.past.done, d.past.late) && Items(d.s) <= Items(WithSite(d, k, v, c).s)
    ensures var d' := WithSite(d, k, v, c);
      LateOk(d'.s, d'.past.done, d'.past.late)
  {
    hide Items, NoSelfFeed, Attach;
    var d' := WithSite(d, k, v, c);
    AttachKeepsQueues(d.s, k, v, c);
    LateStaysOk(d.s, d'.s, d.past.done, d.past.late, d'.past.done, d'.past.late);
  }

  lemma SiteKeeps(env: Env, prog: Program, L: iset<Item>, d: Drive, k: SiteKind, v: Path, c: CallSite, f: FuncId)
    requires Consistent(env, prog, L, d) && Site(k, v, c) in Known(env, prog, d.past)
    requires Adding(env, prog, L, d, f) && (WellOwned(env, prog, L) ==> ContainingFunc(v) == OwnedBy(f) && SiteOwner(c, f))
    ensures Consistent(env, prog, L, WithSite(d, k, v, c))
    ensures Items(WithSite(d, k, v, c).s) == Items(d.s) + iset{Site(k, v, c)} && Extends(d.s, WithSite(d, k, v, c).s)
  {
    hide Items, Core, Tidy, WellOwned, JointLeast, DoneWithSite, LateWithSite, Attach, SiteOwner;
    SiteKeepsCore(env, prog, d, k, v, c);
    if WellOwned(env, prog, L) {
      SiteTidy(env, prog, L, d, k, v, c, f);
    }
  }

  lemma AttachKeepsQueues(s: State, k: SiteKind, v: Path, c: CallSite)
    ensures Attach(s, k, v, c).interQueue == s.interQueue && Attach(s, k, v, c).propa == s.propa
  {
  }

  lemma SiteTidy(env: Env, prog: Program, L: iset<Item>, d: Drive, k: SiteKind, v: Path, c: CallSite, f: FuncId)
    requires WellOwned(env, prog, L) && Tidy(prog, L, d) && Adding(env, prog, L, d, f)
    requires ContainingFunc(v) == OwnedBy(f) && SiteOwner(c, f)
    requires Items(WithSite(d, k, v, c).s) == Items(d.s) + iset{Site(k, v, c)} && Extends(d.s, WithSite(d, k, v, c).s)
    ensures Tidy(prog, L, WithSite(d, k, v, c))
  {
    hide Items, PathIn, BroughtByOther, BroughtIn, Attach, WellOwned, SiteOwner;
    var S := NodeSet(d) + d.past.started;
    OwnedIsIn(prog, L, S, v, f);
    OwnedSiteIsIn(prog, L, S, c, f);
    NoFactsYet(prog, L, d.past.settled, d.s, v, f);
    NothingLate(d.s, v);
    GrowingKeepsTidy(prog, L, d, WithSite(d, k, v, c));
  }

  // ----- adding calls

  lemma {:induction false} PartEdgesDirect(src: Path, dst: Path, parts: seq<Projection>)
    ensures forall e :: e in PartEdges(src, dst, parts) ==> e.kind.Direct?
  {
    if parts != [] {
      PartEdgesDirect(src, dst, parts[1..]);
    }
  }

  lemma {:induction false} ArgEdgesDirect(prog: Program, args: seq<Path>, callee: FuncId, first: nat)
    ensures forall e :: e in ArgEdges(prog, args, callee, first) ==> e.kind.Direct?
  {
    if args != [] {
      PartEdgesDirect(args[0], Parameter(callee, first), prog.pointerParts(args[0]));
      ArgEdgesDirect(prog, args[1..], callee, first + 1);
    }
  }

  lemma InterEdgesDirect(prog: Program, c: Call)
    ensures forall e :: e in InterEdges(prog, c) ==> e.kind.Direct?
  {
    ArgEdgesDirect(prog, c.site.args, c.callee, 1);
    PartEdgesDirect(ReturnValue(c.callee), c.site.destination, prog.pointerParts(c.site.destination));
  }

  /** What adding a call does to the solver's state: the call, and its edges when its key is new. */
  lemma CallItems(env: Env, prog: Program, d: Drive, c: Call)
    requires Ready(env, d.s, d.past.done)
    ensures var t := WithCall(prog, d, c).s;
      && Ready(env, t, d.past.done) && (QueueKinds(d.s) ==> QueueKinds(t))
      && (Tame(env, d.s.interQueue) ==> Tame(env, t.interQueue))
      && Items(t) == Items(d.s) + iset{Called(c)} + (if KeyOf(c) in d.calls then iset{} else Arcs(InterEdges(prog, c)))
      && t.reported == d.s.reported + {c} && t.specials == d.s.specials && t.diff == d.s.diff && t.propa == d.s.propa
      && t.newCalls == d.s.newCalls && t.newInstances == d.s.newInstances
  {
    hide Items, Resting, ServedApart, InterEdges, Tame;
    InterEdgesDirect(prog, c);
    if KeyOf(c) in d.calls {
      ReportKeeps(env, d.s, d.past.done, c);
    } else {
      AddIntersKeeps(env, d.s, d.past.done, InterEdges(prog, c));
      ReportKeeps(env, AddInters(d.s, InterEdges(prog, c)), d.past.done, c);
    }
  }

  /** A call is passed over exactly when its base site and callee are known. Its edges are then missing exactly
      when one of them was not there before, and the state is no joint fixpoint of any scope that has the call. */
  lemma CallPassedOverExactly(env: Env, prog: Program, d: Drive, c: Call, scope: Scope)
    requires Ready(env, d.s, d.past.done) && WiresOk(prog, d.s, d.past.wired) && c !in d.s.reported
    ensures var d' := WithCall(prog, d, c);
      && (c in d'.past.wired <==> KeyOf(c) !in d.calls)
      && (CallIn(prog, Items(d'.s), c) <==> KeyOf(c) !in d.calls || forall e :: e in InterEdges(prog, c) ==> e in d.s.edges)
      && (!CallIn(prog, Items(d'.s), c) && c in scope.calls ==> !JointClosed(env, prog, scope, Items(d'.s)))
  {
    hide Ready, JointClosed;
    CallItems(env, prog, d, c);
    var d' := WithCall(prog, d, c);
    if !CallIn(prog, Items(d'.s), c) && c in scope.calls {
      NotClosedWithoutEdges(env, prog, scope, Items(d'.s), c);
    }
  }

  lemma NotClosedWithoutEdges(env: Env, prog: Program, scope: Scope, X: iset<Item>, c: Call)
    requires Called(c) in X && c in scope.calls && !CallIn(prog, X, c)
    ensures !JointClosed(env, prog, scope, X)
  {
  }

  lemma CallKeepsCore(env: Env, prog: Program, d: Drive, c: Call)
    requires Core(env, prog, d) && Called(c) in Known(env, prog, d.past)
    ensures Core(env, prog, WithCall(prog, d, c))
    ensures Items(d.s) <= Items(WithCall(prog, d, c).s) && Known(env, prog, d.past) <= Known(env, prog, WithCall(prog, d, c).past)
  {
    hide Items, GraphOk, WiresOk, FunctionsOk, HistoryOk, NoSelfFeed, InterEdges, Known, QueueSafe, Tame, Ready, QueueKinds, LateOk,
         InEveryBound;
    var d' := WithCall(prog, d, c);
    CallItems(env, prog, d, c);
    CallIsKnown(env, prog, d, c);
    CallKeepsGraph(env, prog, d, c);
    CallKeepsWires(env, prog, d, c);
    CallKeepsHistory(env, prog, d, c);
    SameLate(d.s, d'.s, d.past.done, d.past.late);
  }

  lemma SameLate(s: State, t: State, done: Facts, late: Facts)
    requires LateOk(s, done, late) && Items(s) <= Items(t) && t.propa == s.propa
    ensures LateOk(t, done, late)
  {
    hide Items, NoSelfFeed;
    LateStaysOk(s, t, done, late, done, late);
  }

  lemma CallKeeps(env: Env, prog: Program, L: iset<Item>, d: Drive, c: Call)
    requires Consistent(env, prog, L, d) && Bounds(env, prog, L) && Called(c) in Known(env, prog, d.past)
    requires WellOwned(env, prog, L) ==> SiteIn(prog, L, NodeSet(d) + d.past.started, c.site)
    ensures Consistent(env, prog, L, WithCall(prog, d, c))
    ensures Items(d.s) <= Items(WithCall(prog, d, c).s) && Known(env, prog, d.past) <= Known(env, prog, WithCall(prog, d, c).past)
  {
    hide Items, Core, InterEdges, Tidy, WellOwned, Known, Bounds, Ready;
    CallKeepsCore(env, prog, d, c);
    BoundedByL(env, prog, L, WithCall(prog, d, c));
    if WellOwned(env, prog, L) {
      CoreParts(env, prog, d);
      NextInside(prog, d);
      CallTidy(env, prog, L, d, c);
    }
  }

  lemma NextInside(prog: Program, d: Drive)
    requires FunctionsOk(prog, d)
    ensures d.next <= |d.nodes|
  {
  }

  /** The edges of a wired call are known. */
  lemma CallIsKnown(env: Env, prog: Program, d: Drive, c: Call)
    requires Ready(env, d.s, d.past.done) && Items(d.s) <= Known(env, prog, d.past) && Called(c) in Known(env, prog, d.past)
    ensures Known(env, prog, d.past) <= Known(env, prog, WithCall(prog, d, c).past)
    ensures Items(WithCall(prog, d, c).s) <= Known(env, prog, WithCall(prog, d, c).past)
  {
    hide Items, InterEdges, Ready, JointLeast, FunctionIn, Reached, Closed;
    var h' := WithCall(prog, d, c).past;
    CallItems(env, prog, d, c);
    KnownGrows(env, prog, d.past, h');
    JointLeastIsClosed(env, prog, Scope(h'.entered, h'.wired), h'.stray);
    if KeyOf(c) !in d.calls {
      assert CallIn(prog, Known(env, prog, h'), c);
    }
  }

  lemma LinkedNodes(d: Drive, c: Call)
    ensures var d' := Linked(d, c);
      && d.nodes <= d'.nodes && NodeSet(d') == NodeSet(d) + {c.callee, c.site.func}
      && (forall f :: f in d'.nodes <==> f in d.nodes || f == c.callee || f == c.site.func)
      && (forall i :: 0 <= i < |d.nodes| ==> d'.nodes[i] == d.nodes[i])
      && (Distinct(d.nodes) ==> Distinct(d'.nodes))
  {
  }

  lemma CallReaches(prog: Program, X: iset<Item>, c: Call)
    ensures InCallGraph(X, c) ==> Reached(prog, X, c.callee) && Reached(prog, X, c.site.func) && ReachedPlainly(prog, X, c.site.func)
    ensures Called(c) in X ==> ReachedPlainly(prog, X, c.callee)
  {
    assert Called(c) in X ==> InCallGraph(X, c);
  }

  /** A link in the call graph keeps it in order; the callee of a special call is special. */
  lemma LinkKeepsGraph(prog: Program, d: Drive, d': Drive, c: Call)
    requires GraphOk(prog, d) && Items(d.s) <= Items(d'.s)
    requires (Called(c) in Items(d'.s) && d'.s.reported == d.s.reported + {c} && d'.s.specials == d.s.specials)
      || (Special(c) in Items(d'.s) && d'.s.specials == d.s.specials + {c} && d'.s.reported == d.s.reported && c.callee in d.special)
    requires d' == Linked(d, c).(s := d'.s, past := d'.past)
    ensures GraphOk(prog, d')
  {
    hide Items, Reached, ReachedPlainly;
    LinkedNodes(d, c);
    InMonotone(prog, Items(d.s), Items(d'.s));
    CallReaches(prog, Items(d'.s), c);
    forall k | k in d'.calls ensures exists b :: InGraph(d'.s, b) && KeyOf(b) == k {
      if k == KeyOf(c) {
        assert InGraph(d'.s, c);
      } else {
        var b :| InGraph(d.s, b) && KeyOf(b) == k;
        assert InGraph(d'.s, b);
      }
    }
    forall b | InGraph(d'.s, b) ensures KeyOf(b) in d'.calls && b.callee in d'.nodes && b.site.func in d'.nodes {
      assert b == c || InGraph(d.s, b);
    }
  }

  lemma CallKeepsGraph(env: Env, prog: Program, d: Drive, c: Call)
    requires Ready(env, d.s, d.past.done) && GraphOk(prog, d)
    ensures GraphOk(prog, WithCall(prog, d, c))
  {
    hide Items, Ready, GraphOk, InterEdges;
    CallItems(env, prog, d, c);
    LinkKeepsGraph(prog, d, WithCall(prog, d, c), c);
  }

  lemma CallKeepsWires(env: Env, prog: Program, d: Drive, c: Call)
    requires Ready(env, d.s, d.past.done) && GraphOk(prog, d) && WiresOk(prog, d.s, d.past.wired)
    ensures WiresOk(prog, WithCall(prog, d, c).s, WithCall(prog, d, c).past.wired)
  {
    hide Items, Ready, InterEdges, Reached, ReachedPlainly, Distinct;
    var d' := WithCall(prog, d, c);
    CallItems(env, prog, d, c);
    InMonotone(prog, Items(d.s), Items(d'.s));
    forall b | b in d'.s.reported && b !in d'.past.wired ensures Rivalled(d'.s, d'.past.wired, b) {
      if b in d.s.reported {
        assert Rivalled(d.s, d.past.wired, b);
        var a :| (a in d.past.wired || a in d.s.specials) && KeyOf(a) == KeyOf(b);
        assert a in d'.past.wired || a in d'.s.specials;
      } else {
        RivalOfLateCall(prog, d, c);
        var a :| (a in d.past.wired || a in d.s.specials) && KeyOf(a) == KeyOf(c);
        assert a in d'.past.wired || a in d'.s.specials;
      }
    }
    if KeyOf(c) !in d.calls {
      forall b | b in d.past.wired ensures KeyOf(b) != KeyOf(c) {
        assert InGraph(d.s, b);
      }
    }
  }

  lemma RivalOfLateCall(prog: Program, d: Drive, c: Call)
    requires GraphOk(prog, d) && WiresOk(prog, d.s, d.past.wired) && KeyOf(c) in d.calls
    ensures Rivalled(d.s, d.past.wired, c)
  {
    var b :| InGraph(d.s, b) && KeyOf(b) == KeyOf(c);
    if b in d.s.reported && b !in d.past.wired {
      assert Rivalled(d.s, d.past.wired, b);
    }
  }

  lemma CallKeepsHistory(env: Env, prog: Program, d: Drive, c: Call)
    requires Ready(env, d.s, d.past.done) && FunctionsOk(prog, d) && HistoryOk(env, prog, d)
    ensures FunctionsOk(prog, WithCall(prog, d, c)) && HistoryOk(env, prog, WithCall(prog, d, c))
  {
    hide Items, Ready, InterEdges, EdgesIn, FunctionIn, NeverPlain, MarksOk;
    var d' := WithCall(prog, d, c);
    CallItems(env, prog, d, c);
    LinkedNodes(d, c);
    InMonotone(prog, Items(d.s), Items(d'.s));
    LongerQueue(env, prog, d, d');
  }

  /** New functions at the end of the queue change nothing about those taken before. */
  lemma LongerQueue(env: Env, prog: Program, d: Drive, d': Drive)
    requires HistoryOk(env, prog, d) && d.nodes <= d'.nodes && d'.next == d.next && d'.special == d.special
    requires d'.processed == d.processed && Items(d.s) <= Items(d'.s)
    requires d'.past == d.past.(wired := d'.past.wired)
    ensures HistoryOk(env, prog, d')
  {
    hide NeverPlain, MarksOk, ProcessedOk, StartedOk, MarkedBefore, InvolvedBefore, StrayOk, Items;
    StrayStaysOk(env, Items(d.s), Items(d'.s), d.past.stray);
    forall j | 0 <= j < d.next ensures OrderedAt(prog, d'.nodes, d'.past, j) {
      assert OrderedAt(prog, d.nodes, d.past, j);
      SamePrefix(prog, d.nodes, d'.nodes, d.past.entered, j);
    }
    TakenStays(d.nodes, d'.nodes, d.next + 1);
  }

  lemma SamePrefix(prog: Program, nodes: seq<FuncId>, more: seq<FuncId>, entered: iset<FuncId>, j: nat)
    requires nodes <= more && j < |nodes|
    ensures more[j] == nodes[j] && (MarkedBefore(prog, nodes, entered, j) <==> MarkedBefore(prog, more, entered, j))
    ensures InvolvedBefore(prog, nodes, entered, j) <==> InvolvedBefore(prog, more, entered, j)
  {
    hide Marks, Involves;
    assert forall i :: 0 <= i < j ==> more[i] == nodes[i];
    if MarkedBefore(prog, nodes, entered, j) {
      var i :| 0 <= i < j && nodes[i] in entered && nodes[j] in Marks(prog, nodes[i]);
      assert more[i] == nodes[i];
    }
    if MarkedBefore(prog, more, entered, j) {
      var i :| 0 <= i < j && more[i] in entered && more[j] in Marks(prog, more[i]);
      assert more[i] == nodes[i];
    }
  }

  lemma TakenStays(nodes: seq<FuncId>, more: seq<FuncId>, upTo: nat)
    requires nodes <= more
    ensures forall f :: Taken(nodes, upTo, f) ==> Taken(more, upTo, f)
  {
    forall f | Taken(nodes, upTo, f) ensures Taken(more, upTo, f) {
      var i :| 0 <= i < upTo && i < |nodes| && nodes[i] == f;
      assert more[i] == f;
    }
  }

  lemma CallTidy(env: Env, prog: Program, L: iset<Item>, d: Drive, c: Call)
    requires WellOwned(env, prog, L) && Tidy(prog, L, d) && Ready(env, d.s, d.past.done) && d.next <= |d.nodes|
    requires SiteIn(prog, L, NodeSet(d) + d.past.started, c.site)
    ensures Tidy(prog, L, WithCall(prog, d, c))
  {
    hide Items, Ready, PathIn, BroughtByOther, BroughtIn, SiteIn, InterEdges, WellOwned, Taken, ItemIn;
    var d' := WithCall(prog, d, c);
    var S, S' := NodeSet(d) + d.past.started, NodeSet(d') + d'.past.started;
    LinkedNodes(d, c);
    CallItems(env, prog, d, c);
    ItemsInMonotone(prog, L, S, S');
    CallIsIn(prog, L, S, S', c);
    TidyWithNodes(prog, L, d, d');
  }

  lemma CallIsIn(prog: Program, L: iset<Item>, S: set<FuncId>, S': set<FuncId>, c: Call)
    requires S <= S' && c.callee in S' && SiteIn(prog, L, S, c.site)
    ensures iset{Called(c)} + Arcs(InterEdges(prog, c)) <= ItemsIn(prog, L, S')
  {
    hide PathIn, InterEdges;
    ItemsInMonotone(prog, L, S, S');
    assert Called(c) in ItemsIn(prog, L, S);
    InterEdgesIn(prog, L, S', c);
  }

  lemma TidyWithNodes(prog: Program, L: iset<Item>, d: Drive, d': Drive)
    requires Tidy(prog, L, d) && d.nodes <= d'.nodes && d.next <= |d.nodes| && d'.next == d.next && d'.processed == d.processed
    requires d'.past == d.past.(wired := d'.past.wired)
    requires d'.s.diff == d.s.diff && d'.s.propa == d.s.propa
    requires Items(d'.s) <= ItemsIn(prog, L, NodeSet(d') + d'.past.started)
    ensures Tidy(prog, L, d')
  {
    hide Items, PathIn, BroughtByOther, ItemsIn, Taken;
    TakenStays(d.nodes, d'.nodes, d.next + 1);
    assert forall i :: 0 <= i < |d.nodes| ==> d'.nodes[i] == d.nodes[i];
  }

  lemma SpecialKeepsCore(env: Env, prog: Program, d: Drive, c: Call)
    requires Core(env, prog, d) && Special(c) in Known(env, prog, d.past) && c.callee in d.special
    ensures Core(env, prog, WithSpecial(d, c))
    ensures Items(WithSpecial(d, c).s) == Items(d.s) + iset{Special(c)}
  {
    hide Items, GraphOk, NoSelfFeed, Known, QueueSafe, Tame, Ready, EdgesIn, FunctionIn, CallIn, NeverPlain, MarksOk, HistoryOk, LateOk,
         InEveryBound;
    var d' := WithSpecial(d, c);
    RecordKeeps(env, d.s, d.past.done, c);
    LinkKeepsGraph(prog, d, d', c);
    LinkedNodes(d, c);
    InMonotone(prog, Items(d.s), Items(d'.s));
    LongerQueue(env, prog, d, d');
    SpecialKeepsWires(prog, d, d', c);
    SameLate(d.s, d'.s, d.past.done, d.past.late);
  }

  lemma SpecialKeeps(env: Env, prog: Program, L: iset<Item>, d: Drive, c: Call)
    requires Consistent(env, prog, L, d) && Special(c) in Known(env, prog, d.past) && c.callee in d.special
    ensures Consistent(env, prog, L, WithSpecial(d, c))
    ensures Items(WithSpecial(d, c).s) == Items(d.s) + iset{Special(c)}
  {
    hide Items, Core, Tidy, WellOwned, Known, FunctionsOk;
    SpecialKeepsCore(env, prog, d, c);
    if WellOwned(env, prog, L) {
      CoreParts(env, prog, d);
      NextInside(prog, d);
      SpecialTidy(prog, L, d, c);
    }
  }

  lemma SpecialKeepsWires(prog: Program, d: Drive, d': Drive, c: Call)
    requires WiresOk(prog, d.s, d.past.wired) && d' == WithSpecial(d, c) && Items(d.s) <= Items(d'.s)
    ensures WiresOk(prog, d'.s, d'.past.wired)
  {
    hide Items, Reached, ReachedPlainly;
    InMonotone(prog, Items(d.s), Items(d'.s));
    forall b | b in d'.s.reported && b !in d'.past.wired ensures Rivalled(d'.s, d'.past.wired, b) {
      assert Rivalled(d.s, d.past.wired, b);
    }
  }

  lemma SpecialTidy(prog: Program, L: iset<Item>, d: Drive, c: Call)
    requires Tidy(prog, L, d) && d.next <= |d.nodes| && Items(WithSpecial(d, c).s) == Items(d.s) + iset{Special(c)}
    ensures Tidy(prog, L, WithSpecial(d, c))
  {
    hide Items, PathIn, BroughtByOther, Taken;
    var d' := WithSpecial(d, c);
    LinkedNodes(d, c);
    ItemsInMonotone(prog, L, NodeSet(d) + d.past.started, NodeSet(d') + d'.past.started);
    TidyWithNodes(prog, L, d, d');
  }

  // ----- taking a function from the queue

  /** The next function has not been dealt with, and every entered function has been added. */
  ghost predicate Next(d: Drive, f: FuncId)
  {
    d.next < |d.nodes| && f == d.nodes[d.next] && DealtWith(d.nodes, d.next, d.past) && EnteredAdded(d)
  }

  lemma EnterKeepsCore(env: Env, prog: Program, d: Drive, f: FuncId)
    requires Core(env, prog, d) && Next(d, f) && f !in d.special && f !in d.processed && prog.body(f).Some?
    ensures Core(env, prog, Entering(prog, d, f))
    ensures Known(env, prog, d.past) <= Known(env, prog, Entering(prog, d, f).past)
    ensures OrderedAt(prog, d.nodes, Entering(prog, d, f).past, d.next)
  {
    hide Items, NoSelfFeed, Known, QueueSafe, Tame, Ready, EdgesIn, FunctionIn, CallIn, NeverPlain, Marks, WiresOk, OrderedAt, MarksOk,
         Reached, ReachedPlainly, NeverEntered, Taken, ProcessedOk, StartedOk, EnteredAdded, LateOk, InEveryBound;
    var d' := Entering(prog, d, f);
    KnownGrows(env, prog, d.past, d'.past);
    NotTaken(d.nodes, d.next);
    StillNeverEntered(env, prog, d, f);
    MoreMarks(prog, d.special, d.past.entered, f);
    EnteredInOrder(prog, d, f);
    MoreEntered(prog, d.processed, d.past.started, d.past.entered, f);
    TakenWithNext(d.nodes, d.next);
  }

  lemma EnterKeeps(env: Env, prog: Program, L: iset<Item>, d: Drive, f: FuncId)
    requires Consistent(env, prog, L, d) && Bounds(env, prog, L)
    requires Next(d, f) && f !in d.special && f !in d.processed && prog.body(f).Some?
    ensures Consistent(env, prog, L, Entering(prog, d, f))
    ensures Known(env, prog, d.past) <= Known(env, prog, Entering(prog, d, f).past)
    ensures OrderedAt(prog, d.nodes, Entering(prog, d, f).past, d.next)
  {
    hide Core, Tidy, WellOwned, Known, Bounds, Marks, OrderedAt;
    EnterKeepsCore(env, prog, d, f);
    BoundedByL(env, prog, L, Entering(prog, d, f));
    if WellOwned(env, prog, L) {
      EnteringTidy(prog, L, d, f);
    }
  }

  lemma MoreEntered(prog: Program, processed: set<FuncId>, started: set<FuncId>, entered: iset<FuncId>, f: FuncId)
    requires ProcessedOk(prog, processed, entered) && StartedOk(prog, started, entered) && prog.body(f).Some?
    ensures ProcessedOk(prog, processed, entered + iset{f}) && StartedOk(prog, started, entered + iset{f})
  {
    hide Involves;
    var more := entered + iset{f};
    forall g | g in processed ensures exists h :: h in more && Involves(prog, h, g) {
      var h :| h in entered && Involves(prog, h, g);
      assert h in more;
    }
    forall g | g in started ensures exists h :: h in more && Involves(prog, h, g) {
      var h :| h in entered && Involves(prog, h, g);
      assert h in more;
    }
  }

  lemma NotTaken(nodes: seq<FuncId>, next: nat)
    requires Distinct(nodes) && next < |nodes|
    ensures !Taken(nodes, next, nodes[next])
  {
  }

  lemma TakenWithNext(nodes: seq<FuncId>, next: nat)
    requires next < |nodes|
    ensures Taken(nodes, next + 1, nodes[next]) && forall f :: Taken(nodes, next, f) ==> Taken(nodes, next + 1, f)
  {
  }

  lemma MoreMarks(prog: Program, special: set<FuncId>, entered: iset<FuncId>, f: FuncId)
    requires MarksOk(prog, special, entered)
    ensures MarksOk(prog, special + Marks(prog, f), entered + iset{f})
  {
    hide Marks;
    forall g | g in special ensures exists h :: h in entered + iset{f} && g in Marks(prog, h) {
      var h :| h in entered && g in Marks(prog, h);
      assert h in entered + iset{f};
    }
    assert f in entered + iset{f};
  }

  lemma EnteringTidy(prog: Program, L: iset<Item>, d: Drive, f: FuncId)
    requires Tidy(prog, L, d)
    ensures Tidy(prog, L, Entering(prog, d, f))
  {
    hide PathIn, ItemIn, BroughtByOther, Marks, Taken;
    assert NodeSet(Entering(prog, d, f)) == NodeSet(d);
  }

  /** The function was not marked, so it is reached in another way; then it is in no set of functions that never
      are. */
  lemma StillNeverEntered(env: Env, prog: Program, d: Drive, f: FuncId)
    requires NeverEntered(env, prog, d.past) && Items(d.s) <= Known(env, prog, d.past) && ReachedPlainly(prog, Items(d.s), f)
    ensures NeverEntered(env, prog, d.past.(entered := d.past.entered + iset{f}))
  {
    hide Items, ReachedPlainly, JointLeast;
    forall S: iset<FuncId> | NeverPlain(env, prog, S, d.past.stray) ensures S !! d.past.entered + iset{f} {
      assert S !! d.past.entered;
      JointLeastMonotone(env, prog, Scope(d.past.entered, d.past.wired), AllBut(S, iset{}), d.past.stray, d.past.stray);
      ReachedMonotone(prog, Items(d.s), JointLeast(env, prog, AllBut(S, iset{}), d.past.stray), f);
    }
  }

  /** A function has been made special exactly when one entered before it marks it. */
  lemma MarkedExactly(prog: Program, d: Drive)
    requires d.next < |d.nodes| && MarksOk(prog, d.special, d.past.entered) && DealtWith(d.nodes, d.next, d.past)
    ensures MarkedBefore(prog, d.nodes, d.past.entered, d.next) <==> d.nodes[d.next] in d.special
  {
    hide Marks;
    var g := d.nodes[d.next];
    if g in d.special {
      var f :| f in d.past.entered && g in Marks(prog, f);
      assert Taken(d.nodes, d.next, f);
    }
  }

  /** The edges of a function have been added exactly when a function entered before it involves it. */
  lemma InvolvedExactly(prog: Program, d: Drive)
    requires d.next < |d.nodes| && ProcessedOk(prog, d.processed, d.past.entered) && EnteredAdded(d)
    requires DealtWith(d.nodes, d.next, d.past)
    ensures InvolvedBefore(prog, d.nodes, d.past.entered, d.next) <==> d.nodes[d.next] in d.processed
  {
    hide Involves;
    var g := d.nodes[d.next];
    if g in d.processed {
      var f :| f in d.past.entered && Involves(prog, f, g);
      assert Taken(d.nodes, d.next, f);
    }
  }

  lemma OrderKept(prog: Program, nodes: seq<FuncId>, h: History, h': History, f: FuncId, next: nat)
    requires next < |nodes| && f == nodes[next] && Distinct(nodes) && Ordered(prog, nodes, next, h)
    requires h'.entered == h.entered || h'.entered == h.entered + iset{f}
    requires h'.skipped == h.skipped || h'.skipped == h.skipped + iset{f}
    requires h'.passed == h.passed || h'.passed == h.passed + iset{f}
    ensures Ordered(prog, nodes, next, h')
    ensures MarkedBefore(prog, nodes, h'.entered, next) <==> MarkedBefore(prog, nodes, h.entered, next)
    ensures InvolvedBefore(prog, nodes, h'.entered, next) <==> InvolvedBefore(prog, nodes, h.entered, next)
  {
    hide MarkedBefore, InvolvedBefore;
    forall j | 0 <= j < next ensures OrderedAt(prog, nodes, h', j) {
      assert OrderedAt(prog, nodes, h, j);
      assert nodes[j] != f;
      SameMarks(prog, nodes, h.entered, h'.entered, f, next, j);
    }
    SameMarks(prog, nodes, h.entered, h'.entered, f, next, next);
  }

  lemma SameMarks(prog: Program, nodes: seq<FuncId>, entered: iset<FuncId>, more: iset<FuncId>, f: FuncId, next: nat, j: nat)
    requires j <= next < |nodes| && f == nodes[next] && Distinct(nodes) && (more == entered || more == entered + iset{f})
    ensures MarkedBefore(prog, nodes, more, j) <==> MarkedBefore(prog, nodes, entered, j)
    ensures InvolvedBefore(prog, nodes, more, j) <==> InvolvedBefore(prog, nodes, entered, j)
  {
    hide Marks, Involves;
    assert forall i :: 0 <= i < j ==> nodes[i] != f;
  }

  lemma EnteredInOrder(prog: Program, d: Drive, f: FuncId)
    requires d.next < |d.nodes| && f == d.nodes[d.next] && Distinct(d.nodes) && Ordered(prog, d.nodes, d.next, d.past)
    requires MarksOk(prog, d.special, d.past.entered) && DealtWith(d.nodes, d.next, d.past)
    requires ProcessedOk(prog, d.processed, d.past.entered) && EnteredAdded(d)
    requires f !in d.special && f !in d.processed && prog.body(f).Some?
    ensures Ordered(prog, d.nodes, d.next, Entering(prog, d, f).past)
    ensures OrderedAt(prog, d.nodes, Entering(prog, d, f).past, d.next)
  {
    hide Marks, MarksOk, Taken, MarkedBefore, InvolvedBefore, ProcessedOk, EnteredAdded;
    MarkedExactly(prog, d);
    InvolvedExactly(prog, d);
    OrderKept(prog, d.nodes, d.past, Entering(prog, d, f).past, f, d.next);
    NotTaken(d.nodes, d.next);
  }

  /** Passing over a function, because it is special or because its edges were added before. */
  ghost function Skipping(d: Drive, f: FuncId): Drive
  {
    d.(past := d.past.(skipped := d.past.skipped + iset{f}))
  }

  ghost function Passing(d: Drive, f: FuncId): Drive
  {
    d.(past := d.past.(passed := d.past.passed + iset{f}))
  }

  lemma SkipKeepsCore(env: Env, prog: Program, d: Drive, f: FuncId)
    requires Core(env, prog, d) && Next(d, f) && f in d.special && f !in d.processed
    ensures Core(env, prog, Skipping(d, f)) && OrderedAt(prog, d.nodes, Skipping(d, f).past, d.next)
  {
    hide Items, NoSelfFeed, JointLeast, QueueSafe, Tame, Ready, EdgesIn, FunctionIn, CallIn, NeverPlain, Marks, WiresOk, MarksOk, Reached,
         ReachedPlainly, Taken, MarkedBefore, InvolvedBefore, ProcessedOk, StartedOk, EnteredAdded, LateOk, InEveryBound;
    var d' := Skipping(d, f);
    NotTaken(d.nodes, d.next);
    TakenWithNext(d.nodes, d.next);
    MarkedExactly(prog, d);
    InvolvedExactly(prog, d);
    OrderKept(prog, d.nodes, d.past, d'.past, f, d.next);
  }

  lemma SkipKeeps(env: Env, prog: Program, L: iset<Item>, d: Drive, f: FuncId)
    requires Consistent(env, prog, L, d) && Next(d, f) && f in d.special && f !in d.processed
    ensures Consistent(env, prog, L, Skipping(d, f)) && OrderedAt(prog, d.nodes, Skipping(d, f).past, d.next)
  {
    hide Core, Items, WellOwned, JointLeast, OrderedAt, PathIn, ItemIn, BroughtByOther, Taken;
    SkipKeepsCore(env, prog, d, f);
    assert NodeSet(Skipping(d, f)) == NodeSet(d);
  }

  lemma PassKeepsCore(env: Env, prog: Program, d: Drive, f: FuncId)
    requires Core(env, prog, d) && Next(d, f) && f in d.processed
    ensures Core(env, prog, Passing(d, f)) && OrderedAt(prog, d.nodes, Passing(d, f).past, d.next)
  {
    hide Items, NoSelfFeed, JointLeast, QueueSafe, Tame, Ready, EdgesIn, FunctionIn, CallIn, NeverPlain, Marks, WiresOk, MarksOk, Reached,
         ReachedPlainly, Taken, MarkedBefore, InvolvedBefore, ProcessedOk, StartedOk, EnteredAdded, LateOk, InEveryBound;
    var d' := Passing(d, f);
    InvolvedExactly(prog, d);
    NotTaken(d.nodes, d.next);
    TakenWithNext(d.nodes, d.next);
    OrderKept(prog, d.nodes, d.past, d'.past, f, d.next);
  }

  lemma PassKeeps(env: Env, prog: Program, L: iset<Item>, d: Drive, f: FuncId)
    requires Consistent(env, prog, L, d) && Next(d, f) && f in d.processed && !WellOwned(env, prog, L)
    ensures Consistent(env, prog, L, Passing(d, f)) && OrderedAt(prog, d.nodes, Passing(d, f).past, d.next)
  {
    hide Core, WellOwned, JointLeast, OrderedAt;
    PassKeepsCore(env, prog, d, f);
  }

  /** A function without a body is neither entered nor passed over. */
  lemma BodilessInOrder(env: Env, prog: Program, d: Drive, f: FuncId)
    requires Core(env, prog, d) && Next(d, f) && f !in d.special && f !in d.processed && prog.body(f).None?
    ensures OrderedAt(prog, d.nodes, d.past, d.next)
  {
    hide Items, NoSelfFeed, JointLeast, QueueSafe, Tame, Ready, EdgesIn, FunctionIn, CallIn, NeverPlain, Marks, WiresOk, MarksOk, Reached,
         ReachedPlainly, Taken, MarkedBefore, InvolvedBefore, ProcessedOk, StartedOk, EnteredAdded, LateOk, InEveryBound;
    NotTaken(d.nodes, d.next);
    InvolvedExactly(prog, d);
    MarkedExactly(prog, d);
  }

  /** A function that is passed over because its edges had been added before is found exactly when its calls
      are. */
  lemma FunctionPassedOverExactly(env: Env, prog: Program, d: Drive, f: FuncId)
    requires Core(env, prog, d) && f in d.processed && prog.body(f).Some?
    ensures FunctionIn(prog, Items(d.s), f) <==> BodyIn(Items(d.s), prog.body(f).value)
  {
    hide Items, EdgesIn, BodyIn, JointLeast, Ready, GraphOk, WiresOk, HistoryOk, LateOk, InEveryBound;
  }

  lemma OrderStays(prog: Program, d: Drive, d': Drive)
    requires d.next < |d.nodes| && OrderedAt(prog, d.nodes, d.past, d.next) && d.nodes <= d'.nodes && d'.next == d.next
    requires d'.past.entered == d.past.entered && d'.past.skipped == d.past.skipped && d'.past.passed == d.past.passed
    ensures OrderedAt(prog, d'.nodes, d'.past, d'.next)
  {
    hide MarkedBefore, InvolvedBefore;
    SamePrefix(prog, d.nodes, d'.nodes, d.past.entered, d.next);
  }

  /** Everything that belongs to the entered functions has been added, and the next one was dealt with. */
  ghost predicate MayAdvance(prog: Program, d: Drive)
  {
    && d.next < |d.nodes| && d.past.started <= d.processed && EnteredAdded(d)
    && OrderedAt(prog, d.nodes, d.past, d.next)
    && (d.nodes[d.next] in d.past.entered ==> FunctionIn(prog, Items(d.s), d.nodes[d.next]))
  }

  /** The cursor moves past a function that has been dealt with. */
  lemma AdvanceKeepsCore(env: Env, prog: Program, d: Drive)
    requires Core(env, prog, d) && MayAdvance(prog, d)
    ensures Core(env, prog, d.(next := d.next + 1))
  {
    hide Items, NoSelfFeed, JointLeast, QueueSafe, Tame, Ready, EdgesIn, FunctionIn, CallIn, NeverEntered, WiresOk, MarksOk, Reached,
         ReachedPlainly, OrderedAt, Taken, ProcessedOk, StartedOk, InGraph, LateOk, InEveryBound;
    TakenLater(d.nodes, d.next + 1);
  }

  lemma AdvanceKeeps(env: Env, prog: Program, L: iset<Item>, d: Drive)
    requires d.next < |d.nodes| && (WellOwned(env, prog, L) && prog.body(d.nodes[d.next]).Some? ==>
      d.nodes[d.next] in d.past.started || d.nodes[d.next] in d.past.skipped)
    requires MayAdvance(prog, d) && Consistent(env, prog, L, d)
    ensures Consistent(env, prog, L, d.(next := d.next + 1)) && Between(env, prog, L, d.(next := d.next + 1))
  {
    hide Core, Items, WellOwned, JointLeast, FunctionIn, OrderedAt, BroughtByOther, Taken, Tidy, GraphOk, WiresOk, FunctionsOk, HistoryOk;
    var d' := d.(next := d.next + 1);
    AdvanceKeepsCore(env, prog, d);
    CoreParts(env, prog, d);
    TakenParts(env, prog, d);
    if WellOwned(env, prog, L) {
      AdvanceTidy(prog, L, d);
      if d'.next < |d'.nodes| {
        NextNotStarted(prog, L, d');
      }
    }
  }

  lemma TakenParts(env: Env, prog: Program, d: Drive)
    requires GraphOk(prog, d) && HistoryOk(env, prog, d)
    ensures Distinct(d.nodes) && DealtWith(d.nodes, d.next + 1, d.past)
  {
  }

  lemma AdvanceTidy(prog: Program, L: iset<Item>, d: Drive)
    requires Tidy(prog, L, d) && d.next < |d.nodes|
    requires prog.body(d.nodes[d.next]).Some? ==> d.nodes[d.next] in d.past.started || d.nodes[d.next] in d.past.skipped
    ensures Tidy(prog, L, d.(next := d.next + 1))
    ensures forall f :: f in d.past.started ==> BroughtByOther(prog, L, f) || Taken(d.nodes, d.next + 1, f)
  {
    hide Items, PathIn, ItemIn, BroughtByOther, Taken;
    assert NodeSet(d.(next := d.next + 1)) == NodeSet(d);
    TakenLater(d.nodes, d.next + 1);
  }

  lemma NextNotStarted(prog: Program, L: iset<Item>, d: Drive)
    requires d.next < |d.nodes| && Distinct(d.nodes)
    requires forall f :: f in d.past.started ==> BroughtByOther(prog, L, f) || Taken(d.nodes, d.next, f)
    ensures d.nodes[d.next] in d.past.started ==> BroughtByOther(prog, L, d.nodes[d.next])
  {
    hide BroughtByOther;
    NotTaken(d.nodes, d.next);
  }

  lemma TakenLater(nodes: seq<FuncId>, upTo: nat)
    ensures forall f :: Taken(nodes, upTo, f) ==> Taken(nodes, upTo + 1, f)
  {
  }

  // ----- a run of the solver

  /** The functions dealt with: those whose edges were added, and the special ones. */
  ghost function Settled(d: Drive): set<FuncId>
  {
    d.processed + set f | f in d.nodes && f in d.past.skipped
  }

  ghost function AfterRun(env: Env, d: Drive, k: nat): Drive
  {
    d.(s := Turns(env, InitConstraints(env, d.s), k),
       past := d.past.(done := DoneAfterRun(env, d.s, d.past.done, k), stray := d.past.stray + Stray(env, d.s),
                       settled := Settled(d)))
  }

  lemma RunKeepsCore(env: Env, prog: Program, d: Drive, k: nat)
    requires OrderOk(env) && Core(env, prog, d) && Turns(env, InitConstraints(env, d.s), k).worklist == []
    ensures var d' := AfterRun(env, d, k);
      && Core(env, prog, d') && Items(d.s) <= Items(d'.s)
      && d'.s.addrQueue == [] && d'.s.interQueue == []
      && (d'.s.newCalls != d.s.newCalls || d'.s.newInstances != d.s.newInstances ==> FoundNew(d.s, d'.s))
  {
    hide Items, GraphOk, WiresOk, FunctionsOk, HistoryOk, NoSelfFeed, Turns, InitConstraints, FoundNew, QueueSafe, Stray, Known, Ready,
         DoneAfterRun, AllDone, Taken, Tame, QueueKinds, LateOk, InEveryBound, StrayOk, Settled;
    var d' := AfterRun(env, d, k);
    var mid := d.(s := d'.s, past := d.past.(done := d'.past.done));
    RunOfSolver(env, d.s, d.past.done, k);
    RunIsKnown(env, prog, d, k);
    RunStaysInEveryBound(env, prog, d, k);
    GrowingKeepsRest(env, prog, d, mid);
    AllStrayOk(env, prog, d, mid, d');
    StrayKeepsRest(env, prog, mid, d');
    EmptyQueue(env, d'.s);
    TameQueueIsHarmless(env, d.s);
  }

  /** One run of the solver keeps the invariant and makes calls only with a new fact. */
  lemma RoundKeeps(env: Env, prog: Program, L: iset<Item>, d: Drive, k: nat)
    requires OrderOk(env) && Bounds(env, prog, L) && Consistent(env, prog, L, d) && Between(env, prog, L, d) && d.next == |d.nodes|
    requires Turns(env, InitConstraints(env, d.s), k).worklist == []
    ensures var d' := AfterRun(env, d, k);
      && Consistent(env, prog, L, d') && Between(env, prog, L, d') && Items(d.s) <= Items(d'.s)
      && d'.s.addrQueue == [] && d'.s.interQueue == []
      && (d'.s.newCalls != d.s.newCalls || d'.s.newInstances != d.s.newInstances ==> FoundNew(d.s, d'.s))
  {
    hide Core, Items, Turns, InitConstraints, FoundNew, Tidy, WellOwned, Stray, Known, Bounds, DoneAfterRun, Taken, Settled, Ready,
         GraphOk, WiresOk, FunctionsOk, HistoryOk;
    RunKeepsCore(env, prog, d, k);
    BoundedByL(env, prog, L, AfterRun(env, d, k));
    if WellOwned(env, prog, L) {
      CoreParts(env, prog, d);
      RoundTidy(env, prog, L, d, k);
    }
  }

  lemma AllStrayOk(env: Env, prog: Program, d: Drive, mid: Drive, d': Drive)
    requires HistoryOk(env, prog, mid) && mid.past.stray == d.past.stray && StrayOk(env, Items(d'.s), Stray(env, d.s)) && mid.s == d'.s
    requires d'.past.stray == d.past.stray + Stray(env, d.s)
    ensures StrayOk(env, Items(d'.s), d'.past.stray)
  {
    hide Items, Stray, Carries, Ordered, MarksOk, ProcessedOk, DealtWith, NeverEntered;
  }

  lemma EmptyQueue(env: Env, s: State)
    ensures s.interQueue == [] ==> QueueKinds(s) && Tame(env, s.interQueue)
  {
  }

  /** What a run finds is known. */
  lemma RunIsKnown(env: Env, prog: Program, d: Drive, k: nat)
    requires OrderOk(env) && Ready(env, d.s, d.past.done) && Items(d.s) <= Known(env, prog, d.past)
    ensures Items(AfterRun(env, d, k).s) <= Known(env, prog, AfterRun(env, d, k).past)
  {
    hide Items, Turns, InitConstraints, Stray, AddressesTaken, Closed, FunctionIn, CallIn, Reached, JointLeast, DoneAfterRun, ServedApart;
    var h' := AfterRun(env, d, k).past;
    KnownGrows(env, prog, d.past, h');
    JointLeastIsClosed(env, prog, Scope(h'.entered, h'.wired), h'.stray);
    RunStaysInside(env, d.s, k, Known(env, prog, h'));
  }

  /** What strays in a run lies in every set from which no step leads out. */
  lemma RunStaysInEveryBound(env: Env, prog: Program, d: Drive, k: nat)
    requires Ready(env, d.s, d.past.done) && QueueKinds(d.s) && Items(d.s) <= Known(env, prog, d.past)
    requires InEveryBound(env, prog, d.past.stray)
    ensures InEveryBound(env, prog, AfterRun(env, d, k).past.stray)
  {
    hide Items, Stray, Known, Bounds, Ready, QueueKinds, Turns, InitConstraints, DoneAfterRun, Settled;
    forall X: iset<Item> | Bounds(env, prog, X) ensures AfterRun(env, d, k).past.stray <= X {
      assert d.past.stray <= X;
      KnownIsBelow(env, prog, X, d.past);
      StrayWithin(env, prog, X, d.s, d.past.done);
    }
  }

  lemma StrayWithin(env: Env, prog: Program, L: iset<Item>, s: State, done: Facts)
    requires Bounds(env, prog, L) && Ready(env, s, done) && QueueKinds(s) && Items(s) <= L
    ensures Stray(env, s) <= L && Least(env, Items(s) + Stray(env, s)) <= L
  {
    hide Items, Stray, AddressesTaken, Closed, FunctionIn, CallIn, Reached, QueueClosed, QueueSound, Least, ServedApart, QueueKinds;
    QueueClosedIsSound(env, s, L);
    StrayStaysInside(env, s, L);
    LeastIsBelow(env, Items(s) + Stray(env, s), L);
  }

  lemma StrayKeepsRest(env: Env, prog: Program, d: Drive, d': Drive)
    requires GraphOk(prog, d) && WiresOk(prog, d.s, d.past.wired) && FunctionsOk(prog, d) && HistoryOk(env, prog, d)
    requires d' == d.(past := d.past.(stray := d'.past.stray, settled := d'.past.settled)) && d.past.stray <= d'.past.stray
    requires StrayOk(env, Items(d'.s), d'.past.stray)
    ensures GraphOk(prog, d') && WiresOk(prog, d'.s, d'.past.wired) && FunctionsOk(prog, d') && HistoryOk(env, prog, d')
  {
    hide Items, EdgesIn, FunctionIn, CallIn, Reached, ReachedPlainly, MarksOk, NeverPlain, Taken, MarkedBefore;
    forall j | 0 <= j < d.next ensures OrderedAt(prog, d.nodes, d'.past, j) {
      assert OrderedAt(prog, d.nodes, d.past, j);
    }
    forall S: iset<FuncId> | NeverPlain(env, prog, S, d'.past.stray) ensures S !! d'.past.entered {
      NeverPlainWithLess(env, prog, S, d.past.stray, d'.past.stray);
    }
  }

  lemma NeverPlainWithLess(env: Env, prog: Program, S: iset<FuncId>, base: iset<Item>, more: iset<Item>)
    requires NeverPlain(env, prog, S, more) && base <= more
    ensures NeverPlain(env, prog, S, base)
  {
    hide ReachedPlainly, JointLeast;
    JointLeastMonotone(env, prog, AllBut(S, iset{}), AllBut(S, iset{}), base, more);
    forall f | f in S ensures !ReachedPlainly(prog, JointLeast(env, prog, AllBut(S, iset{}), base), f) {
      ReachedMonotone(prog, JointLeast(env, prog, AllBut(S, iset{}), base), JointLeast(env, prog, AllBut(S, iset{}), more), f);
    }
  }

  /** After all reached functions have been dealt with, facts stay in their frames. */
  lemma RoundTidy(env: Env, prog: Program, L: iset<Item>, d: Drive, k: nat)
    requires OrderOk(env) && WellOwned(env, prog, L) && Tidy(prog, L, d) && Between(env, prog, L, d) && d.next == |d.nodes|
    requires Ready(env, d.s, d.past.done) && GraphOk(prog, d) && Items(d.s) <= L
    requires Turns(env, InitConstraints(env, d.s), k).worklist == []
    ensures Tidy(prog, L, AfterRun(env, d, k))
  {
    hide Resting, ServedApart, PathIn, BroughtIn, BroughtByOther, Reached, ReachedPlainly, Turns, InitConstraints,
         Items, Stray, ItemsIn, WellOwned, DoneAfterRun, Taken;
    var S, T := NodeSet(d) + d.past.started, Settled(d);
    var d' := AfterRun(env, d, k);
    forall f | f in S - T ensures !BroughtIn(prog, L, f) {
      var i :| 0 <= i < |d.nodes| && d.nodes[i] == f;
      ReachedMonotone(prog, Items(d.s), L, f);
      NotBroughtIn(env, prog, L, f);
    }
    InertFunctions(prog, L, S, T);
    ItemsInMonotone(prog, L, T, S);
    RunStaysIn(env, prog, L, T, d.s, k);
    FactsAreIn(prog, L, T, d'.s);
    assert NodeSet(d') == NodeSet(d);
  }

  lemma RunStaysIn(env: Env, prog: Program, L: iset<Item>, T: set<FuncId>, s: State, k: nat)
    requires OrderOk(env) && WellOwned(env, prog, L) && Resting(s) && Items(s) <= ItemsIn(prog, L, T)
    ensures Items(Turns(env, InitConstraints(env, s), k)) <= ItemsIn(prog, L, T)
  {
    hide Items, ItemIn, Turns, InitConstraints, Stray, Closed, QueueSound, AddressesTaken;
    ItemsInClosed(env, prog, L, T);
    QueuedAreItems(s);
    StrayIsIn(env, prog, L, T, s.interQueue);
    StrayStaysInside(env, s, ItemsIn(prog, L, T));
    RunStaysInside(env, s, k, ItemsIn(prog, L, T));
  }

  lemma FactsAreIn(prog: Program, L: iset<Item>, T: set<FuncId>, s: State)
    requires Items(s) <= ItemsIn(prog, L, T)
    ensures forall v :: PtsOf(s, v) != {} ==> PathIn(prog, L, T, v)
  {
    hide PathIn;
    forall v | PtsOf(s, v) != {} ensures PathIn(prog, L, T, v) {
      var o :| o in PtsOf(s, v);
      assert Pts(v, o) in Items(s);
    }
  }

  lemma NotBroughtIn(env: Env, prog: Program, L: iset<Item>, f: FuncId)
    requires WellOwned(env, prog, L) && Reached(prog, L, f) && prog.body(f).None?
    ensures !BroughtIn(prog, L, f)
  {
    hide Reached;
  }

  lemma InertFunctions(prog: Program, L: iset<Item>, S: set<FuncId>, T: set<FuncId>)
    requires forall f :: f in S - T ==> !BroughtIn(prog, L, f)
    ensures ItemsIn(prog, L, S) <= ItemsIn(prog, L, T)
  {
  }
}
