/** The steps of the driver put together: bringing a function in, handing calls over, and what remains to be
    seen. */
module DriverSteps {
  import opened Paths
  import opened Constraints
  import opened Solver
  import opened SolverTheorems
  import opened Joint
  import opened Driver
  import opened Ownership
  import opened DriverInvariant

  /** The state before anything has been added. */
  ghost function Initial(): Drive
  {
    Drive(State([], map[], map[], map[], map[], map[], [], [], [], [], {}, {}, [], 0), {}, [], 0, {}, {},
          History({}, {}, iset{}, iset{}, iset{}, iset{}, iset{}, {}, {}))
  }

  /** The state in which the entry function waits. */
  ghost function Start(prog: Program): Drive
  {
    Initial().(nodes := [prog.entry])
  }

  lemma StartIsCore(env: Env, prog: Program)
    ensures Core(env, prog, Start(prog))
  {
    hide JointLeast, Bounds, Known;
    assert forall i :: i !in Items(Initial().s);
  }

  lemma StartIsConsistent(env: Env, prog: Program, L: iset<Item>)
    requires Bounds(env, prog, L)
    ensures Consistent(env, prog, L, Start(prog)) && Between(env, prog, L, Start(prog))
  {
    hide Core, Bounds, Known;
    assert forall i :: i !in Items(Initial().s);
    StartIsCore(env, prog);
    BoundedByL(env, prog, L, Start(prog));
  }

  /** d' comes after d while functions are being added: facts and the lists of new calls are the same,
      everything else has only grown. */
  ghost predicate Grown(d: Drive, d': Drive)
  {
    && Items(d.s) <= Items(d'.s) && d.s.reported <= d'.s.reported && d.s.specials <= d'.s.specials && d.nodes <= d'.nodes
    && d'.s.diff == d.s.diff && d'.s.propa == d.s.propa && d'.s.newCalls == d.s.newCalls && d'.s.newInstances == d.s.newInstances
    && d.next <= d'.next && d.processed <= d'.processed && d.special <= d'.special
    && d.past.started <= d'.past.started && d'.past.settled == d.past.settled && d'.past.stray == d.past.stray
    && d.past.entered <= d'.past.entered && d.past.wired <= d'.past.wired
  }

  lemma GrownKnowsMore(env: Env, prog: Program, d: Drive, d': Drive)
    requires Grown(d, d')
    ensures Known(env, prog, d.past) <= Known(env, prog, d'.past)
  {
    hide Items, JointLeast, Known;
    KnownGrows(env, prog, d.past, d'.past);
  }

  /** Nothing was taken from the queue in between. */
  predicate SameTurn(d: Drive, d': Drive)
  {
    && d'.next == d.next && d'.special == d.special
    && d'.past.entered == d.past.entered && d'.past.skipped == d.past.skipped && d'.past.passed == d.past.passed
  }

  // ----- edges of a function

  lemma ProcessedIsIn(env: Env, prog: Program, L: iset<Item>, d: Drive, f: FuncId)
    requires Consistent(env, prog, L, d) && f in d.processed
    ensures EdgesIn(prog, Items(d.s), f)
  {
  }

  lemma ProcessedKeepsCore(env: Env, prog: Program, d: Drive, f: FuncId, root: FuncId)
    requires Core(env, prog, d) && EdgesIn(prog, Items(d.s), f)
    requires root in d.past.entered && Involves(prog, root, f) && forall h :: h in prog.related(f) ==> h in d.processed
    ensures Core(env, prog, d.(processed := d.processed + {f}))
  {
    hide Items, NoSelfFeed, JointLeast, QueueSafe, Tame, Ready, EdgesIn, FunctionIn, NeverPlain, Marks, WiresOk, MarksOk, Reached,
         ReachedPlainly, Taken, MarkedBefore, InvolvedBefore, ProcessedOk, StartedOk, Involves, LateOk, InEveryBound;
    MoreProcessed(prog, d.processed, d.past.entered, f, root);
  }

  lemma ProcessedKeeps(env: Env, prog: Program, L: iset<Item>, d: Drive, f: FuncId, root: FuncId)
    requires Consistent(env, prog, L, d) && EdgesIn(prog, Items(d.s), f) && f in d.past.started
    requires root in d.past.entered && Involves(prog, root, f) && forall h :: h in prog.related(f) ==> h in d.processed
    ensures Consistent(env, prog, L, d.(processed := d.processed + {f}))
  {
    hide Core, Items, WellOwned, JointLeast, EdgesIn, Taken, PathIn, ItemIn, BroughtByOther, Involves;
    ProcessedKeepsCore(env, prog, d, f, root);
    assert NodeSet(d.(processed := d.processed + {f})) == NodeSet(d);
  }

  lemma MoreProcessed(prog: Program, processed: set<FuncId>, entered: iset<FuncId>, f: FuncId, root: FuncId)
    requires ProcessedOk(prog, processed, entered) && root in entered && Involves(prog, root, f)
    requires forall h :: h in prog.related(f) ==> h in processed
    ensures ProcessedOk(prog, processed + {f}, entered)
  {
    forall g | Involves(prog, f, g) && g != f ensures g in processed {
      var h :| h in prog.related(f) && prog.depth(h) < prog.depth(f) && Involves(prog, h, g);
    }
  }

  lemma OwnEdge(prog: Program, X: iset<Item>, f: FuncId, e: Edge)
    requires EdgesIn(prog, X, f) && e in prog.edgesOf(f)
    ensures Arc(e) in X
  {
  }

  lemma EdgesOfBoth(prog: Program, X: iset<Item>, f: FuncId)
    requires forall e :: e in prog.edgesOf(f) ==> Arc(e) in X
    requires forall h :: h in prog.related(f) ==> EdgesIn(prog, X, h)
    ensures EdgesIn(prog, X, f)
  {
  }

  lemma InternalGrows(d: Drive, e: Edge)
    requires Items(WithInternal(d, e).s) == Items(d.s) + iset{Arc(e)}
    ensures Grown(d, WithInternal(d, e)) && SameTurn(d, WithInternal(d, e))
  {
  }

  lemma SiteGrows(d: Drive, k: SiteKind, v: Path, c: CallSite)
    requires Items(WithSite(d, k, v, c).s) == Items(d.s) + iset{Site(k, v, c)}
    ensures Grown(d, WithSite(d, k, v, c)) && SameTurn(d, WithSite(d, k, v, c))
  {
    hide Items;
  }

  lemma CallGrows(env: Env, prog: Program, L: iset<Item>, d: Drive, c: Call)
    requires Consistent(env, prog, L, d)
    ensures Grown(d, WithCall(prog, d, c)) && SameTurn(d, WithCall(prog, d, c)) && c in WithCall(prog, d, c).s.reported
  {
    hide Items, InterEdges, Ready;
    CallItems(env, prog, d, c);
  }

  lemma SpecialGrows(d: Drive, c: Call)
    requires Items(WithSpecial(d, c).s) == Items(d.s) + iset{Special(c)}
    ensures Grown(d, WithSpecial(d, c)) && SameTurn(d, WithSpecial(d, c)) && c in WithSpecial(d, c).s.specials
  {
    hide Items;
  }

  /** A function that has been entered is among what is known. */
  lemma EnteredIsKnown(env: Env, prog: Program, d: Drive, f: FuncId)
    requires Core(env, prog, d) && f in d.past.entered
    ensures FunctionIn(prog, Known(env, prog, d.past), f) && prog.body(f).Some?
  {
    hide Items, NoSelfFeed, QueueSafe, Tame, Ready, FunctionIn, CallIn, Reached, ReachedPlainly, WiresOk, FunctionsOk, JointLeast, Closed,
         LateOk, InEveryBound, MarksOk, ProcessedOk, NeverEntered, OrderedAt;
    var K := Known(env, prog, d.past);
    assert Taken(d.nodes, d.next + 1, f);
    ReachedMonotone(prog, Items(d.s), K, f);
    JointLeastIsClosed(env, prog, Scope(d.past.entered, d.past.wired), d.past.stray);
  }

  /** So is everything that it involves. */
  lemma InvolvedIsKnown(env: Env, prog: Program, d: Drive, f: FuncId, root: FuncId)
    requires Core(env, prog, d) && root in d.past.entered && Involves(prog, root, f)
    ensures EdgesIn(prog, Known(env, prog, d.past), f)
  {
    hide JointLeast, Known, Reached, Involves, BodyIn, Core;
    EnteredIsKnown(env, prog, d, root);
    var K := Known(env, prog, d.past);
    forall g, e | Involves(prog, f, g) && e in prog.edgesOf(g) ensures Arc(e) in K {
      InvolvesTransitive(prog, root, f, g);
    }
  }

  /** The special callees of a function that has been entered are special. */
  lemma EnteredMarks(env: Env, prog: Program, d: Drive, f: FuncId)
    requires Core(env, prog, d) && f in d.past.entered && prog.body(f).Some?
    ensures forall c :: c in prog.body(f).value.specialCalls ==> c.callee in d.special
  {
    hide Items, NoSelfFeed, QueueSafe, Tame, Ready, FunctionIn, CallIn, Reached, WiresOk, FunctionsOk, GraphOk, JointLeast, LateOk,
         InEveryBound;
    forall c | c in prog.body(f).value.specialCalls ensures c.callee in d.special {
      assert c.callee in Marks(prog, f);
    }
  }

  lemma NodeIsReached(env: Env, prog: Program, L: iset<Item>, d: Drive, f: FuncId)
    requires Consistent(env, prog, L, d) && f in d.nodes
    ensures Reached(prog, L, f)
  {
    hide Items, NoSelfFeed, Tidy, WellOwned, QueueSafe, Tame, Ready, FunctionIn, CallIn, Reached, WiresOk,
         FunctionsOk, HistoryOk, Known;
    ReachedMonotone(prog, Items(d.s), L, f);
  }

  lemma FunctionParts(prog: Program, L: iset<Item>, f: FuncId)
    requires prog.body(f).Some?
    ensures FunctionIn(prog, L, f) <==> EdgesIn(prog, L, f) && BodyIn(L, prog.body(f).value)
  {
  }

  /** f may be added on behalf of the entered function root. */
  ghost predicate MayAdd(prog: Program, L: iset<Item>, d: Drive, f: FuncId, root: FuncId)
  {
    && root in d.past.entered && root in d.nodes && d.past.entered !! d.past.skipped
    && Brings(prog, L, root, f) && prog.depth(f) <= prog.depth(root)
    && (f == root ==> d.next < |d.nodes| && d.nodes[d.next] == f)
  }

  lemma {:induction false} InvolvesTransitive(prog: Program, f: FuncId, g: FuncId, h: FuncId)
    requires Involves(prog, f, g) && Involves(prog, g, h)
    ensures Involves(prog, f, h)
    decreases prog.depth(f)
  {
    if f != g {
      var k :| k in prog.related(f) && prog.depth(k) < prog.depth(f) && Involves(prog, k, g);
      InvolvesTransitive(prog, k, g, h);
    }
  }

  ghost function Starting(d: Drive, f: FuncId): Drive
  {
    d.(past := d.past.(started := d.past.started + {f}))
  }

  lemma StartKeepsCore(env: Env, prog: Program, d: Drive, f: FuncId, root: FuncId)
    requires Core(env, prog, d) && root in d.past.entered && Involves(prog, root, f)
    ensures Core(env, prog, Starting(d, f))
  {
    hide Items, NoSelfFeed, QueueSafe, Tame, Ready, Reached, ReachedPlainly, EdgesIn, FunctionIn, CallIn, MarksOk, NeverPlain, WiresOk,
         JointLeast, Taken, MarkedBefore, InvolvedBefore, ProcessedOk, Involves, LateOk, InEveryBound;
    var d' := Starting(d, f);
    forall j | 0 <= j < d.next ensures OrderedAt(prog, d.nodes, d'.past, j) {
      assert OrderedAt(prog, d.nodes, d.past, j);
    }
  }

  lemma StartKeeps(env: Env, prog: Program, L: iset<Item>, d: Drive, f: FuncId, root: FuncId)
    requires Consistent(env, prog, L, d) && MayAdd(prog, L, d, f, root) && f !in d.processed
    ensures Consistent(env, prog, L, Starting(d, f)) && Adding(env, prog, L, Starting(d, f), f)
  {
    hide Core, Tidy, WellOwned, Reached, JointLeast, GraphOk, WiresOk, FunctionsOk, HistoryOk;
    StartKeepsCore(env, prog, d, f, root);
    CoreParts(env, prog, d);
    TakenParts(env, prog, d);
    assert BroughtIn(prog, L, f);
    if WellOwned(env, prog, L) {
      StartTidy(env, prog, L, d, f, root);
    }
  }

  lemma StartTidy(env: Env, prog: Program, L: iset<Item>, d: Drive, f: FuncId, root: FuncId)
    requires WellOwned(env, prog, L) && Tidy(prog, L, d) && MayAdd(prog, L, d, f, root) && f !in d.processed
    requires GraphOk(prog, d) && Items(d.s) <= L && DealtWith(d.nodes, d.next + 1, d.past)
    ensures Tidy(prog, L, Starting(d, f)) && f !in d.past.settled
  {
    hide Items, Brings, Reached, ReachedPlainly, PathIn, ItemsIn, MarksOk, InGraph;
    var d' := Starting(d, f);
    ItemsInMonotone(prog, L, NodeSet(d) + d.past.started, NodeSet(d') + d'.past.started);
    if f != root {
      assert BroughtByOther(prog, L, f);
      if f in d.past.skipped {
        ReachedMonotone(prog, Items(d.s), L, f);
      }
    } else {
      assert Taken(d.nodes, d.next + 1, f);
    }
  }

  lemma RelatedMayBeAdded(prog: Program, L: iset<Item>, d: Drive, f: FuncId, h: FuncId, root: FuncId)
    requires root in d.past.entered && root in d.nodes && d.past.entered !! d.past.skipped
    requires Brings(prog, L, root, f) && prog.depth(f) <= prog.depth(root)
    requires h in prog.related(f) && prog.depth(h) < prog.depth(f)
    ensures MayAdd(prog, L, d, h, root)
  {
    hide Reached;
    assert Involves(prog, h, h);
    assert Involves(prog, f, h);
    InvolvesTransitive(prog, root, f, h);
  }

  /** A function that has just been entered may be added. */
  lemma EnteredMayBeAdded(env: Env, prog: Program, L: iset<Item>, d: Drive, f: FuncId)
    requires Consistent(env, prog, L, d) && f in d.past.entered && prog.body(f).Some? && d.next < |d.nodes| && d.nodes[d.next] == f
    ensures MayAdd(prog, L, d, f, f)
  {
    hide Items, NoSelfFeed, Tidy, WellOwned, QueueSafe, Tame, Ready, FunctionIn, CallIn, Reached, WiresOk,
         FunctionsOk, MarksOk, JointLeast, Closed, Ordered, NeverEntered, Taken;
    NodeIsReached(env, prog, L, d, f);
  }

  lemma AddedIsAdding(env: Env, prog: Program, L: iset<Item>, d: Drive, d': Drive, f: FuncId)
    requires Consistent(env, prog, L, d) && f !in d.processed && d'.past.settled == d.past.settled && f in d'.past.started
    requires MayAdd(prog, L, d, f, f)
    ensures Adding(env, prog, L, d', f)
  {
    hide Items, NoSelfFeed, WellOwned, Brings, Ready, Known, GraphOk, WiresOk, FunctionsOk, Ordered, MarksOk,
         NeverEntered;
    assert BroughtIn(prog, L, f);
  }

  lemma ProcessedIsStarted(env: Env, prog: Program, L: iset<Item>, d: Drive, f: FuncId)
    requires Consistent(env, prog, L, d) && f in d.processed
    ensures WellOwned(env, prog, L) ==> f in d.past.started
  {
    hide Items, NoSelfFeed, WellOwned, Ready, Known, GraphOk, WiresOk, FunctionsOk, HistoryOk;
  }

  /** In a well-owned program the next function of the queue has not been added before. */
  lemma AlreadyAdded(env: Env, prog: Program, L: iset<Item>, d: Drive, f: FuncId)
    requires Consistent(env, prog, L, d) && Between(env, prog, L, d) && f in d.processed
    requires d.next < |d.nodes| && f == d.nodes[d.next]
    ensures !WellOwned(env, prog, L)
  {
    hide Items, NoSelfFeed, Ready, Known, GraphOk, WiresOk, FunctionsOk, HistoryOk, Reached, Brings, EdgesOwned,
         BodyOwned, TargetsOwned, OneShape;
    NodeIsReached(env, prog, L, d, f);
  }

  // ----- calls

  ghost predicate CallMayBeAdded(env: Env, prog: Program, L: iset<Item>, d: Drive, c: Call)
  {
    WellOwned(env, prog, L) ==> SiteIn(prog, L, NodeSet(d) + d.past.started, c.site)
  }

  lemma StillMayBeAdded(env: Env, prog: Program, L: iset<Item>, d: Drive, d': Drive, c: Call)
    requires CallMayBeAdded(env, prog, L, d, c) && d.nodes <= d'.nodes && d.past.started <= d'.past.started
    ensures CallMayBeAdded(env, prog, L, d', c)
  {
    hide WellOwned, PathIn;
    var S, T := NodeSet(d) + d.past.started, NodeSet(d') + d'.past.started;
    assert S <= T by {
      forall f | f in d.nodes ensures f in d'.nodes {
      }
    }
    ItemsInMonotone(prog, L, S, T);
    assert ItemIn(prog, L, S, Called(c)) ==> Called(c) in ItemsIn(prog, L, S);
  }

  lemma BodyIsOwned(env: Env, prog: Program, L: iset<Item>, d: Drive, f: FuncId)
    requires Adding(env, prog, L, d, f) && prog.body(f).Some?
    ensures var b := prog.body(f).value;
      && (forall c :: c in b.staticCalls ==> CallMayBeAdded(env, prog, L, d, c))
      && (WellOwned(env, prog, L) ==> SitesOwned(b.dynSites, f) && SitesOwned(b.fnptrSites, f) && SitesOwned(b.fntraitSites, f))
  {
    hide SitesOwned, BroughtIn, PathIn, TargetsOwned, OneShape, SiteOwner, SiteIn;
    if WellOwned(env, prog, L) {
      assert BodyOwned(prog, f);
      forall c | c in prog.body(f).value.staticCalls ensures CallMayBeAdded(env, prog, L, d, c) {
        OwnedSiteIsIn(prog, L, NodeSet(d) + d.past.started, c.site, f);
      }
    }
  }

  lemma ListsMayBeAdded(env: Env, prog: Program, L: iset<Item>, d: Drive)
    requires Consistent(env, prog, L, d)
    ensures forall c :: c in d.s.newCalls || c in d.s.newInstances ==>
      Called(c) in Known(env, prog, d.past) && CallMayBeAdded(env, prog, L, d, c)
  {
    hide Ready, NoSelfFeed, WellOwned, GraphOk, WiresOk, FunctionsOk, HistoryOk, SiteIn, PathIn, Known, QueueSafe;
    forall c | c in d.s.newCalls || c in d.s.newInstances
      ensures Called(c) in Known(env, prog, d.past) && CallMayBeAdded(env, prog, L, d, c)
    {
      assert Called(c) in Items(d.s);
    }
  }

  /** New functions at the end of the queue have not been added on their own account. */
  lemma BetweenKept(env: Env, prog: Program, L: iset<Item>, d: Drive, d': Drive)
    requires Consistent(env, prog, L, d) && Between(env, prog, L, d) && d.next == |d.nodes|
    requires Consistent(env, prog, L, d') && SameTurn(d, d')
    requires d.nodes <= d'.nodes && d'.past.started == d.past.started && d.processed <= d'.processed
    ensures Between(env, prog, L, d')
  {
    hide Items, Ready, NoSelfFeed, WellOwned, BroughtByOther, ItemsIn, PathIn, Known, WiresOk, FunctionsOk, HistoryOk,
         Reached, ReachedPlainly, QueueSafe, MarksOk, InGraph;
    TakenStays(d.nodes, d'.nodes, d.next);
    if WellOwned(env, prog, L) && d'.next < |d'.nodes| && d'.nodes[d'.next] in d'.past.started {
      var f := d'.nodes[d'.next];
      assert forall i :: 0 <= i < |d.nodes| ==> d.nodes[i] == d'.nodes[i];
      assert !Taken(d.nodes, d.next + 1, f);
    }
  }

  ghost function Dropping(d: Drive): Drive
  {
    d.(s := d.s.(newCalls := [], newInstances := []))
  }

  lemma DropKeepsCore(env: Env, prog: Program, d: Drive)
    requires Core(env, prog, d) && forall c :: c in d.s.newCalls || c in d.s.newInstances ==> c in d.s.reported
    ensures Core(env, prog, Dropping(d)) && Items(Dropping(d).s) == Items(d.s)
  {
    hide Items, GraphOk, WiresOk, FunctionsOk, HistoryOk, NoSelfFeed, Ready, Known, QueueSafe, Tame, LateOk, InEveryBound;
    DropListsKeeps(env, d.s, d.past.done);
    GrowingKeepsRest(env, prog, d, Dropping(d));
    SameLate(d.s, Dropping(d).s, d.past.done, d.past.late);
  }

  lemma DropKeeps(env: Env, prog: Program, L: iset<Item>, d: Drive)
    requires Consistent(env, prog, L, d) && Between(env, prog, L, d)
    requires forall c :: c in d.s.newCalls || c in d.s.newInstances ==> c in d.s.reported
    ensures Consistent(env, prog, L, Dropping(d)) && Between(env, prog, L, Dropping(d)) && Items(Dropping(d).s) == Items(d.s)
  {
    hide Core, Items, Tidy, Known, Taken, BroughtByOther, WellOwned;
    DropKeepsCore(env, prog, d);
    if WellOwned(env, prog, L) {
      SameItems(prog, L, d);
      GrowingKeepsTidy(prog, L, d, Dropping(d));
    }
  }

  lemma SameItems(prog: Program, L: iset<Item>, d: Drive)
    requires Tidy(prog, L, d)
    ensures Items(d.s) <= ItemsIn(prog, L, NodeSet(d) + d.past.started) && d.past.late == {}
  {
  }

  // ----- progress

  /** The functions that a finite set of items mentions. */
  ghost function Functions(prog: Program, bound: set<Item>): set<FuncId>
  {
    {prog.entry} + (set i | i in bound && (i.Called? || i.Special?) :: i.call.callee)
    + (set i | i in bound && (i.Called? || i.Special?) :: i.call.site.func)
  }

  /** The functions that may still be taken from the queue. */
  ghost function Unseen(prog: Program, bound: set<Item>, d: Drive): set<FuncId>
  {
    Functions(prog, bound) - (set i | 0 <= i < d.next && i < |d.nodes| :: d.nodes[i])
  }

  lemma ReachedIsBounded(prog: Program, L: iset<Item>, bound: set<Item>, f: FuncId)
    requires Reached(prog, L, f) && forall i :: i in L ==> i in bound
    ensures f in Functions(prog, bound)
  {
    if f != prog.entry {
      var c :| InCallGraph(L, c) && (f == c.callee || f == c.site.func);
      assert Called(c) in bound || Special(c) in bound;
    }
  }

  lemma SeenOneMore(prog: Program, bound: set<Item>, nodes: seq<FuncId>, d: Drive, d': Drive)
    requires d.nodes <= d'.nodes == nodes && d.next < |d.nodes| && d'.next == d.next + 1 && Distinct(nodes)
    requires d.nodes[d.next] in Functions(prog, bound)
    ensures Unseen(prog, bound, d') < Unseen(prog, bound, d)
  {
    hide Functions;
    assert forall i :: 0 <= i < |d.nodes| ==> d.nodes[i] == d'.nodes[i];
    assert d.nodes[d.next] in Unseen(prog, bound, d) && d.nodes[d.next] !in Unseen(prog, bound, d');
  }

  lemma MayStart(env: Env, prog: Program, L: iset<Item>, d: Drive, bound: set<Item>)
    requires OrderOk(env) && Bounds(env, prog, L) && Consistent(env, prog, L, d) && forall i :: i in L ==> i in bound
    ensures Ready(env, d.s, d.past.done)
    ensures forall i :: i in Least(env, Items(d.s) + Stray(env, d.s)) ==> i in bound
  {
    hide Core, Ready, Least, Items, Known, Bounds, Stray, WellOwned, QueueKinds, GraphOk, WiresOk, FunctionsOk, HistoryOk;
    CoreParts(env, prog, d);
    StrayWithin(env, prog, L, d.s, d.past.done);
  }

  lemma RoundProgress(env: Env, prog: Program, L: iset<Item>, s: State, t: State, d: Drive, bound: set<Item>)
    requires FoundNew(s, t) && Items(s) <= Items(t) <= Items(d.s)
    requires Consistent(env, prog, L, d) && forall i :: i in L ==> i in bound
    ensures Missing(d.s, bound) < Missing(s, bound)
  {
    hide Missing, Ready, GraphOk, WiresOk, FunctionsOk, HistoryOk, NoSelfFeed, Items, Known, WellOwned, QueueSafe,
         FoundNew;
    FoundNewStays(s, t, d.s);
    MissingShrinks(s, d.s, bound);
    FoundNewFillsIn(s, d.s, bound);
  }
}
