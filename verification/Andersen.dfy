/** The on-the-fly Andersen analysis (src/pta/andersen.rs): functions are added to the graph as they become
    reachable, and the solver is run again until it makes no further call. */
module Andersen {
  import opened Options
  import opened Paths
  import opened Constraints
  import opened SolverTheorems
  import opened PtData
  import opened Pag
  import opened CallGraph
  import opened Joint
  import opened Driver
  import opened Ownership
  import opened DriverInvariant
  import opened DriverSteps
  import opened Moves
  import opened Exit
  import Solver
  import Propagator

  type State = Solver.State

  class AndersenPTA {
    const env: Env
    const prog: Program
    const ptData: DiffPTData
    const pag: PAG
    const callGraph: CallGraph
    const assoc: Propagator.AssocCallGroup
    var processedFuncs: set<FuncId>
    /** The functions whose effects are summarized where they are called; the source keeps them in its analysis
        context, which grows while functions are built. */
    var specialFunctions: set<FuncId>
    /** Positions of the cursors over the reachable functions, the address edges and the queued edges. */
    var rfIter: nat
    var addrEdgeIter: nat
    var interProcEdges: seq<EdgeId>
    var interProcIter: nat
    /** The number of turns that the solver has made. */
    var clock: nat
    /** The calls that the last run of the solver made. */
    var newCalls: seq<Call>
    var newInstances: seq<Call>
    /** The calls that have been added, the special calls, and what has happened so far. */
    ghost var reported: set<Call>
    ghost var specialCalls: set<Call>
    ghost var past: History
    /** A finite set from which no step leads out. */
    ghost const bound: set<Item>

    ghost predicate Valid()
      reads this, pag, callGraph
    {
      && pag.Valid() && callGraph.Valid() && OrderOk(env) && ProgramOk(prog) && Bounds(env, prog, L())
      && rfIter <= |callGraph.nodes|
      && addrEdgeIter <= |pag.addrEdgesQueue| && interProcIter <= |interProcEdges|
      && InRange(|pag.arcs|, interProcEdges)
    }

    ghost function Snap(): State
      requires Valid()
      reads this, pag, callGraph, ptData, assoc
    {
      Solver.State(pag.Edges(), ptData.diffPts, ptData.propaPts,
                   assoc.dynSites, assoc.fnptrSites, assoc.fntraitSites,
                   Select(pag.Edges(), pag.addrEdgesQueue[addrEdgeIter..]),
                   Select(pag.Edges(), interProcEdges[interProcIter..]),
                   newCalls, newInstances, reported, specialCalls, [], clock)
    }

    ghost function D(): Drive
      requires Valid()
      reads this, pag, callGraph, ptData, assoc
    {
      Drive(Snap(), callGraph.CallEdges(), callGraph.nodes, rfIter, processedFuncs, specialFunctions, past)
    }

    ghost function L(): iset<Item>
    {
      Items(bound)
    }

    /** What the functions entered and the calls wired so far give. */
    ghost function K(): iset<Item>
      reads this
    {
      Known(env, prog, past)
    }

    constructor (env: Env, prog: Program, ghost bound: set<Item>)
      requires OrderOk(env) && ProgramOk(prog) && Bounds(env, prog, Items(bound))
      ensures Valid() && this.env == env && this.prog == prog && this.bound == bound
      ensures D() == Initial()
      ensures fresh(pag) && fresh(ptData) && fresh(callGraph) && fresh(assoc)
    {
      this.env, this.prog, this.bound := env, prog, bound;
      ptData := new DiffPTData();
      pag := new PAG();
      callGraph := new CallGraph();
      assoc := new Propagator.AssocCallGroup();
      processedFuncs, specialFunctions, rfIter, addrEdgeIter, interProcEdges, interProcIter, clock := {}, {}, 0, 0, [], 0, 0;
      newCalls, newInstances, reported, specialCalls := [], [], {}, {};
      past := Initial().past;
    }

    // ----- single additions

    /** Adds an edge to the graph; a new one is queued when asked for. */
    method AddEdge(e: Edge, queue: bool)
      requires Valid()
      modifies this`interProcEdges, pag
      ensures Valid()
      ensures var s := old(Snap());
        Snap() == if e in s.edges then s
        else s.(edges := s.edges + [e], addrQueue := s.addrQueue + (if e.kind.Addr? then [e] else []),
                interQueue := s.interQueue + (if queue then [e] else []))
    {
      hide EdgesOf, Select, PAG.Valid, CallGraph.Valid, OrderOk, ProgramOk, Bounds, Known;
      ghost var s, before, aq, iq := Snap(), pag.Edges(), pag.addrEdgesQueue, interProcEdges;
      pag.Ranges();
      var r := pag.AddEdge(e.src, e.dst, e.kind);
      pag.Ranges();
      if r.Some? {
        QueueGrows(before, pag.Edges(), aq, addrEdgeIter, r.value, e);
        QueueGrows(before, pag.Edges(), iq, interProcIter, r.value, e);
        if queue {
          interProcEdges := interProcEdges + [r.value];
        }
        assert pag.addrEdgesQueue == if e.kind.Addr? then aq + [r.value] else aq;
        assert interProcEdges == if queue then iq + [r.value] else iq;
        assert Select(pag.Edges(), pag.addrEdgesQueue[addrEdgeIter..]) == s.addrQueue + if e.kind.Addr? then [e] else [];
        assert Select(pag.Edges(), interProcEdges[interProcIter..]) == s.interQueue + if queue then [e] else [];
      } else {
        assert pag.Edges() == before && pag.addrEdgesQueue == aq && interProcEdges == iq;
      }
    }

    method AddInternalEdge(e: Edge)
      requires Valid()
      modifies this`interProcEdges, this`past, pag
      ensures Valid() && D() == WithInternal(old(D()), e)
      ensures var s := old(Snap());
        Snap() == if e in s.edges then s
        else s.(edges := s.edges + [e], addrQueue := s.addrQueue + (if e.kind.Addr? then [e] else []),
                interQueue := s.interQueue + (if e.src.PromotedConstant? || e.src.StaticVariable? then [e] else []))
    {
      hide EdgesOf, Select, PAG.Valid, CallGraph.Valid, OrderOk, ProgramOk, Bounds, Known;
      ghost var done, late := DoneWithEdge(Snap(), past.done, e), past.late + LateWithEdge(Snap(), e);
      AddEdge(e, IsQueued(e.src));
      past := past.(done := done, late := late);
    }

    method AttachSite(k: SiteKind, v: Path, c: CallSite)
      requires Valid()
      modifies this`past, pag, assoc
      ensures Valid() && D() == WithSite(old(D()), k, v, c)
    {
      hide EdgesOf, Select, PAG.Valid, CallGraph.Valid, OrderOk, ProgramOk, Bounds, Known;
      ghost var done, late := DoneWithSite(Snap(), past.done, k, v, c), past.late + LateWithSite(Snap(), k, v, c);
      ghost var before := pag.Edges();
      pag.Ranges();
      var id := pag.GetOrInsertNode(v);
      match k {
        case DynSite => assoc.AddDynamicDispatchCall(v, c);
        case FnPtrSite => assoc.AddFnptrCall(v, c);
        case FnTraitSite => assoc.AddDynamicFntraitCall(v, c);
      }
      past := past.(done := done, late := late);
    }

    /** One direct edge for a pointer, or one for each pointer-typed part. */
    method AddNewDirectEdges(src: Path, dst: Path, parts: seq<Projection>)
      requires Valid()
      modifies this`interProcEdges, pag
      ensures Valid() && Snap() == AddInters(old(Snap()), PartEdges(src, dst, parts))
    {
      hide EdgesOf, Select, PAG.Valid, CallGraph.Valid, OrderOk, ProgramOk, Bounds, Known;
      ghost var s := Snap();
      for i := 0 to |parts|
        invariant Valid()
        invariant AddInters(s, PartEdges(src, dst, parts)) == AddInters(Snap(), PartEdges(src, dst, parts[i..]))
      {
        var e := Edge(AppendProjection(src, parts[i]), AppendProjection(dst, parts[i]), Direct);
        ghost var u := Snap();
        assert parts[i..][1..] == parts[i + 1..];
        AddIntersUnfolds(u, e, PartEdges(src, dst, parts[i + 1..]));
        AddEdge(e, true);
        assert Snap() == AddInter(u, e);
      }
    }

    method AddInterProceduralEdges(c: Call)
      requires Valid()
      modifies this`interProcEdges, pag
      ensures Valid() && Snap() == AddInters(old(Snap()), InterEdges(prog, c))
    {
      hide EdgesOf, Select, PAG.Valid, CallGraph.Valid, OrderOk, ProgramOk, Bounds, Known, PartEdges;
      if !prog.mirAvailable(c.callee) {
        return;
      }
      ghost var s := Snap();
      ghost var last := PartEdges(ReturnValue(c.callee), c.site.destination, prog.pointerParts(c.site.destination));
      var args := c.site.args;
      for i := 0 to |args|
        invariant Valid()
        invariant AddInters(s, ArgEdges(prog, args, c.callee, 1)) == AddInters(Snap(), ArgEdges(prog, args[i..], c.callee, i + 1))
      {
        assert args[i..][1..] == args[i + 1..];
        AddIntersConcat(Snap(), PartEdges(args[i], Parameter(c.callee, i + 1), prog.pointerParts(args[i])),
                        ArgEdges(prog, args[i + 1..], c.callee, i + 2));
        AddNewDirectEdges(args[i], Parameter(c.callee, i + 1), prog.pointerParts(args[i]));
      }
      AddNewDirectEdges(ReturnValue(c.callee), c.site.destination, prog.pointerParts(c.site.destination));
      AddIntersConcat(s, ArgEdges(prog, args, c.callee, 1), last);
    }

    method AddCallEdge(c: Call)
      requires Valid()
      modifies this`interProcEdges, this`reported, this`past, pag, callGraph
      ensures Valid() && D() == WithCall(prog, old(D()), c)
    {
      hide EdgesOf, Select, PAG.Valid, CallGraph.Valid, OrderOk, ProgramOk, InterEdges, Bounds, Known;
      ghost var s := Snap();
      var isNew := callGraph.AddEdge(BaseSite(c.site.func, c.site.location), c.site.func, c.callee);
      assert Snap() == s;
      if isNew {
        AddInterProceduralEdges(c);
      }
      reported, past := reported + {c}, past.(wired := past.wired + if isNew then iset{c} else iset{});
    }

    /** A special call enters the call graph only. */
    method AddSpecialCall(c: Call)
      requires Valid()
      modifies this`specialCalls, callGraph
      ensures Valid() && D() == WithSpecial(old(D()), c)
    {
      hide EdgesOf, Select, PAG.Valid, CallGraph.Valid, OrderOk, ProgramOk, Bounds, Known;
      var isNew := callGraph.AddEdge(BaseSite(c.site.func, c.site.location), c.site.func, c.callee);
      specialCalls := specialCalls + {c};
    }

    // ----- functions

    /** The object is valid, and its state arises and keeps the driver's invariant. */
    ghost predicate Ok()
      reads this, pag, callGraph, ptData, assoc
    {
      Valid() && Consistent(env, prog, L(), D()) && Arises(env, prog, D())
    }

    ghost predicate Rest()
      requires Valid()
      reads this, pag, callGraph, ptData, assoc
    {
      Between(env, prog, L(), D())
    }

    /** Adds the edges of one function. */
    method AddOwnEdges(f: FuncId)
      requires Ok() && EdgesIn(prog, K(), f) && Adding(env, prog, L(), D(), f) && f !in processedFuncs
      modifies this`interProcEdges, this`past, pag
      ensures Ok() && Grown(old(D()), D()) && SameTurn(old(D()), D()) && past.started == old(past.started)
      ensures forall e :: e in prog.edgesOf(f) ==> Arc(e) in Solver.Items(D().s)
    {
      hide EdgesOf, Select, PAG.Valid, CallGraph.Valid, OrderOk, ProgramOk, Bounds, Core, Consistent, Arises, Solver.Items,
           JointLeast, EdgesIn, WellOwned, BroughtIn, DoneWithEdge;
      ghost var d, known := D(), K();
      var edges := prog.edgesOf(f);
      for i := 0 to |edges|
        invariant Ok() && Grown(d, D()) && SameTurn(d, D()) && past.started == d.past.started && K() == known
        invariant Adding(env, prog, L(), D(), f)
        invariant forall j :: 0 <= j < i ==> Arc(edges[j]) in Solver.Items(D().s)
      {
        OwnEdge(prog, known, f, edges[i]);
        OneMove(env, prog, D(), Move.AddEdge(f, edges[i]));
        InternalKeeps(env, prog, L(), D(), edges[i], f);
        InternalGrows(D(), edges[i]);
        AddInternalEdge(edges[i]);
      }
    }

    /** Adds the edges of a function and of the functions that it involves, on behalf of an entered one. */
    method AddFpagEdges(f: FuncId, ghost root: FuncId)
      requires Ok() && MayAdd(prog, L(), D(), f, root)
      modifies this`processedFuncs, this`interProcEdges, this`past, pag
      ensures Ok() && Grown(old(D()), D()) && SameTurn(old(D()), D())
      ensures EdgesIn(prog, Solver.Items(D().s), f)
      ensures f in processedFuncs && past.started <= processedFuncs + old(past.started)
      ensures f in past.started || f in old(processedFuncs)
      decreases prog.depth(f), 1
    {
      hide EdgesOf, Select, PAG.Valid, CallGraph.Valid, OrderOk, Bounds, Core, Consistent, Arises, Solver.Items, Known, EdgesIn,
           Brings, WellOwned, BroughtIn, ProgramOk;
      if f in processedFuncs {
        ProcessedIsIn(env, prog, L(), D(), f);
        return;
      }
      Begin(f, root);
      AddOwnEdges(f);
      AddRelatedEdges(f, root);
      Finish(f, root);
    }

    ghost method Begin(f: FuncId, root: FuncId)
      requires Ok() && MayAdd(prog, L(), D(), f, root) && f !in processedFuncs
      modifies this`past
      ensures Ok() && D() == Starting(old(D()), f) && Adding(env, prog, L(), D(), f) && EdgesIn(prog, K(), f)
    {
      hide EdgesOf, Select, PAG.Valid, CallGraph.Valid, OrderOk, Bounds, Core, Consistent, Arises, Solver.Items, JointLeast, Brings,
           WellOwned, BroughtIn, ProgramOk, EdgesIn;
      BroughtIsInvolved(prog, L(), root, f);
      ConsistentIsCore(env, prog, L(), D());
      InvolvedIsKnown(env, prog, D(), f, root);
      OneMove(env, prog, D(), Move.Begin(f));
      StartKeeps(env, prog, L(), D(), f, root);
      past := past.(started := past.started + {f});
    }

    method Finish(f: FuncId, ghost root: FuncId)
      requires Ok() && f in past.started && Brings(prog, L(), root, f) && root in past.entered
      requires forall h :: h in prog.related(f) ==> h in processedFuncs
      requires forall e :: e in prog.edgesOf(f) ==> Arc(e) in Solver.Items(D().s)
      requires forall h :: h in prog.related(f) ==> EdgesIn(prog, Solver.Items(D().s), h)
      modifies this`processedFuncs
      ensures Ok() && D() == old(D()).(processed := old(processedFuncs) + {f}) && EdgesIn(prog, Solver.Items(D().s), f)
    {
      hide EdgesOf, Select, PAG.Valid, CallGraph.Valid, OrderOk, Bounds, Core, Consistent, Arises, Solver.Items, Known, EdgesIn,
           WellOwned, ProgramOk;
      EdgesOfBoth(prog, Solver.Items(D().s), f);
      ProcessedKeeps(env, prog, L(), D(), f, root);
      OneMove(env, prog, D(), Move.Finish(f));
      processedFuncs := processedFuncs + {f};
    }

    /** Adds the edges of the promoted constants and static variables of a function. */
    method AddRelatedEdges(f: FuncId, ghost root: FuncId)
      requires Ok() && Brings(prog, L(), root, f) && prog.depth(f) <= prog.depth(root) && f in past.started
      requires root in past.entered && root in callGraph.nodes && past.entered !! past.skipped
      modifies this`processedFuncs, this`interProcEdges, this`past, pag
      ensures Ok() && Grown(old(D()), D()) && SameTurn(old(D()), D()) && past.started <= processedFuncs + old(past.started)
      ensures forall h :: h in prog.related(f) ==> EdgesIn(prog, Solver.Items(D().s), h) && h in processedFuncs
      decreases prog.depth(f), 0
    {
      hide EdgesOf, Select, PAG.Valid, CallGraph.Valid, OrderOk, Bounds, Core, Consistent, Arises, Solver.Items, Known, EdgesIn,
           Brings;
      ghost var d := D();
      var others := prog.related(f);
      for i := 0 to |others|
        invariant Ok() && Grown(d, D()) && SameTurn(d, D()) && past.started <= processedFuncs + d.past.started
        invariant forall j :: 0 <= j < i ==> EdgesIn(prog, Solver.Items(D().s), others[j]) && others[j] in processedFuncs
      {
        assert others[i] in others;
        RelatedMayBeAdded(prog, L(), D(), f, others[i], root);
        ghost var before := D();
        AddFpagEdges(others[i], root);
        InMonotone(prog, Solver.Items(before.s), Solver.Items(D().s));
      }
    }

    /** Attaches a list of call sites to the pointers that decide them. */
    method AttachSites(k: SiteKind, sites: seq<(Path, CallSite)>, ghost f: FuncId)
      requires Ok() && (forall p :: p in sites ==> Site(k, p.0, p.1) in K())
      requires Adding(env, prog, L(), D(), f) && (WellOwned(env, prog, L()) ==> SitesOwned(sites, f))
      requires InTurn(prog, D(), f) && sites == SitesIn(prog.body(f).value, k)
      modifies this`past, pag, assoc
      ensures Ok() && Grown(old(D()), D()) && SameTurn(old(D()), D()) && past.started == old(past.started) && K() == old(K())
      ensures forall p :: p in sites ==> Site(k, p.0, p.1) in Solver.Items(D().s)
    {
      hide EdgesOf, Select, PAG.Valid, CallGraph.Valid, OrderOk, ProgramOk, Bounds, Core, Consistent, Arises, Solver.Items,
           JointLeast, WellOwned, BroughtIn, DoneWithSite, Solver.SitesOf;
      ghost var d, known := D(), K();
      for i := 0 to |sites|
        invariant Ok() && Grown(d, D()) && SameTurn(d, D()) && past.started == d.past.started && K() == known
        invariant Adding(env, prog, L(), D(), f)
        invariant forall j :: 0 <= j < i ==> Site(k, sites[j].0, sites[j].1) in Solver.Items(D().s)
      {
        assert sites[i] in sites;
        OneMove(env, prog, D(), AddSite(f, k, sites[i].0, sites[i].1));
        SiteKeeps(env, prog, L(), D(), k, sites[i].0, sites[i].1, f);
        SiteGrows(D(), k, sites[i].0, sites[i].1);
        AttachSite(k, sites[i].0, sites[i].1);
      }
    }

    method AddCalls(calls: seq<Call>)
      requires Ok() && (forall c :: c in calls ==> Called(c) in K())
      requires forall c :: c in calls ==> CallMayBeAdded(env, prog, L(), D(), c) && MayCall(prog, D(), c)
      modifies this`interProcEdges, this`reported, this`past, pag, callGraph
      ensures Ok() && Grown(old(D()), D()) && SameTurn(old(D()), D()) && past.started == old(past.started)
      ensures forall c :: c in calls ==> c in reported
    {
      hide EdgesOf, Select, PAG.Valid, CallGraph.Valid, OrderOk, ProgramOk, Bounds, Core, Consistent, Arises, Solver.Items, Known,
           CallIn, WellOwned, SiteIn, InterEdges;
      ghost var d, known := D(), K();
      for i := 0 to |calls|
        invariant Ok() && Grown(d, D()) && SameTurn(d, D()) && past.started == d.past.started && known <= K()
        invariant forall j :: 0 <= j < i ==> calls[j] in reported
      {
        assert calls[i] in calls;
        StillMayBeAdded(env, prog, L(), d, D(), calls[i]);
        StillMayCall(prog, d, D(), calls[i]);
        OneMove(env, prog, D(), AddCall(calls[i]));
        CallKeeps(env, prog, L(), D(), calls[i]);
        CallGrows(env, prog, L(), D(), calls[i]);
        AddCallEdge(calls[i]);
      }
    }

    method AddSpecialCalls(calls: seq<Call>, ghost f: FuncId)
      requires Ok() && forall c :: c in calls ==> Special(c) in K() && c.callee in specialFunctions
      requires InTurn(prog, D(), f) && calls == prog.body(f).value.specialCalls
      modifies this`specialCalls, callGraph
      ensures Ok() && Grown(old(D()), D()) && SameTurn(old(D()), D())
      ensures forall c :: c in calls ==> Special(c) in Solver.Items(D().s)
    {
      hide EdgesOf, Select, PAG.Valid, CallGraph.Valid, OrderOk, ProgramOk, Bounds, Core, Consistent, Arises, Solver.Items, Known;
      ghost var d := D();
      for i := 0 to |calls|
        invariant Ok() && Grown(d, D()) && SameTurn(d, D())
        invariant forall j :: 0 <= j < i ==> Special(calls[j]) in Solver.Items(D().s)
      {
        assert calls[i] in calls;
        OneMove(env, prog, D(), AddSpecial(f, calls[i]));
        SpecialKeeps(env, prog, L(), D(), calls[i]);
        SpecialGrows(D(), calls[i]);
        AddSpecialCall(calls[i]);
      }
    }

    /** Adds the calls of an entered function and attaches its call sites. */
    method ProcessCallsInFpag(b: Body, ghost f: FuncId)
      requires Ok() && BodyIn(K(), b) && InTurn(prog, D(), f)
      requires Adding(env, prog, L(), D(), f) && prog.body(f) == Some(b)
      modifies this`interProcEdges, this`reported, this`specialCalls, this`past, pag, callGraph, assoc
      ensures Ok() && Grown(old(D()), D()) && SameTurn(old(D()), D()) && past.started == old(past.started)
      ensures BodyIn(Solver.Items(D().s), b)
    {
      hide EdgesOf, Select, PAG.Valid, CallGraph.Valid, OrderOk, ProgramOk, Bounds, Core, Consistent, Arises, Solver.Items, Known,
           WellOwned, MayCall, CallMayBeAdded, BroughtIn, SitesOwned;
      ghost var known := K();
      BodyIsOwned(env, prog, L(), D(), f);
      ConsistentIsCore(env, prog, L(), D());
      EnteredMarks(env, prog, D(), f);
      ListedMayBeCalled(prog, D(), f);
      AddCalls(b.staticCalls);
      GrownKnowsMore(env, prog, old(D()), D());
      ReportedAreItems(D().s);
      AddSpecialCalls(b.specialCalls, f);
      AttachBodySites(b, f);
    }

    /** Attaches the call sites of a body. */
    method AttachBodySites(b: Body, ghost f: FuncId)
      requires Ok() && BodyIn(K(), b) && InTurn(prog, D(), f)
      requires Adding(env, prog, L(), D(), f) && prog.body(f) == Some(b)
      modifies this`past, pag, assoc
      ensures Ok() && Grown(old(D()), D()) && SameTurn(old(D()), D()) && past.started == old(past.started)
      ensures forall p :: p in b.dynSites ==> Site(DynSite, p.0, p.1) in Solver.Items(D().s)
      ensures forall p :: p in b.fnptrSites ==> Site(FnPtrSite, p.0, p.1) in Solver.Items(D().s)
      ensures forall p :: p in b.fntraitSites ==> Site(FnTraitSite, p.0, p.1) in Solver.Items(D().s)
    {
      hide EdgesOf, Select, PAG.Valid, CallGraph.Valid, OrderOk, ProgramOk, Bounds, Core, Consistent, Arises, Solver.Items, Known,
           WellOwned, BroughtIn, SitesOwned, CallMayBeAdded;
      BodyIsOwned(env, prog, L(), D(), f);
      AttachSites(FnTraitSite, b.fntraitSites, f);
      AttachSites(DynSite, b.dynSites, f);
      AttachSites(FnPtrSite, b.fnptrSites, f);
    }

    /** Builds a function unless it is special or has no body; its special callees become special. */
    method BuildFuncPag(f: FuncId) returns (body: Option<Body>)
      requires Ok() && Rest() && rfIter < |callGraph.nodes| && f == callGraph.nodes[rfIter] && f !in processedFuncs
      modifies this`specialFunctions, this`past
      ensures Ok() && OrderedAt(prog, callGraph.nodes, past, rfIter)
      ensures body == if f in old(specialFunctions) then None else prog.body(f)
      ensures D() == if f in old(specialFunctions) then Skipping(old(D()), f)
                     else if body.Some? then Entering(prog, old(D()), f) else old(D())
    {
      hide EdgesOf, Select, PAG.Valid, CallGraph.Valid, OrderOk, ProgramOk, Bounds, Core, Consistent, Arises, Solver.Items, Known,
           WellOwned, Marks, OrderedAt, DealtWith;
      if f in specialFunctions {
        SkipKeeps(env, prog, L(), D(), f);
        OneMove(env, prog, D(), Skip(f));
        past := past.(skipped := past.skipped + iset{f});
        return None;
      }
      body := prog.body(f);
      if body.None? {
        ConsistentIsCore(env, prog, L(), D());
        BodilessInOrder(env, prog, D(), f);
        return;
      }
      EnterKeeps(env, prog, L(), D(), f);
      OneMove(env, prog, D(), Enter(f));
      specialFunctions, past := specialFunctions + Marks(prog, f), past.(entered := past.entered + iset{f});
    }

    /** Adds the edges, calls and call sites of an entered function. */
    method AddFunction(f: FuncId, body: Body)
      requires Ok() && f in past.entered && prog.body(f) == Some(body) && f !in processedFuncs && past.started <= processedFuncs
      requires rfIter < |callGraph.nodes| && f == callGraph.nodes[rfIter]
      modifies this`processedFuncs, this`interProcEdges, this`reported, this`specialCalls, this`past, pag, callGraph,
               assoc
      ensures Ok() && Grown(old(D()), D()) && SameTurn(old(D()), D()) && past.started <= processedFuncs
      ensures FunctionIn(prog, Solver.Items(D().s), f) && f in processedFuncs && (WellOwned(env, prog, L()) ==> f in past.started)
    {
      hide EdgesOf, Select, PAG.Valid, CallGraph.Valid, OrderOk, ProgramOk, Bounds, Core, Consistent, Arises, Solver.Items, Known,
           FunctionIn, BodyIn, EdgesIn, WellOwned, Reached, BroughtIn, Brings;
      ghost var d := D();
      ConsistentIsCore(env, prog, L(), d);
      EnteredIsKnown(env, prog, d, f);
      FunctionParts(prog, K(), f);
      EnteredMayBeAdded(env, prog, L(), d, f);
      AddFpagEdges(f, f);
      ghost var between := D();
      GrownKnowsMore(env, prog, d, between);
      BodyGrows(K(), Known(env, prog, d.past), body);
      AddedIsAdding(env, prog, L(), d, between, f);
      ProcessCallsInFpag(body, f);
      InMonotone(prog, Solver.Items(between.s), Solver.Items(D().s));
      ProcessedIsStarted(env, prog, L(), D(), f);
      FunctionParts(prog, Solver.Items(D().s), f);
    }

    /** Deals with the next function of the queue: adds it, or passes it over because it is special or because
        its edges were added before. */
    method ProcessFunction(f: FuncId)
      requires Ok() && Rest() && rfIter < |callGraph.nodes| && f == callGraph.nodes[rfIter]
      modifies this`processedFuncs, this`specialFunctions, this`interProcEdges, this`reported, this`specialCalls,
               this`past
      modifies pag, callGraph, assoc
      ensures Ok() && Grown(old(D()), D()) && D().next == old(D().next)
      ensures past.started <= processedFuncs && EnteredAdded(D())
      ensures OrderedAt(prog, callGraph.nodes, past, rfIter)
      ensures f in past.entered ==> FunctionIn(prog, Solver.Items(D().s), f)
      ensures WellOwned(env, prog, L()) && prog.body(f).Some? ==> f in past.started || f in past.skipped
    {
      hide EdgesOf, Select, PAG.Valid, CallGraph.Valid, OrderOk, ProgramOk, Bounds, Core, Consistent, Arises, Solver.Items, Known,
           FunctionIn, WellOwned, Reached, OrderedAt, Marks;
      NotEnteredYet(env, prog, L(), D());
      if f !in processedFuncs {
        var body := BuildFuncPag(f);
        if body.Some? {
          ghost var d := D();
          AddFunction(f, body.value);
          OrderStays(prog, d, D());
        }
      } else {
        AlreadyAdded(env, prog, L(), D(), f);
        PassKeeps(env, prog, L(), D(), f);
        OneMove(env, prog, D(), Pass(f));
        past := past.(passed := past.passed + iset{f});
      }
    }

    /** Moves the cursor past a function; the source does this when it reads the function. */
    method Advance()
      requires Ok() && MayAdvance(prog, D())
      requires WellOwned(env, prog, L()) && prog.body(callGraph.nodes[rfIter]).Some? ==>
        callGraph.nodes[rfIter] in past.started || callGraph.nodes[rfIter] in past.skipped
      modifies this`rfIter
      ensures Ok() && Rest() && D() == old(D()).(next := old(rfIter) + 1)
    {
      hide EdgesOf, Select, PAG.Valid, CallGraph.Valid, OrderOk, ProgramOk, Bounds, Core, Consistent, Arises, Solver.Items, Known,
           FunctionIn, WellOwned, OrderedAt;
      AdvanceKeeps(env, prog, L(), D());
      OneMove(env, prog, D(), Move.Advance);
      rfIter := rfIter + 1;
    }

    lemma QueueIsNodes()
      requires Valid()
      ensures callGraph.reachFuncs == callGraph.nodes && Distinct(callGraph.nodes)
    {
    }

    /** Takes the next function from the queue. */
    method ProcessNextFunc()
      requires Ok() && Rest() && rfIter < |callGraph.nodes|
      modifies this`rfIter, this`processedFuncs, this`specialFunctions, this`interProcEdges, this`reported,
               this`specialCalls, this`past
      modifies pag, callGraph, assoc
      ensures Ok() && Rest() && Grown(old(D()), D())
      ensures Unseen(prog, bound, D()) < Unseen(prog, bound, old(D()))
    {
      hide EdgesOf, Select, PAG.Valid, CallGraph.Valid, OrderOk, ProgramOk, Bounds, Core, Consistent, Arises, Solver.Items, Known,
           FunctionIn, Reached, Unseen, WellOwned, OrderedAt;
      ghost var before := D();
      QueueIsNodes();
      var f := callGraph.reachFuncs[rfIter];
      NodeIsReached(env, prog, L(), before, f);
      ReachedIsBounded(prog, L(), bound, f);
      ProcessFunction(f);
      Advance();
      QueueIsNodes();
      SeenOneMore(prog, bound, callGraph.nodes, before, D());
    }

    /** Adds every function that has been reached and not yet been looked at. */
    method ProcessReachFuncs()
      requires Ok() && Rest()
      modifies this`rfIter, this`processedFuncs, this`specialFunctions, this`interProcEdges, this`reported,
               this`specialCalls, this`past
      modifies pag, callGraph, assoc
      ensures Ok() && Rest() && Grown(old(D()), D()) && rfIter == |callGraph.nodes|
    {
      hide EdgesOf, Select, PAG.Valid, OrderOk, ProgramOk, Bounds, Core, Consistent, Arises, Solver.Items, Known, Unseen, D, Rest;
      while rfIter < |callGraph.reachFuncs|
        invariant Ok() && Rest() && Grown(old(D()), D())
        decreases Unseen(prog, bound, D())
      {
        ProcessNextFunc();
      }
    }

    // ----- the analysis

    /** Enters the entry function and everything that it reaches without the solver. */
    method Initialize()
      requires Valid() && D() == Initial()
      modifies this`rfIter, this`processedFuncs, this`specialFunctions, this`interProcEdges, this`reported,
               this`specialCalls, this`past
      modifies pag, callGraph, assoc
      ensures Ok() && Rest() && rfIter == |callGraph.nodes| && newCalls == [] && newInstances == []
    {
      hide EdgesOf, Select, PAG.Valid, OrderOk, ProgramOk, Bounds, Core, Consistent, Arises, Between, Solver.Items, Known;
      ghost var d := D();
      callGraph.AddNode(prog.entry);
      assert D() == d.(nodes := [prog.entry]);
      StartIsConsistent(env, prog, L());
      StartArises(env, prog);
      ProcessReachFuncs();
    }

    /** Runs the solver over what the queues hold. */
    method RunSolver()
      requires Ok() && newCalls == [] && newInstances == []
      modifies this`addrEdgeIter, this`interProcIter, this`clock, this`newCalls, this`newInstances, ptData, pag,
               assoc`fnptrSites
      ensures Valid() && Snap().worklist == []
      ensures exists k :: Snap() == Solver.Turns(env, Solver.InitConstraints(env, old(Snap())), k)
    {
      hide EdgesOf, PAG.Valid, CallGraph.Valid, OrderOk, ProgramOk, Bounds, Core, Consistent, Arises, Solver.Items, Known, Select,
           Ready, Least, Solver.InitConstraints, Solver.Turns, NoSelfFeed, AllDone, Stray;
      ghost var s := Snap();
      var propagator := new Propagator.Propagator(env, pag, ptData, assoc, interProcEdges, addrEdgeIter, interProcIter,
                                                  reported, specialCalls, clock);
      assert propagator.Snap() == s;
      MayStart(env, prog, L(), D(), bound);
      propagator.SolveWorklist(bound, past.done);
      addrEdgeIter, interProcIter, clock := propagator.addrCursor, propagator.interCursor, propagator.clock;
      newCalls, newInstances := propagator.newCalls, propagator.newInstances;
      assert Snap() == propagator.Snap();
    }

    /** One run of the solver, and what it means for the driver. */
    method Solve()
      requires Ok() && Rest() && rfIter == |callGraph.nodes|
      requires newCalls == [] && newInstances == []
      modifies this`addrEdgeIter, this`interProcIter, this`clock, this`newCalls, this`newInstances, this`past, ptData,
               pag, assoc`fnptrSites
      ensures Ok() && Rest() && Solver.Items(old(D()).s) <= Solver.Items(D().s)
      ensures exists k :: D() == AfterRun(env, old(D()), k)
      ensures Snap().addrQueue == [] && Snap().interQueue == []
      ensures newCalls != [] || newInstances != [] ==> FoundNew(old(Snap()), Snap())
    {
      hide Idle, EdgesOf, PAG.Valid, CallGraph.Valid, OrderOk, ProgramOk, Bounds, Core, Consistent, Arises, Between, Solver.Items, Known,
           Select, Solver.InitConstraints, Solver.Turns, FoundNew, Stray, DoneAfterRun, Settled;
      ghost var d := D();
      RunSolver();
      ghost var k :| Snap() == Solver.Turns(env, Solver.InitConstraints(env, d.s), k);
      past := AfterRun(env, d, k).past;
      assert D() == AfterRun(env, d, k);
      BetweenIsIdle(env, prog, L(), d);
      RunArises(env, prog, d, k);
      RoundKeeps(env, prog, L(), d, k);
    }

    /** Adds the calls that the solver made, and the functions that they reach. */
    method ProcessNewCalls()
      requires Ok() && Rest() && rfIter == |callGraph.nodes|
      modifies this`newCalls, this`newInstances
      modifies this`rfIter, this`processedFuncs, this`specialFunctions, this`interProcEdges, this`reported,
               this`specialCalls, this`past
      modifies pag, callGraph, assoc
      ensures Ok() && Rest() && newCalls == [] && newInstances == [] && rfIter == |callGraph.nodes|
      ensures Solver.Items(old(D()).s) <= Solver.Items(D().s)
      ensures forall c :: c in old(newCalls) || c in old(newInstances) ==> c in reported
    {
      hide Idle, EdgesOf, Select, PAG.Valid, CallGraph.Valid, OrderOk, ProgramOk, Bounds, Core, Consistent, Arises, Solver.Items, Known,
           Between, CallMayBeAdded;
      AddNewCalls(newCalls);
      ProcessReachFuncs();
      AddNewCalls(newInstances);
      ProcessReachFuncs();
      DropKeeps(env, prog, L(), D());
      BetweenIsIdle(env, prog, L(), D());
      DropArises(env, prog, D());
      newCalls, newInstances := [], [];
    }

    method AddNewCalls(calls: seq<Call>)
      requires Ok() && Rest() && rfIter == |callGraph.nodes|
      requires forall c :: c in calls ==> c in newCalls || c in newInstances
      modifies this`interProcEdges, this`reported, this`past, pag, callGraph
      ensures Ok() && Rest() && Grown(old(D()), D())
      ensures forall c :: c in calls ==> c in reported
    {
      hide EdgesOf, Select, PAG.Valid, CallGraph.Valid, OrderOk, ProgramOk, Bounds, Core, Consistent, Arises, Solver.Items, Known,
           Between, CallMayBeAdded;
      ghost var d := D();
      ListsMayBeAdded(env, prog, L(), d);
      BetweenIsIdle(env, prog, L(), d);
      AddCalls(calls);
      BetweenKept(env, prog, L(), d, D());
    }

    /** Runs the solver and adds what it finds until it makes no further call. */
    method Propagate()
      requires Ok() && Rest() && newCalls == [] && newInstances == [] && rfIter == |callGraph.nodes|
      modifies this, ptData, pag, callGraph, assoc
      ensures Ok() && Rest() && AtExit(D())
      ensures Solver.Items(old(D()).s) <= Solver.Items(D().s)
    {
      hide EdgesOf, Select, PAG.Valid, CallGraph.Valid, OrderOk, ProgramOk, Bounds, Core, Consistent, Arises, Between, Solver.Items,
           Known, Missing, FoundNew;
      while true
        invariant Ok() && Rest() && newCalls == [] && newInstances == [] && rfIter == |callGraph.nodes|
        invariant Solver.Items(old(D()).s) <= Solver.Items(D().s)
        decreases Missing(Snap(), bound)
      {
        ghost var s := Snap();
        Solve();
        if newCalls == [] && newInstances == [] {
          break;
        }
        ghost var t := Snap();
        ProcessNewCalls();
        RoundProgress(env, prog, L(), s, t, D(), bound);
      }
    }
  }

  /** A finite set of items. */
  ghost function Items(bound: set<Item>): iset<Item>
  {
    iset i: Item | i in bound
  }

  /** The whole analysis. It stops for every program with a finite set from which no step leads out. Then
      - its state and history arise from the start by possible moves of the driver, and nothing waits;
      - points-to data, call graph and reached functions agree, and all facts have been propagated;
      - what is found lies below the least joint fixpoint of the functions entered and the calls wired, with what
        strayed; of the calls with one base site and callee at most one was wired, and a call was passed over only
        if another one was wired or special;
      - it is the least joint fixpoint of what was not passed over exactly when the facts that were never sent on
        have their consequences, and that of everything but the special functions passed over exactly when the
        rest of what was passed over is there anyway;
      - as long as no node feeds itself in what is found, only facts passed over when an edge or a call site was
        added remain unsent, so that the first holds exactly when these have their consequences, and holds when
        there are none; in well-owned programs there are none, and then both hold;
      - what strayed was carried by edges from queued paths that are neither direct nor offsets; nothing strays when
        the program has no such edge, or none that lets anything pass;
      - a function is passed over because of its edges exactly when one entered before it involves it, and otherwise
        as special exactly when one entered before it made it special; when no function is reached both specially
        and otherwise, a complete result is the least joint fixpoint without the special functions, in whatever
        order functions were taken. */
  method Analyze(env: Env, prog: Program, ghost bound: set<Item>) returns (pta: AndersenPTA)
    requires OrderOk(env) && ProgramOk(prog) && Bounds(env, prog, Items(bound))
    ensures pta.Valid() && pta.Ok() && pta.env == env && pta.prog == prog && pta.bound == bound
    ensures Arises(env, prog, pta.D()) && AtExit(pta.D())
    ensures forall v, o :: o in Solver.Get(pta.ptData.propaPts, v) <==> Pts(v, o) in Solver.Items(pta.Snap())
    ensures forall v :: Solver.Get(pta.ptData.diffPts, v) == {}
    ensures forall f :: f in pta.callGraph.nodes <==> Reached(prog, Solver.Items(pta.Snap()), f)
    ensures forall site, f :: (site, f) in pta.callGraph.CallEdges() <==>
      exists c :: (Called(c) in Solver.Items(pta.Snap()) || Special(c) in Solver.Items(pta.Snap()))
        && site == BaseSite(c.site.func, c.site.location) && f == c.callee
    ensures Solver.Items(pta.Snap()) <= Known(env, prog, pta.past) && WiredOnce(pta.past.wired)
    ensures forall c :: c in PassedCalls(pta.D()) ==> Rivalled(pta.Snap(), pta.past.wired, c)
    ensures Solver.Items(pta.Snap()) == JointLeast(env, prog, NotPassedOver(pta.D()), pta.past.stray) <==>
      UnsentServed(env, pta.D())
    ensures Solver.Items(pta.Snap()) == JointLeast(env, prog, NotSkipped(pta.D()), pta.past.stray) <==>
      UnsentServed(env, pta.D()) && PassedFound(prog, pta.D())
    ensures NoSelfFeed(Solver.Items(pta.Snap())) ==>
      (Solver.Items(pta.Snap()) == JointLeast(env, prog, NotPassedOver(pta.D()), pta.past.stray) <==> LateServed(env, pta.D()))
    ensures NoSelfFeed(Solver.Items(pta.Snap())) && pta.past.late == {} ==>
      Solver.Items(pta.Snap()) == JointLeast(env, prog, NotPassedOver(pta.D()), pta.past.stray)
    ensures WellOwned(env, prog, Items(bound)) ==> pta.past.late == {} && PassedFound(prog, pta.D())
    ensures WellOwned(env, prog, Items(bound)) && NoSelfFeed(Solver.Items(pta.Snap())) ==>
      Solver.Items(pta.Snap()) == JointLeast(env, prog, NotSkipped(pta.D()), pta.past.stray)
    ensures StrayOk(env, Solver.Items(pta.Snap()), pta.past.stray)
    ensures QueueSafe(env, prog) ==> pta.past.stray == iset{}
    ensures Ordered(prog, pta.callGraph.nodes, |pta.callGraph.nodes|, pta.past)
    ensures forall g :: g in pta.specialFunctions <==>
      exists f :: f in pta.past.entered && CallsSpecially(prog, f, g)
    ensures prog.entry !in pta.past.skipped && pta.past.skipped <= Specials(env, prog, pta.past.stray)
    ensures PlainProgram(prog) ==> NoSelfFeed(Solver.Items(pta.Snap()))
    ensures (UnsentServed(env, pta.D()) && PassedFound(prog, pta.D())
             && NeverPlain(env, prog, Specials(env, prog, pta.past.stray), pta.past.stray)) ==>
      Solver.Items(pta.Snap()) == JointLeast(env, prog, AllBut(Specials(env, prog, pta.past.stray), iset{}), pta.past.stray)
  {
    hide Arises, LateServed, PlainProgram, OrderOk, ProgramOk, Bounds, Solver.Items, JointLeast, WellOwned, NoSelfFeed,
         Reached, Consistent, Between, EdgesOf, Select, PAG.Valid, CallGraph.Valid, Known, QueueSafe, UnsentServed, PassedFound, MarksOk, Ordered,
         NeverPlain, Specials;
    pta := new AndersenPTA(env, prog, bound);
    pta.Initialize();
    pta.Propagate();
    ghost var d := pta.D();
    FactsAreItems(d.s);
    ConsistentIsCore(env, prog, Items(bound), d);
    ExitAccount(env, prog, d);
    ExitCalls(env, prog, d);
    EdgesAreCalls(pta);
    SpecialsAreMarked(prog, pta.specialFunctions, pta.past.entered);
    ExitExactly(env, prog, d);
    SkippedAreSpecial(env, prog, d);
    if PlainProgram(prog) {
      PlainProgramSuffices(env, prog, d);
    }
    if NoSelfFeed(Solver.Items(d.s)) {
      ExitWithoutSelfFeed(env, prog, d);
    }
    if WellOwned(env, prog, Items(bound)) {
      WellOwnedExit(env, prog, Items(bound), d);
    }
    if UnsentServed(env, d) && PassedFound(prog, d)
      && NeverPlain(env, prog, Specials(env, prog, d.past.stray), d.past.stray) {
      OrderDoesNotMatter(env, prog, d);
    }
  }

  lemma FactsAreItems(s: State)
    ensures forall v, o :: o in Solver.PtsOf(s, v) <==> Pts(v, o) in Solver.Items(s)
  {
  }

  lemma EdgesAreCalls(pta: AndersenPTA)
    requires pta.Valid()
    requires forall k :: k in pta.D().calls <==> exists c :: InCallGraph(Solver.Items(pta.Snap()), c) && KeyOf(c) == k
    ensures forall site, f :: (site, f) in pta.callGraph.CallEdges() <==>
      exists c :: (Called(c) in Solver.Items(pta.Snap()) || Special(c) in Solver.Items(pta.Snap()))
        && site == BaseSite(c.site.func, c.site.location) && f == c.callee
  {
    hide Solver.Items, PAG.Valid, EdgesOf, Select, CallGraph.Valid;
    forall site, f ensures (site, f) in pta.callGraph.CallEdges() <==>
      exists c :: (Called(c) in Solver.Items(pta.Snap()) || Special(c) in Solver.Items(pta.Snap()))
        && site == BaseSite(c.site.func, c.site.location) && f == c.callee
    {
      forall c | Called(c) in Solver.Items(pta.Snap()) || Special(c) in Solver.Items(pta.Snap()) ensures KeyOf(c) in pta.D().calls {
        assert InCallGraph(Solver.Items(pta.Snap()), c);
      }
      if (site, f) in pta.D().calls {
        var c :| InCallGraph(Solver.Items(pta.Snap()), c) && KeyOf(c) == (site, f);
        assert Called(c) in Solver.Items(pta.Snap()) || Special(c) in Solver.Items(pta.Snap());
      }
    }
  }

  lemma SpecialsAreMarked(prog: Program, special: set<FuncId>, entered: iset<FuncId>)
    requires MarksOk(prog, special, entered)
    ensures forall g :: g in special <==>
      exists f :: f in entered && CallsSpecially(prog, f, g)
  {
    forall f, g ensures g in Marks(prog, f) <==> CallsSpecially(prog, f, g) {
    }
  }

  lemma ConsistentIsCore(env: Env, prog: Program, L: iset<Item>, d: Drive)
    requires Consistent(env, prog, L, d)
    ensures Core(env, prog, d)
  {
    hide Core;
  }

  lemma BroughtIsInvolved(prog: Program, L: iset<Item>, root: FuncId, f: FuncId)
    requires Brings(prog, L, root, f)
    ensures Involves(prog, root, f)
  {
  }

  lemma BodyGrows(Y: iset<Item>, X: iset<Item>, b: Body)
    requires X <= Y && BodyIn(X, b)
    ensures BodyIn(Y, b)
  {
  }

  lemma NotEnteredYet(env: Env, prog: Program, L: iset<Item>, d: Drive)
    requires Consistent(env, prog, L, d) && Between(env, prog, L, d) && d.next < |d.nodes|
    ensures d.nodes[d.next] !in d.past.entered && DealtWith(d.nodes, d.next, d.past) && d.past.started <= d.processed
  {
    hide Solver.Items, Ready, NoSelfFeed, WellOwned, Known, WiresOk, FunctionsOk, HistoryOk, Reached, ReachedPlainly,
         QueueSafe, Tidy;
  }

  /** What a cursor still has to read after an edge has been added, queued or not. */
  lemma QueueGrows(before: seq<Edge>, after: seq<Edge>, ids: seq<EdgeId>, at: nat, id: EdgeId, e: Edge)
    requires after == before + [e] && id == |before| && at <= |ids| && InRange(|before|, ids)
    ensures InRange(|before|, ids[at..]) && InRange(|after|, ids[at..]) && InRange(|after|, (ids + [id])[at..])
    ensures InRange(|after|, ids + [id])
    ensures Select(after, ids[at..]) == Select(before, ids[at..])
    ensures Select(after, (ids + [id])[at..]) == Select(before, ids[at..]) + [e]
  {
  }

  lemma AddIntersUnfolds(s: State, e: Edge, es: seq<Edge>)
    ensures AddInters(s, [e] + es) == AddInters(AddInter(s, e), es)
  {
  }

  lemma ReportedAreItems(s: State)
    ensures forall c :: c in s.reported ==> Called(c) in Solver.Items(s)
  {
  }
}
