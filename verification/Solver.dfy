/** The constraint solver (src/pta/propagator/propagator.rs over src/pts_set/pt_data.rs and
    src/graph/pag.rs) as functions from states to states. The classes in Propagator.dfy refine them. */
module Solver {
  import opened Options
  import opened Paths
  import opened Constraints

  type PtsMap = map<Path, set<Path>>
  type SiteMap = map<Path, set<CallSite>>

  datatype State = State(
    /** Edges in creation order; an edge's id is its index. */
    edges: seq<Edge>,
    /** Points-to facts still to be propagated, and those already propagated. */
    diff: PtsMap,
    propa: PtsMap,
    /** Call sites attached to the pointers that decide them. */
    dynSites: SiteMap,
    fnptrSites: SiteMap,
    fntraitSites: SiteMap,
    /** Edges pushed to the two queues and not yet read by the solver's cursors. */
    addrQueue: seq<Edge>,
    interQueue: seq<Edge>,
    /** Calls found since the solver was started, and those handed over before. */
    newCalls: seq<Call>,
    newInstances: seq<Call>,
    reported: set<Call>,
    /** Calls of specially handled functions. */
    specials: set<Call>,
    worklist: seq<Path>,
    /** The number of turns so far; hash sets may be traversed differently in different turns. */
    clock: nat)

  function Get<T(==)>(m: map<Path, set<T>>, v: Path): set<T>
  {
    if v in m then m[v] else {}
  }

  lemma GetUpdate<T>(m: map<Path, set<T>>, v: Path, x: set<T>)
    ensures forall w :: Get(m[v := x], w) == (if w == v then x else Get(m, w))
  {
    forall w ensures Get(m[v := x], w) == (if w == v then x else Get(m, w)) {
      assert w != v ==> Get(m[v := x], w) == Get(m, w);
    }
  }

  function PtsOf(s: State, v: Path): set<Path>
  {
    Get(s.diff, v) + Get(s.propa, v)
  }

  // ----- transitions

  /** Adds the objects that dst does not have yet; dst is enqueued when there is one. */
  function AddSet(s: State, dst: Path, os: set<Path>): State
  {
    var added := os - PtsOf(s, dst);
    if added == {} then s
    else s.(diff := s.diff[dst := Get(s.diff, dst) + added], worklist := s.worklist + [dst])
  }

  /** What an edge carries: the new facts of its source, or all of them. */
  function Carried(env: Env, s: State, e: Edge, full: bool): set<Path>
  {
    set o | o in (if full then PtsOf(s, e.src) else Get(s.diff, e.src)) && env.pass(e.src, e.dst, o)
  }

  function Propagate(env: Env, s: State, e: Edge, full: bool): State
  {
    AddSet(s, e.dst, Carried(env, s, e, full))
  }

  function SendAll(env: Env, s: State, es: seq<Edge>): State
    decreases |es|
  {
    if es == [] then s else SendAll(env, Propagate(env, s, es[0], false), es[1..])
  }

  /** Adds a direct edge found through a load or a store and sends everything along it, once. */
  function Induce(env: Env, s: State, e: Edge): State
  {
    if e in s.edges then s else Propagate(env, s.(edges := s.edges + [e]), e, true)
  }

  function InduceAll(env: Env, s: State, es: seq<Edge>): State
    decreases |es|
  {
    if es == [] then s else InduceAll(env, Induce(env, s, es[0]), es[1..])
  }

  /** The edges that a load or a store edge asks for, one for each object of its base. */
  function Induced(e: Edge, o: Path): Edge
    requires e.kind.Load? || e.kind.Store?
  {
    if e.kind.Load? then Edge(AppendProjection(o, e.kind.proj), e.dst, Direct)
    else Edge(e.src, AppendProjection(o, e.kind.proj), Direct)
  }

  function InducedBy(e: Edge, os: seq<Path>): seq<Edge>
    requires e.kind.Load? || e.kind.Store?
  {
    if os == [] then [] else [Induced(e, os[0])] + InducedBy(e, os[1..])
  }

  function AllInduced(es: seq<Edge>, os: seq<Path>): seq<Edge>
    requires forall e :: e in es ==> e.kind.Load? || e.kind.Store?
  {
    if es == [] then [] else InducedBy(es[0], os) + AllInduced(es[1..], os)
  }

  function AppendAll(os: set<Path>, proj: Projection): set<Path>
  {
    set o | o in os :: AppendProjection(o, proj)
  }

  function GepAll(s: State, es: seq<Edge>, os: set<Path>): State
    requires forall e :: e in es ==> e.kind.Gep?
    decreases |es|
  {
    if es == [] then s else GepAll(AddSet(s, es[0].dst, AppendAll(os, es[0].kind.proj)), es[1..], os)
  }

  /** The edge index that a handler reads. */
  datatype Index = DirectOut | LoadOut | StoreIn | GepOut | OffsetOut

  predicate Indexed(i: Index, n: Path, e: Edge)
  {
    match i
    case DirectOut => e.kind.Direct? && e.src == n
    case LoadOut => e.kind.Load? && e.src == n
    case StoreIn => e.kind.Store? && e.dst == n
    case GepOut => e.kind.Gep? && e.src == n
    case OffsetOut => e.kind.Offset? && e.src == n
  }

  /** The edges of one index entry in ascending id order. */
  function Pick(es: seq<Edge>, i: Index, n: Path): (r: seq<Edge>)
    ensures forall e :: e in r <==> e in es && Indexed(i, n, e)
  {
    if es == [] then []
    else
      var rest := Pick(es[..|es| - 1], i, n);
      var e := es[|es| - 1];
      assert es == es[..|es| - 1] + [e];
      if Indexed(i, n, e) then rest + [e] else rest
  }

  lemma {:induction false} PickNone(es: seq<Edge>, i: Index, n: Path)
    requires forall e :: e in es ==> !Indexed(i, n, e)
    ensures Pick(es, i, n) == []
  {
    if es != [] {
      PickNone(es[..|es| - 1], i, n);
    }
  }

  lemma {:induction false} PickOne(es: seq<Edge>, i: Index, n: Path, k: nat)
    requires k < |es| && Indexed(i, n, es[k])
    requires forall j :: 0 <= j < |es| && j != k ==> !Indexed(i, n, es[j])
    ensures Pick(es, i, n) == [es[k]]
  {
    if k == |es| - 1 {
      PickNone(es[..k], i, n);
    } else {
      PickOne(es[..|es| - 1], i, n, k);
    }
  }

  function HandleDirect(env: Env, s: State, n: Path): State
  {
    SendAll(env, s, Pick(s.edges, DirectOut, n))
  }

  function HandleLoads(env: Env, s: State, n: Path, os: seq<Path>): State
  {
    InduceAll(env, s, AllInduced(Pick(s.edges, LoadOut, n), os))
  }

  function HandleStores(env: Env, s: State, n: Path, os: seq<Path>): State
  {
    InduceAll(env, s, AllInduced(Pick(s.edges, StoreIn, n), os))
  }

  function HandleLoadAndStore(env: Env, s: State, n: Path): State
  {
    var os := env.order(s.clock, n, Get(s.diff, n));
    HandleStores(env, HandleLoads(env, s, n, os), n, os)
  }

  function HandleGep(s: State, n: Path): State
  {
    GepAll(s, Pick(s.edges, GepOut, n), Get(s.diff, n))
  }

  function HandleOffset(env: Env, s: State, n: Path): State
  {
    SendAll(env, s, Pick(s.edges, OffsetOut, n))
  }

  /** The calls that a set of sites makes on one object. */
  function CallsOn(target: (CallSite, Path) -> Option<Call>, sites: seq<CallSite>, o: Path): seq<Call>
  {
    if sites == [] then []
    else
      var rest := CallsOn(target, sites[1..], o);
      match target(sites[0], o)
      case Some(call) => [call] + rest
      case None => rest
  }

  function CallsFor(target: (CallSite, Path) -> Option<Call>, sites: seq<CallSite>, os: seq<Path>): seq<Call>
  {
    if os == [] then [] else CallsOn(target, sites, os[0]) + CallsFor(target, sites, os[1..])
  }

  function HandleDynamic(env: Env, s: State, n: Path): State
  {
    s.(newInstances := s.newInstances +
       CallsFor(env.dynTarget, env.siteOrder(s.clock, DynSite, n, Get(s.dynSites, n)), env.order(s.clock, n, Get(s.diff, n))))
  }

  function HandleFnptr(env: Env, s: State, n: Path): State
  {
    s.(newCalls := s.newCalls +
       CallsFor(env.fnTarget, env.siteOrder(s.clock, FnPtrSite, n, Get(s.fnptrSites, n)), env.order(s.clock, n, Get(s.diff, n))))
  }

  /** One object of a `dyn Fn*` pointer at one of its call sites. A function pointer becomes a pointer
      with a call site of its own, which is resolved at once with all that it points to so far. */
  function TraitStep(env: Env, s: State, c: CallSite, o: Path): State
  {
    match env.traitTarget(c, o)
    case Resolved(call) => s.(newCalls := s.newCalls + [call])
    case ResolvedInstance(call) => s.(newInstances := s.newInstances + [call])
    case FnPtrObject(f) => AttachFnptr(env, s, f, o)
    case Unresolved => s
  }

  function AttachFnptr(env: Env, s: State, f: CallSite, o: Path): State
  {
    s.(newCalls := s.newCalls + (CallsFor(env.fnTarget, [f], env.order(s.clock, o, Get(s.propa, o)))
         + CallsFor(env.fnTarget, [f], env.order(s.clock, o, Get(s.diff, o)))),
       fnptrSites := s.fnptrSites[o := Get(s.fnptrSites, o) + {f}])
  }

  function TraitOn(env: Env, s: State, sites: seq<CallSite>, o: Path): State
    decreases |sites|
  {
    if sites == [] then s else TraitOn(env, TraitStep(env, s, sites[0], o), sites[1..], o)
  }

  function TraitAll(env: Env, s: State, sites: seq<CallSite>, os: seq<Path>): State
    decreases |os|
  {
    if os == [] then s else TraitAll(env, TraitOn(env, s, sites, os[0]), sites, os[1..])
  }

  function HandleFntrait(env: Env, s: State, n: Path): State
  {
    TraitAll(env, s, env.siteOrder(s.clock, FnTraitSite, n, Get(s.fntraitSites, n)), env.order(s.clock, n, Get(s.diff, n)))
  }

  /** All facts of n become propagated facts. */
  function Flush(s: State, n: Path): State
  {
    if n !in s.diff then s
    else s.(propa := s.propa[n := Get(s.propa, n) + s.diff[n]], diff := s.diff[n := {}])
  }

  /** The handlers of one node, before the flush. */
  function Handle(env: Env, s: State, n: Path): State
  {
    var s1 := HandleDirect(env, s, n);
    var s2 := HandleLoadAndStore(env, s1, n);
    var s3 := HandleGep(s2, n);
    var s4 := HandleOffset(env, s3, n);
    var s5 := HandleDynamic(env, s4, n);
    var s6 := HandleFnptr(env, s5, n);
    HandleFntrait(env, s6, n)
  }

  function ProcessNode(env: Env, s: State, n: Path): State
  {
    Flush(Handle(env, s, n), n)
  }

  function ProcessAddrs(s: State, es: seq<Edge>): State
    decreases |es|
  {
    if es == [] then s else ProcessAddrs(AddSet(s, es[0].dst, {es[0].src}), es[1..])
  }

  function ProcessInters(env: Env, s: State, es: seq<Edge>): State
    decreases |es|
  {
    if es == [] then s else ProcessInters(env, Propagate(env, s, es[0], true), es[1..])
  }

  /** Activates the queued edges. */
  function InitConstraints(env: Env, s: State): State
  {
    var s1 := ProcessAddrs(s, s.addrQueue).(addrQueue := []);
    ProcessInters(env, s1, s1.interQueue).(interQueue := [])
  }

  /** One turn of the worklist loop. */
  function Turn(env: Env, s: State): State
  {
    if s.worklist == [] then s
    else ProcessNode(env, Popped(s), s.worklist[0])
  }

  /** The state after the first node has been taken from the worklist. */
  function Popped(s: State): State
    requires s.worklist != []
  {
    s.(worklist := s.worklist[1..], clock := s.clock + 1)
  }

  /** The state after k turns. */
  function Turns(env: Env, s: State, k: nat): State
    decreases k
  {
    if k == 0 then s else Turns(env, Turn(env, s), k - 1)
  }

  // ----- what a state says

  predicate InCalls(s: State, c: Call)
  {
    c in s.newCalls || c in s.newInstances || c in s.reported
  }

  function SitesOf(s: State, k: SiteKind, v: Path): set<CallSite>
  {
    match k
    case DynSite => Get(s.dynSites, v)
    case FnPtrSite => Get(s.fnptrSites, v)
    case FnTraitSite => Get(s.fntraitSites, v)
  }

  predicate Says(s: State, i: Item)
  {
    match i
    case Pts(v, o) => o in PtsOf(s, v)
    case Arc(e) => e in s.edges
    case Site(k, v, c) => c in SitesOf(s, k, v)
    case Called(c) => InCalls(s, c)
    case Special(c) => c in s.specials
  }

  ghost function Items(s: State): iset<Item>
  {
    iset i: Item | Says(s, i)
  }

  /** Propagated and unpropagated facts are disjoint. */
  ghost predicate Disjoint(s: State)
  {
    forall v :: Get(s.diff, v) !! Get(s.propa, v)
  }

  /** Every node with unpropagated facts, apart from the given ones, waits on the worklist. */
  ghost predicate Pending(s: State, apart: set<Path>)
  {
    forall v :: Get(s.diff, v) != {} && v !in apart ==> v in s.worklist
  }
}
