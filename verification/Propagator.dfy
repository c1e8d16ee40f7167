/** The propagator (src/pta/propagator/propagator.rs) as an object that updates points-to data, graph,
    call lists and worklist in place. Each method is proved to do to the object what the corresponding
    function of Solver.dfy does to its state. */
module Propagator {
  import opened Paths
  import opened Constraints
  import Solver
  import opened SolverTheorems
  import opened PtData
  import opened Pag

  type State = Solver.State
  type SiteMap = Solver.SiteMap

  /** Call sites by the pointer that decides them (src/mir/call_site.rs). */
  class AssocCallGroup {
    var dynSites: SiteMap
    var fnptrSites: SiteMap
    var fntraitSites: SiteMap

    constructor ()
      ensures dynSites == map[] && fnptrSites == map[] && fntraitSites == map[]
    {
      dynSites, fnptrSites, fntraitSites := map[], map[], map[];
    }

    method AddDynamicDispatchCall(v: Path, c: CallSite)
      modifies this`dynSites
      ensures dynSites == old(dynSites)[v := Solver.Get(old(dynSites), v) + {c}]
    {
      dynSites := dynSites[v := Solver.Get(dynSites, v) + {c}];
    }

    method AddDynamicFntraitCall(v: Path, c: CallSite)
      modifies this`fntraitSites
      ensures fntraitSites == old(fntraitSites)[v := Solver.Get(old(fntraitSites), v) + {c}]
    {
      fntraitSites := fntraitSites[v := Solver.Get(fntraitSites, v) + {c}];
    }

    method AddFnptrCall(v: Path, c: CallSite)
      modifies this`fnptrSites
      ensures fnptrSites == old(fnptrSites)[v := Solver.Get(old(fnptrSites), v) + {c}]
    {
      fnptrSites := fnptrSites[v := Solver.Get(fnptrSites, v) + {c}];
    }
  }

  /** The diff map after dst gained some objects. */
  function Gained(diff: Solver.PtsMap, dst: Path, gained: set<Path>): Solver.PtsMap
  {
    if gained == {} then diff else diff[dst := Solver.Get(diff, dst) + gained]
  }

  lemma GainedTwice(diff: Solver.PtsMap, dst: Path, a: set<Path>, b: set<Path>)
    ensures Gained(Gained(diff, dst, a), dst, b) == Gained(diff, dst, a + b)
  {
    if a != {} && b != {} {
      assert Solver.Get(diff, dst) + a + b == Solver.Get(diff, dst) + (a + b);
    }
    assert a == {} ==> a + b == b;
    assert b == {} ==> a + b == a;
  }

  lemma SetsJoin(a: set<Path>, b: set<Path>, known: set<Path>)
    ensures (a + b) - known == (a - known) + (b - (known + a))
    ensures a + b <= known <==> a <= known && b <= known + a
  {
  }

  /** Adding one more object to those gained so far. */
  lemma GainOne(before: Solver.PtsMap, dst: Path, known: set<Path>, sent: set<Path>, o: Path)
    ensures var now := Gained(before, dst, sent - known);
      Gained(before, dst, (sent + {o}) - known)
        == if o in known + sent then now else now[dst := Solver.Get(now, dst) + {o}]
    ensures !(sent + {o} <= known) <==> !(sent <= known) || o !in known + sent
  {
    GainedTwice(before, dst, sent - known, if o in known + sent then {} else {o});
    SetsJoin(sent, {o}, known);
    if o in known + sent {
      assert {o} - (known + sent) == {};
    } else {
      assert {o} - (known + sent) == {o};
    }
  }

  lemma AddSetIsGain(s: State, dst: Path, os: set<Path>)
    ensures Solver.AddSet(s, dst, os) == s.(diff := Gained(s.diff, dst, os - Solver.PtsOf(s, dst)),
              worklist := if os <= Solver.PtsOf(s, dst) then s.worklist else s.worklist + [dst])
  {
    NothingMissing(os, Solver.PtsOf(s, dst));
  }

  lemma NothingMissing(os: set<Path>, known: set<Path>)
    ensures os <= known <==> os - known == {}
  {
    if os - known == {} {
      forall x | x in os ensures x in known {
        assert x in known || x in os - known;
      }
    }
  }

  /** Gaining what passes from two sets is gaining what passes from their union. */
  lemma GainBoth(before: Solver.PtsMap, dst: Path, known: set<Path>, a: set<Path>, b: set<Path>)
    ensures Gained(Gained(before, dst, a - known), dst, b - (known + a)) == Gained(before, dst, (a + b) - known)
    ensures !(a + b <= known) <==> !(a <= known) || !(b <= known + a)
  {
    GainedTwice(before, dst, a - known, b - (known + a));
    SetsJoin(a, b, known);
  }

  /** The objects of a list that pass along an edge. */
  ghost function Passing(env: Env, e: Edge, os: seq<Path>): (r: set<Path>)
    ensures forall o :: o in r <==> o in os && env.pass(e.src, e.dst, o)
  {
    set o | o in os && env.pass(e.src, e.dst, o)
  }

  lemma PassingOneMore(env: Env, e: Edge, os: seq<Path>, o: Path)
    ensures Passing(env, e, os + [o]) == Passing(env, e, os) + (if env.pass(e.src, e.dst, o) then {o} else {})
  {
  }

  ghost function PartsOf(os: seq<Path>, proj: Projection): set<Path>
  {
    set o | o in os :: AppendProjection(o, proj)
  }

  lemma PartsOneMore(os: seq<Path>, o: Path, proj: Projection)
    ensures PartsOf(os + [o], proj) == PartsOf(os, proj) + {AppendProjection(o, proj)}
  {
  }

  lemma NoParts(proj: Projection)
    ensures PartsOf([], proj) == {}
  {
  }

  lemma PartsAreAppended(env: Env, os: set<Path>, proj: Projection)
    requires OrderOk(env)
    ensures forall t: nat, v: Path :: PartsOf(env.order(t, v, os), proj) == Solver.AppendAll(os, proj)
  {
  }

  lemma NothingGained(diff: Solver.PtsMap, dst: Path, none: set<Path>)
    requires none == {}
    ensures Gained(diff, dst, none) == diff
  {
  }

  lemma CarriedIsPassing(env: Env, s: State, e: Edge, full: bool)
    requires OrderOk(env)
    ensures Solver.Carried(env, s, e, full) == Passing(env, e, env.order(s.clock, e.src, Solver.Get(s.diff, e.src)))
        + (if full then Passing(env, e, env.order(s.clock, e.src, Solver.Get(s.propa, e.src))) else {})
  {
  }

  class Propagator {
    const env: Env
    const pag: PAG
    const ptData: DiffPTData
    const assoc: AssocCallGroup
    /** The second queue and the positions of the two cursors (see ChunkedQueue.dfy). */
    var interQueue: seq<EdgeId>
    var addrCursor: nat
    var interCursor: nat
    var newCalls: seq<Call>
    var newInstances: seq<Call>
    ghost const reported: set<Call>
    ghost const specials: set<Call>
    var worklist: seq<Path>
    /** The number of turns, on which the traversal of hash sets depends. */
    var clock: nat

    ghost predicate Valid()
      reads this, pag
    {
      && pag.Valid() && OrderOk(env)
      && addrCursor <= |pag.addrEdgesQueue| && interCursor <= |interQueue|
      && InRange(|pag.arcs|, interQueue)
    }

    ghost function Snap(): State
      requires Valid()
      reads this, pag, ptData, assoc
    {
      Solver.State(pag.Edges(), ptData.diffPts, ptData.propaPts,
                   assoc.dynSites, assoc.fnptrSites, assoc.fntraitSites,
                   Select(pag.Edges(), pag.addrEdgesQueue[addrCursor..]),
                   Select(pag.Edges(), interQueue[interCursor..]),
                   newCalls, newInstances, reported, specials, worklist, clock)
    }

    /** A solver over the given parts; its worklist and its lists of new calls are empty. */
    constructor (env: Env, pag: PAG, ptData: DiffPTData, assoc: AssocCallGroup, interQueue: seq<EdgeId>,
                 addrCursor: nat, interCursor: nat, ghost reported: set<Call>, ghost specials: set<Call>, clock: nat)
      requires pag.Valid() && OrderOk(env) && addrCursor <= |pag.addrEdgesQueue|
      requires interCursor <= |interQueue| && InRange(|pag.arcs|, interQueue)
      ensures Valid() && this.env == env && this.pag == pag && this.ptData == ptData && this.assoc == assoc
      ensures this.interQueue == interQueue && this.addrCursor == addrCursor && this.interCursor == interCursor
      ensures this.reported == reported && this.specials == specials && this.clock == clock
      ensures newCalls == [] && newInstances == [] && worklist == []
    {
      this.env, this.pag, this.ptData, this.assoc := env, pag, ptData, assoc;
      this.interQueue, this.addrCursor, this.interCursor := interQueue, addrCursor, interCursor;
      this.reported, this.specials, this.clock := reported, specials, clock;
      newCalls, newInstances, worklist := [], [], [];
    }

    // ----- sending facts

    /** Adds the objects that pass to the target of e, one by one. */
    method SendObjects(e: Edge, os: seq<Path>) returns (changed: bool)
      modifies ptData`diffPts
      ensures var sent := Passing(env, e, os);
        && ptData.diffPts == Gained(old(ptData.diffPts), e.dst, sent - old(ptData.Pts(e.dst)))
        && ptData.Pts(e.dst) == old(ptData.Pts(e.dst)) + sent
        && (changed <==> !(sent <= old(ptData.Pts(e.dst))))
    {
      hide Passing, Gained;
      changed := false;
      ghost var before, known := ptData.diffPts, ptData.Pts(e.dst);
      ghost var sent: set<Path> := {};
      NothingGained(before, e.dst, {} - known);
      for i := 0 to |os|
        invariant sent == Passing(env, e, os[..i])
        invariant ptData.diffPts == Gained(before, e.dst, sent - known)
        invariant ptData.Pts(e.dst) == known + sent
        invariant changed <==> !(sent <= known)
      {
        assert os[..i + 1] == os[..i] + [os[i]];
        PassingOneMore(env, e, os[..i], os[i]);
        if env.pass(e.src, e.dst, os[i]) {
          GainOne(before, e.dst, known, sent, os[i]);
          var isNew := ptData.AddPts(e.dst, os[i]);
          changed := changed || isNew;
          sent := sent + {os[i]};
        }
      }
      assert os[..|os|] == os;
    }

    /** Sends the new facts of the source (all facts unless propaDiff) along an edge. */
    method Propagate(id: EdgeId, propaDiff: bool)
      requires Valid() && id < |pag.arcs|
      modifies this`worklist, ptData`diffPts
      ensures Valid()
      ensures Snap() == Solver.Propagate(env, old(Snap()), pag.Edges()[id], !propaDiff)
    {
      hide Gained, EdgesOf, Select, Passing, PAG.Valid, Solver.AddSet, Solver.Carried, OrderOk;
      var e := pag.Endpoints(id);
      ghost var s, before, known := Snap(), ptData.diffPts, ptData.Pts(e.dst);
      var diff, propa := Solver.Get(ptData.diffPts, e.src), Solver.Get(ptData.propaPts, e.src);
      var os, ps := env.order(clock, e.src, diff), env.order(clock, e.src, propa);
      ghost var first, second := Passing(env, e, os), if propaDiff then {} else Passing(env, e, ps);
      var changed := SendObjects(e, os);
      if !propaDiff {
        var more := SendObjects(e, ps);
        changed := changed || more;
      } else {
        NothingGained(ptData.diffPts, e.dst, second - (known + first));
      }
      GainBoth(before, e.dst, known, first, second);
      CarriedIsPassing(env, s, e, !propaDiff);
      AddSetIsGain(s, e.dst, first + second);
      if changed {
        worklist := worklist + [e.dst];
      }
    }

    method ProcessAddr(id: EdgeId)
      requires Valid() && id < |pag.arcs|
      modifies this`worklist, ptData`diffPts
      ensures Valid()
      ensures Snap() == Solver.AddSet(old(Snap()), pag.Edges()[id].dst, {pag.Edges()[id].src})
    {
      hide EdgesOf, Select, PAG.Valid, Solver.AddSet, OrderOk;
      var e := pag.Endpoints(id);
      AddSetIsGain(Snap(), e.dst, {e.src});
      var isNew := ptData.AddPts(e.dst, e.src);
      assert {e.src} - old(ptData.Pts(e.dst)) == if isNew then {e.src} else {};
      if isNew {
        worklist := worklist + [e.dst];
      }
    }

    /** Sends the new facts of a node along its direct or offset edges. */
    method SendAlong(index: Solver.Index, n: Path)
      requires Valid()
      modifies this`worklist, ptData`diffPts
      ensures Valid()
      ensures Snap() == Solver.SendAll(env, old(Snap()), Solver.Pick(old(Snap()).edges, index, n))
    {
      hide EdgesOf, Select, PAG.Valid, Solver.Propagate, OrderOk;
      ghost var s := Snap();
      var ids := pag.Indexed(index, n);
      ghost var es := Solver.Pick(pag.Edges(), index, n);
      for i := 0 to |ids|
        invariant Valid() && pag.Edges() == s.edges
        invariant Solver.SendAll(env, s, es) == Solver.SendAll(env, Snap(), es[i..])
      {
        assert es[i..][0] == es[i] == pag.Edges()[ids[i]] && es[i..][1..] == es[i + 1..];
        Propagate(ids[i], true);
      }
      assert es[|ids|..] == [];
    }

    method HandleDirect(n: Path)
      requires Valid()
      modifies this`worklist, ptData`diffPts
      ensures Valid() && Snap() == Solver.HandleDirect(env, old(Snap()), n)
    {
      SendAlong(Solver.DirectOut, n);
    }

    method HandleOffset(n: Path)
      requires Valid()
      modifies this`worklist, ptData`diffPts
      ensures Valid() && Snap() == Solver.HandleOffset(env, old(Snap()), n)
    {
      SendAlong(Solver.OffsetOut, n);
    }

    // ----- inducing edges

    /** Adds a direct edge unless it exists and, if it is new, sends everything along it. */
    method Induce(src: Path, dst: Path)
      requires Valid()
      modifies this`worklist, ptData`diffPts, pag
      ensures Valid() && old(|pag.arcs|) <= |pag.arcs| && old(pag.Edges()) <= pag.Edges()
      ensures Snap() == Solver.Induce(env, old(Snap()), Edge(src, dst, Direct))
    {
      hide EdgesOf, Select, PAG.Valid, Solver.Propagate, OrderOk;
      ghost var s := Snap();
      ghost var before := pag.Edges();
      pag.Ranges();
      ghost var queue := pag.addrEdgesQueue;
      var r := pag.AddEdge(src, dst, Direct);
      pag.Ranges();
      assert pag.addrEdgesQueue == queue;
      assert before == pag.Edges()[..|before|];
      SelectFromPrefix(pag.Edges(), before, pag.addrEdgesQueue[addrCursor..]);
      SelectFromPrefix(pag.Edges(), before, interQueue[interCursor..]);
      if r.Some? {
        assert Snap() == s.(edges := s.edges + [Edge(src, dst, Direct)]);
        Propagate(r.value, false);
      }
    }

    /** A load: every object of the base gives an edge from the part that is read. */
    method ProcessLoad(id: EdgeId, basePts: seq<Path>)
      requires Valid() && id < |pag.arcs| && pag.Edges()[id].kind.Load?
      modifies this`worklist, ptData`diffPts, pag
      ensures Valid() && old(|pag.arcs|) <= |pag.arcs| && old(pag.Edges()) <= pag.Edges()
      ensures Snap() == Solver.InduceAll(env, old(Snap()), Solver.InducedBy(old(pag.Edges())[id], basePts))
    {
      hide EdgesOf, Select, PAG.Valid, Solver.Induce, Solver.AddSet, OrderOk;
      ghost var s := Snap();
      var e := pag.Endpoints(id);
      for i := 0 to |basePts|
        invariant Valid() && |s.edges| <= |pag.arcs| && s.edges <= pag.Edges()
        invariant Solver.InduceAll(env, s, Solver.InducedBy(e, basePts))
          == Solver.InduceAll(env, Snap(), Solver.InducedBy(e, basePts[i..]))
      {
        assert basePts[i..][1..] == basePts[i + 1..];
        InduceUnfolds(env, Snap(), Solver.Induced(e, basePts[i]), Solver.InducedBy(e, basePts[i + 1..]));
        Induce(AppendProjection(basePts[i], e.kind.proj), e.dst);
      }
    }

    /** A store: every object of the base gives an edge to the part that is written. */
    method ProcessStore(id: EdgeId, basePts: seq<Path>)
      requires Valid() && id < |pag.arcs| && pag.Edges()[id].kind.Store?
      modifies this`worklist, ptData`diffPts, pag
      ensures Valid() && old(|pag.arcs|) <= |pag.arcs| && old(pag.Edges()) <= pag.Edges()
      ensures Snap() == Solver.InduceAll(env, old(Snap()), Solver.InducedBy(old(pag.Edges())[id], basePts))
    {
      hide EdgesOf, Select, PAG.Valid, Solver.Induce, Solver.AddSet, OrderOk;
      ghost var s := Snap();
      var e := pag.Endpoints(id);
      for i := 0 to |basePts|
        invariant Valid() && |s.edges| <= |pag.arcs| && s.edges <= pag.Edges()
        invariant Solver.InduceAll(env, s, Solver.InducedBy(e, basePts))
          == Solver.InduceAll(env, Snap(), Solver.InducedBy(e, basePts[i..]))
      {
        assert basePts[i..][1..] == basePts[i + 1..];
        InduceUnfolds(env, Snap(), Solver.Induced(e, basePts[i]), Solver.InducedBy(e, basePts[i + 1..]));
        Induce(e.src, AppendProjection(basePts[i], e.kind.proj));
      }
    }

    method HandleLoads(n: Path, diffPts: seq<Path>)
      requires Valid()
      modifies this`worklist, ptData`diffPts, pag
      ensures Valid() && Snap() == Solver.HandleLoads(env, old(Snap()), n, diffPts)
    {
      hide EdgesOf, Select, PAG.Valid, Solver.AllInduced, AllInducedFrom, Solver.InduceAll, Solver.InducedBy, OrderOk;
      ghost var s := Snap();
      var ids := pag.Indexed(Solver.LoadOut, n);
      ghost var es := Solver.Pick(s.edges, Solver.LoadOut, n);
      for i := 0 to |ids|
        invariant Valid() && s.edges <= pag.Edges() && |s.edges| <= |pag.arcs|
        invariant Solver.InduceAll(env, s, AllInducedFrom(es, 0, diffPts))
          == Solver.InduceAll(env, Snap(), AllInducedFrom(es, i, diffPts))
      {
        assert es[i] == s.edges[ids[i]] == pag.Edges()[ids[i]] && es[i] in es;
        AllInducedStep(env, Snap(), es, i, diffPts);
        ProcessLoad(ids[i], diffPts);
      }
      NoneInduced(env, s, Snap(), es, diffPts);
    }

    method HandleStores(n: Path, diffPts: seq<Path>)
      requires Valid()
      modifies this`worklist, ptData`diffPts, pag
      ensures Valid() && Snap() == Solver.HandleStores(env, old(Snap()), n, diffPts)
    {
      hide EdgesOf, Select, PAG.Valid, Solver.AllInduced, AllInducedFrom, Solver.InduceAll, Solver.InducedBy, OrderOk;
      ghost var s := Snap();
      var ids := pag.Indexed(Solver.StoreIn, n);
      ghost var es := Solver.Pick(s.edges, Solver.StoreIn, n);
      for i := 0 to |ids|
        invariant Valid() && s.edges <= pag.Edges() && |s.edges| <= |pag.arcs|
        invariant Solver.InduceAll(env, s, AllInducedFrom(es, 0, diffPts))
          == Solver.InduceAll(env, Snap(), AllInducedFrom(es, i, diffPts))
      {
        assert es[i] == s.edges[ids[i]] == pag.Edges()[ids[i]] && es[i] in es;
        AllInducedStep(env, Snap(), es, i, diffPts);
        ProcessStore(ids[i], diffPts);
      }
      NoneInduced(env, s, Snap(), es, diffPts);
    }

    method HandleLoadAndStore(n: Path)
      requires Valid()
      modifies this`worklist, ptData`diffPts, pag
      ensures Valid() && Snap() == Solver.HandleLoadAndStore(env, old(Snap()), n)
    {
      var diffPts := env.order(clock, n, Solver.Get(ptData.diffPts, n));
      HandleLoads(n, diffPts);
      HandleStores(n, diffPts);
    }

    // ----- field addresses

    method ProcessGep(id: EdgeId, basePts: set<Path>)
      requires Valid() && id < |pag.arcs| && pag.Edges()[id].kind.Gep?
      modifies this`worklist, ptData`diffPts
      ensures Valid()
      ensures Snap() == Solver.AddSet(old(Snap()), pag.Edges()[id].dst,
                          Solver.AppendAll(basePts, pag.Edges()[id].kind.proj))
    {
      hide EdgesOf, Select, PAG.Valid, Gained, Solver.AddSet, PartsOf, OrderOk, AppendProjection, Solver.AppendAll;
      var e := pag.Endpoints(id);
      var os := env.order(clock, e.src, basePts);
      var changed := false;
      ghost var s, before, known := Snap(), ptData.diffPts, ptData.Pts(e.dst);
      ghost var sent: set<Path> := {};
      NothingGained(before, e.dst, {} - known);
      NoParts(e.kind.proj);
      for i := 0 to |os|
        invariant worklist == old(worklist)
        invariant sent == PartsOf(os[..i], e.kind.proj)
        invariant ptData.diffPts == Gained(before, e.dst, sent - known)
        invariant ptData.Pts(e.dst) == known + sent
        invariant changed <==> !(sent <= known)
      {
        assert os[..i + 1] == os[..i] + [os[i]];
        PartsOneMore(os[..i], os[i], e.kind.proj);
        var part := AppendProjection(os[i], e.kind.proj);
        GainOne(before, e.dst, known, sent, part);
        var isNew := ptData.AddPts(e.dst, part);
        changed := changed || isNew;
        sent := sent + {part};
      }
      assert os[..|os|] == os;
      PartsAreAppended(env, basePts, e.kind.proj);
      assert sent == Solver.AppendAll(basePts, e.kind.proj);
      AddSetIsGain(s, e.dst, sent);
      if changed {
        worklist := worklist + [e.dst];
      }
    }

    method HandleGep(n: Path)
      requires Valid()
      modifies this`worklist, ptData`diffPts
      ensures Valid() && Snap() == Solver.HandleGep(old(Snap()), n)
    {
      hide EdgesOf, Select, PAG.Valid, Solver.Induce, Solver.AddSet, OrderOk;
      ghost var s := Snap();
      var ids := pag.Indexed(Solver.GepOut, n);
      ghost var es := Solver.Pick(s.edges, Solver.GepOut, n);
      var diffPts := Solver.Get(ptData.diffPts, n);
      for i := 0 to |ids|
        invariant Valid() && pag.Edges() == s.edges
        invariant forall e :: e in es[i..] ==> e in es
        invariant Solver.GepAll(s, es, diffPts) == Solver.GepAll(Snap(), es[i..], diffPts)
      {
        assert es[i] == pag.Edges()[ids[i]] && es[i] in es;
        assert es[i..][0] == es[i] && es[i..][1..] == es[i + 1..];
        ProcessGep(ids[i], diffPts);
      }
      assert es[|ids|..] == [];
    }

    // ----- calls

    /** Resolves every object at every call site of a trait method call. */
    method ProcessDynamicDispatchCall(sites: seq<CallSite>, objs: seq<Path>)
      modifies this`newInstances
      ensures newInstances == old(newInstances) + Solver.CallsFor(env.dynTarget, sites, objs)
    {
      hide Solver.CallsOn;
      for i := 0 to |objs|
        invariant newInstances + Solver.CallsFor(env.dynTarget, sites, objs[i..])
          == old(newInstances) + Solver.CallsFor(env.dynTarget, sites, objs)
      {
        ghost var before, rest := newInstances, Solver.CallsFor(env.dynTarget, sites, objs[i + 1..]);
        assert objs[i..][1..] == objs[i + 1..];
        ProcessDynamicDispatchObject(sites, objs[i]);
        assert newInstances + rest == before + (Solver.CallsOn(env.dynTarget, sites, objs[i]) + rest);
      }
    }

    method ProcessDynamicDispatchObject(sites: seq<CallSite>, o: Path)
      modifies this`newInstances
      ensures newInstances == old(newInstances) + Solver.CallsOn(env.dynTarget, sites, o)
    {
      for j := 0 to |sites|
        invariant newInstances + Solver.CallsOn(env.dynTarget, sites[j..], o) == old(newInstances) + Solver.CallsOn(env.dynTarget, sites, o)
      {
        assert sites[j..][1..] == sites[j + 1..];
        var target := env.dynTarget(sites[j], o);
        if target.Some? {
          newInstances := newInstances + [target.value];
        }
      }
    }

    /** Resolves every object at every function-pointer call site. */
    method ProcessFnptrCall(sites: seq<CallSite>, objs: seq<Path>)
      modifies this`newCalls
      ensures newCalls == old(newCalls) + Solver.CallsFor(env.fnTarget, sites, objs)
    {
      hide Solver.CallsOn;
      for i := 0 to |objs|
        invariant newCalls + Solver.CallsFor(env.fnTarget, sites, objs[i..])
          == old(newCalls) + Solver.CallsFor(env.fnTarget, sites, objs)
      {
        ghost var before, rest := newCalls, Solver.CallsFor(env.fnTarget, sites, objs[i + 1..]);
        assert objs[i..][1..] == objs[i + 1..];
        ProcessFnptrObject(sites, objs[i]);
        assert newCalls + rest == before + (Solver.CallsOn(env.fnTarget, sites, objs[i]) + rest);
      }
    }

    method ProcessFnptrObject(sites: seq<CallSite>, o: Path)
      modifies this`newCalls
      ensures newCalls == old(newCalls) + Solver.CallsOn(env.fnTarget, sites, o)
    {
      for j := 0 to |sites|
        invariant newCalls + Solver.CallsOn(env.fnTarget, sites[j..], o) == old(newCalls) + Solver.CallsOn(env.fnTarget, sites, o)
      {
        assert sites[j..][1..] == sites[j + 1..];
        var target := env.fnTarget(sites[j], o);
        if target.Some? {
          newCalls := newCalls + [target.value];
        }
      }
    }

    /** One object of a `dyn Fn*` pointer at one call site. */
    method ProcessDynamicFntraitCall(c: CallSite, o: Path)
      requires Valid()
      modifies this`newCalls, this`newInstances, assoc`fnptrSites
      ensures Valid() && Snap() == Solver.TraitStep(env, old(Snap()), c, o)
    {
      hide EdgesOf, Select, PAG.Valid, OrderOk, Solver.CallsFor;
      match env.traitTarget(c, o)
      case Resolved(call) => newCalls := newCalls + [call];
      case ResolvedInstance(call) => newInstances := newInstances + [call];
      case FnPtrObject(f) =>
        ghost var before := newCalls;
        var propa, diff := env.order(clock, o, Solver.Get(ptData.propaPts, o)), env.order(clock, o, Solver.Get(ptData.diffPts, o));
        ProcessFnptrCall([f], propa);
        ProcessFnptrCall([f], diff);
        assert newCalls == before + (Solver.CallsFor(env.fnTarget, [f], propa) + Solver.CallsFor(env.fnTarget, [f], diff));
        assoc.AddFnptrCall(o, f);
      case Unresolved =>
    }

    method ProcessFntraitObject(sites: seq<CallSite>, o: Path)
      requires Valid()
      modifies this`newCalls, this`newInstances, assoc`fnptrSites
      ensures Valid() && Snap() == Solver.TraitOn(env, old(Snap()), sites, o)
    {
      hide EdgesOf, Select, PAG.Valid, OrderOk, Solver.TraitStep;
      ghost var s := Snap();
      for j := 0 to |sites|
        invariant Valid()
        invariant Solver.TraitOn(env, s, sites, o) == Solver.TraitOn(env, Snap(), sites[j..], o)
      {
        assert sites[j..][1..] == sites[j + 1..];
        ProcessDynamicFntraitCall(sites[j], o);
      }
    }

    method HandleFntrait(n: Path)
      requires Valid()
      modifies this`newCalls, this`newInstances, assoc`fnptrSites
      ensures Valid() && Snap() == Solver.HandleFntrait(env, old(Snap()), n)
    {
      hide EdgesOf, Select, PAG.Valid, OrderOk, Solver.TraitOn;
      ghost var s := Snap();
      var sites := env.siteOrder(clock, FnTraitSite, n, Solver.Get(assoc.fntraitSites, n));
      var objs := env.order(clock, n, Solver.Get(ptData.diffPts, n));
      for i := 0 to |objs|
        invariant Valid()
        invariant Solver.TraitAll(env, s, sites, objs) == Solver.TraitAll(env, Snap(), sites, objs[i..])
      {
        assert objs[i..][1..] == objs[i + 1..];
        ProcessFntraitObject(sites, objs[i]);
      }
    }

    // ----- the worklist

    /** Serves one node with all its new facts, then marks its facts as propagated. */
    method ProcessNode(n: Path)
      requires Valid()
      modifies this`worklist, this`newCalls, this`newInstances, ptData, pag, assoc`fnptrSites
      ensures Valid() && Snap() == Solver.ProcessNode(env, old(Snap()), n)
    {
      hide EdgesOf, Select, PAG.Valid, OrderOk;
      hide Solver.HandleDirect, Solver.HandleLoadAndStore, Solver.HandleGep, Solver.HandleOffset;
      hide Solver.HandleFntrait, Solver.CallsFor;
      HandleDirect(n);
      HandleLoadAndStore(n);
      HandleGep(n);
      HandleOffset(n);
      var objs := env.order(clock, n, Solver.Get(ptData.diffPts, n));
      ProcessDynamicDispatchCall(env.siteOrder(clock, DynSite, n, Solver.Get(assoc.dynSites, n)), objs);
      ProcessFnptrCall(env.siteOrder(clock, FnPtrSite, n, Solver.Get(assoc.fnptrSites, n)), objs);
      HandleFntrait(n);
      ptData.FlushPts(n);
    }

    /** Reads the next address edge. */
    method NextAddrEdge()
      requires Valid() && addrCursor < |pag.addrEdgesQueue|
      modifies this`worklist, this`addrCursor, ptData`diffPts
      ensures Valid() && addrCursor == old(addrCursor) + 1 && Snap().edges == old(Snap()).edges
      ensures var s := old(Snap());
        && s.addrQueue != []
        && Snap() == Solver.AddSet(s, s.addrQueue[0].dst, {s.addrQueue[0].src}).(addrQueue := s.addrQueue[1..])
    {
      hide EdgesOf, PAG.Valid, OrderOk, Solver.AddSet, Select;
      ghost var s := Snap();
      pag.Ranges();
      SelectHead(pag.Edges(), pag.addrEdgesQueue[addrCursor..]);
      assert pag.addrEdgesQueue[addrCursor..][1..] == pag.addrEdgesQueue[addrCursor + 1..];
      ProcessAddr(pag.addrEdgesQueue[addrCursor]);
      addrCursor := addrCursor + 1;
    }

    /** Reads the queue of address edges to its end. */
    method ProcessAllAddrEdges()
      requires Valid()
      modifies this`worklist, this`addrCursor, ptData`diffPts
      ensures Valid() && addrCursor == |pag.addrEdgesQueue|
      ensures Snap() == Solver.ProcessAddrs(old(Snap()), old(Snap()).addrQueue).(addrQueue := [])
    {
      hide EdgesOf, PAG.Valid, OrderOk, Solver.AddSet, Select;
      ghost var s := Snap();
      while addrCursor < |pag.addrEdgesQueue|
        invariant Valid() && Snap().edges == s.edges
        invariant Solver.ProcessAddrs(s, s.addrQueue).(addrQueue := [])
          == Solver.ProcessAddrs(Snap(), Snap().addrQueue).(addrQueue := [])
        decreases |pag.addrEdgesQueue| - addrCursor
      {
        ghost var u := Snap();
        NextAddrEdge();
        ProcessAddrsIgnoresQueue(Solver.AddSet(u, u.addrQueue[0].dst, {u.addrQueue[0].src}), u.addrQueue[1..]);
      }
      assert Snap().addrQueue == [];
    }

    /** Reads the next queued edge and sends everything along it. */
    method NextInterProcEdge()
      requires Valid() && interCursor < |interQueue|
      modifies this`worklist, this`interCursor, ptData`diffPts
      ensures Valid() && interCursor == old(interCursor) + 1
      ensures var s := old(Snap());
        && s.interQueue != []
        && Snap() == Solver.Propagate(env, s, s.interQueue[0], true).(interQueue := s.interQueue[1..])
    {
      hide EdgesOf, PAG.Valid, OrderOk, Solver.Propagate, Select;
      ghost var s := Snap();
      pag.Ranges();
      SelectHead(pag.Edges(), interQueue[interCursor..]);
      assert interQueue[interCursor..][1..] == interQueue[interCursor + 1..];
      Propagate(interQueue[interCursor], false);
      interCursor := interCursor + 1;
    }

    /** Reads the queue of inter-procedural edges to its end, sending everything along each edge. */
    method ProcessAllInterProcEdges()
      requires Valid()
      modifies this`worklist, this`interCursor, ptData`diffPts
      ensures Valid() && interCursor == |interQueue|
      ensures Snap() == Solver.ProcessInters(env, old(Snap()), old(Snap()).interQueue).(interQueue := [])
    {
      hide EdgesOf, PAG.Valid, OrderOk, Solver.Propagate, Select;
      ghost var s := Snap();
      while interCursor < |interQueue|
        invariant Valid()
        invariant Solver.ProcessInters(env, s, s.interQueue).(interQueue := [])
          == Solver.ProcessInters(env, Snap(), Snap().interQueue).(interQueue := [])
        decreases |interQueue| - interCursor
      {
        ghost var u := Snap();
        NextInterProcEdge();
        ProcessIntersIgnoresQueue(env, Solver.Propagate(env, u, u.interQueue[0], true), u.interQueue[1..]);
      }
      assert Snap().interQueue == [];
    }

    method InitConstraints()
      requires Valid()
      modifies this`worklist, this`addrCursor, this`interCursor, ptData`diffPts
      ensures Valid() && Snap() == Solver.InitConstraints(env, old(Snap()))
      ensures addrCursor == |pag.addrEdgesQueue| && interCursor == |interQueue|
    {
      hide EdgesOf, PAG.Valid, OrderOk, Solver.ProcessAddrs, Solver.ProcessInters, Select;
      ghost var s := Snap();
      ProcessAllAddrEdges();
      assert Snap().interQueue == s.interQueue;
      ProcessAllInterProcEdges();
    }

    /** Solves until the worklist is empty. The state is then that after some number of turns, and inside the
        least solution of what the solver was started on, with what strays along the queue; and if the solver
        was started properly on a graph in which no node feeds itself, it is that least solution. */
    method SolveWorklist(ghost bound: set<Item>, ghost done: Facts)
      requires Valid() && Ready(env, Snap(), done)
      requires forall i :: i in Least(env, Solver.Items(Snap()) + Stray(env, Snap())) ==> i in bound
      modifies this`worklist, this`clock, this`addrCursor, this`interCursor, this`newCalls, this`newInstances, ptData,
               pag, assoc`fnptrSites
      ensures Valid() && worklist == []
      ensures exists k :: Snap() == Solver.Turns(env, Solver.InitConstraints(env, old(Snap())), k)
      ensures var L := Least(env, Solver.Items(old(Snap())) + Stray(env, old(Snap())));
        && Solver.Items(Snap()) <= L
        && (AllDone(old(Snap()), done) && NoSelfFeed(L) ==>
            Solver.Items(Snap()) == L && forall v :: Solver.Get(ptData.diffPts, v) == {})
      ensures addrCursor == |pag.addrEdgesQueue| && interCursor == |interQueue|
    {
      hide EdgesOf, PAG.Valid, OrderOk, Solver.InitConstraints, Solver.ProcessNode, Select, Ready, Least,
           Solver.Items, NoSelfFeed, AllDone, Stray;
      ghost var s := Snap();
      ghost var L := Least(env, Solver.Items(s) + Stray(env, s));
      InitConstraints();
      ghost var s1 := Snap();
      ghost var k := 0;
      StartStaysInside(env, s, done);
      while worklist != []
        invariant Valid() && Snap() == Solver.Turns(env, s1, k)
        invariant Solver.Items(Snap()) <= L
        decreases Missing(Snap(), bound), |worklist|
      {
        ghost var u := Snap();
        var n := worklist[0];
        worklist, clock := worklist[1..], clock + 1;
        ProcessNode(n);
        assert Snap() == Solver.Turn(env, u);
        TurnsOneMore(env, s1, k);
        k := k + 1;
        TurnStaysInside(env, u, L, bound);
      }
      TurnsKeepQueues(env, s1, k);
      if AllDone(s, done) && NoSelfFeed(L) {
        SolverReachesLeastSolution(env, s, done, k);
      }
    }
  }

  lemma InduceUnfolds(env: Env, s: State, e: Edge, es: seq<Edge>)
    ensures Solver.InduceAll(env, s, [e] + es) == Solver.InduceAll(env, Solver.Induce(env, s, e), es)
  {
  }

  /** The edges that the loads or stores from the i-th on ask for. */
  ghost function AllInducedFrom(es: seq<Edge>, i: nat, os: seq<Path>): seq<Edge>
    requires i <= |es| && forall e :: e in es ==> e.kind.Load? || e.kind.Store?
  {
    assert forall e :: e in es[i..] ==> e in es;
    Solver.AllInduced(es[i..], os)
  }

  lemma AllInducedStep(env: Env, s: State, es: seq<Edge>, i: nat, os: seq<Path>)
    requires i < |es| && forall e :: e in es ==> e.kind.Load? || e.kind.Store?
    ensures Solver.InduceAll(env, s, AllInducedFrom(es, i, os))
      == Solver.InduceAll(env, Solver.InduceAll(env, s, Solver.InducedBy(es[i], os)), AllInducedFrom(es, i + 1, os))
  {
    assert es[i..][0] == es[i] && es[i..][1..] == es[i + 1..];
    InduceAllConcat(env, s, Solver.InducedBy(es[i], os), AllInducedFrom(es, i + 1, os));
  }

  lemma NoneInduced(env: Env, s: State, t: State, es: seq<Edge>, os: seq<Path>)
    requires forall e :: e in es ==> e.kind.Load? || e.kind.Store?
    ensures Solver.InduceAll(env, t, AllInducedFrom(es, |es|, os)) == t
    ensures Solver.InduceAll(env, s, AllInducedFrom(es, 0, os)) == Solver.InduceAll(env, s, Solver.AllInduced(es, os))
  {
  }

  lemma {:induction false} InduceAllConcat(env: Env, s: State, a: seq<Edge>, b: seq<Edge>)
    ensures Solver.InduceAll(env, s, a + b) == Solver.InduceAll(env, Solver.InduceAll(env, s, a), b)
    decreases |a|
  {
    if a == [] {
      assert a + b == b;
    } else {
      assert (a + b)[0] == a[0] && (a + b)[1..] == a[1..] + b;
      InduceAllConcat(env, Solver.Induce(env, s, a[0]), a[1..], b);
    }
  }

  lemma SelectHead(edges: seq<Edge>, ids: seq<EdgeId>)
    requires InRange(|edges|, ids) && ids != []
    ensures Select(edges, ids)[0] == edges[ids[0]] && Select(edges, ids)[1..] == Select(edges, ids[1..])
  {
  }

  lemma {:induction false} ProcessAddrsIgnoresQueue(s: State, es: seq<Edge>)
    ensures Solver.ProcessAddrs(s.(addrQueue := es), es).(addrQueue := []) == Solver.ProcessAddrs(s, es).(addrQueue := [])
    decreases |es|
  {
    ProcessAddrsQueueIs(s, es, es);
  }

  lemma {:induction false} ProcessAddrsQueueIs(s: State, es: seq<Edge>, q: seq<Edge>)
    ensures Solver.ProcessAddrs(s.(addrQueue := q), es) == Solver.ProcessAddrs(s, es).(addrQueue := q)
    decreases |es|
  {
    if es != [] {
      ProcessAddrsQueueIs(Solver.AddSet(s, es[0].dst, {es[0].src}), es[1..], q);
    }
  }

  lemma ProcessIntersIgnoresQueue(env: Env, s: State, es: seq<Edge>)
    ensures Solver.ProcessInters(env, s.(interQueue := es), es).(interQueue := []) == Solver.ProcessInters(env, s, es).(interQueue := [])
  {
    ProcessIntersQueueIs(env, s, es, es);
  }

  lemma {:induction false} ProcessIntersQueueIs(env: Env, s: State, es: seq<Edge>, q: seq<Edge>)
    ensures Solver.ProcessInters(env, s.(interQueue := q), es) == Solver.ProcessInters(env, s, es).(interQueue := q)
    decreases |es|
  {
    if es != [] {
      ProcessIntersQueueIs(env, Solver.Propagate(env, s, es[0], true), es[1..], q);
    }
  }

  lemma {:induction false} TurnsOneMore(env: Env, s: State, k: nat)
    ensures Solver.Turns(env, s, k + 1) == Solver.Turn(env, Solver.Turns(env, s, k))
    decreases k
  {
    hide Solver.Turn;
    if k > 0 {
      TurnsOneMore(env, Solver.Turn(env, s), k - 1);
    }
  }

  lemma StartStaysInside(env: Env, s: State, done: Facts)
    requires Ready(env, s, done)
    ensures var L := Least(env, Solver.Items(s) + Stray(env, s));
      Closed(env, L) && Solver.Items(Solver.InitConstraints(env, s)) <= L
  {
    hide Least, Solver.Items, Stray, Solver.InitConstraints, Closed;
    InitEstablishesInv(env, s, done);
    StartedInside(env, s);
    LeastIsClosed(env, Solver.Items(s) + Stray(env, s));
  }

  lemma TurnStaysInside(env: Env, u: State, L: iset<Item>, bound: set<Item>)
    requires OrderOk(env) && u.worklist != [] && Solver.Items(u) <= L && Closed(env, L)
    requires forall i :: i in L ==> i in bound
    ensures Solver.Items(Solver.Turn(env, u)) <= L
    ensures Missing(Solver.Turn(env, u), bound) < Missing(u, bound)
      || (Missing(Solver.Turn(env, u), bound) == Missing(u, bound) && |Solver.Turn(env, u).worklist| < |u.worklist|)
  {
    hide Solver.Turn, Solver.Items;
    TurnSound(env, u, L);
    TurnDecreases(env, u, bound);
  }
}
