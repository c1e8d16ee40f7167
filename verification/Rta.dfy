/** Rapid type analysis (src/rta/rta.rs): functions are visited as they become reachable, and call sites are
    resolved with the concrete types found so far, until no further function becomes reachable. */
module Rta {
  import opened Options
  import opened Paths
  import opened CallGraph
  import opened RtaRules
  import opened RtaOrder

  function Entry<K(==), V(==)>(m: map<K, set<V>>, k: K): set<V>
  {
    if k in m then m[k] else {}
  }

  class RapidTypeAnalysis {
    const prog: Program
    const callGraph: CallGraph
    var rfIter: nat
    var visitedFunctions: set<FuncId>
    var speciallyHandled: set<FuncId>
    var dynCallsites: map<Ty, set<GenericSite>>
    var dynFntraitCallsites: map<Ty, set<GenericSite>>
    var fnptrCallsites: map<Ty, set<BaseSite>>
    var concreteTypes: map<Ty, set<Ty>>
    var fnptrTargets: map<FnSig, set<Ty>>
    var upcasting: map<Ty, set<Ty>>
    /** The functions reached in some way other than a special call. */
    ghost var plain: iset<FuncId>
    /** The functions whose visit has begun, those whose bodies have been visited, and those that were passed
        over as special. */
    ghost var begun: iset<FuncId>
    ghost var entered: iset<FuncId>
    ghost var skipped: iset<FuncId>

    ghost predicate Says(i: Fact)
      requires callGraph.Valid()
      reads this, callGraph
    {
      match i
      case Reach(f) => f in callGraph.nodes
      case Plain(f) => f in plain
      case Calls(site, f) => (site, f) in callGraph.CallEdges()
      case Concrete(d, c) => c in Entry(concreteTypes, d)
      case Upcast(s, t) => t in Entry(upcasting, s)
      case DynAt(d, at) => at in Entry(dynCallsites, d)
      case FnTraitAt(d, at) => at in Entry(dynFntraitCallsites, d)
      case FnPtrAt(p, site) => site in Entry(fnptrCallsites, p)
      case Target(sig, item) => item in Entry(fnptrTargets, sig)
    }

    ghost function Facts(): iset<Fact>
      requires callGraph.Valid()
      reads this, callGraph
    {
      iset i: Fact | Says(i)
    }

    /** Everything found follows from the rules and the bodies visited so far, functions have been entered and
        passed over in the order of the queue, and a function in the queue is marked as special or reached
        otherwise. */
    ghost predicate Ok()
      reads this, callGraph
    {
      && callGraph.Valid() && rfIter <= |callGraph.nodes|
      && callGraph.nodes != [] && callGraph.nodes[0] == prog.entry
      && Facts() <= Known(prog, begun) && EdgeRule(Facts())
      && entered <= begun && begun !! skipped
      && (forall f :: f in entered ==> BodyFound(prog, Facts(), f))
      && (forall f :: f in visitedFunctions <==> f in callGraph.nodes[..rfIter])
      && Ordered(prog, callGraph.nodes[..rfIter], entered, skipped)
      && (forall f :: f in callGraph.nodes ==> f in speciallyHandled || f in plain)
    }

    constructor (prog: Program)
      ensures fresh(callGraph) && callGraph.Valid() && this.prog == prog && rfIter == 0 && Facts() == iset{}
      ensures callGraph.nodes == [] && visitedFunctions == {} && speciallyHandled == {}
      ensures begun == iset{} && entered == iset{} && skipped == iset{}
    {
      this.prog := prog;
      callGraph := new CallGraph();
      rfIter, visitedFunctions, speciallyHandled := 0, {}, {};
      dynCallsites, dynFntraitCallsites, fnptrCallsites := map[], map[], map[];
      concreteTypes, fnptrTargets, upcasting := map[], map[], map[];
      plain, begun, entered, skipped := iset{}, iset{}, iset{}, iset{};
    }

    /** Enters the entry function into the call graph. */
    method AddEntry()
      requires callGraph.Valid() && callGraph.nodes == [] && rfIter == 0 && Facts() == iset{} && speciallyHandled == {}
      requires visitedFunctions == {} && begun == iset{} && entered == iset{} && skipped == iset{}
      modifies this`plain, callGraph
      ensures Ok() && Rest() && rfIter < |callGraph.nodes| && Plain(prog.entry) in Facts()
    {
      hide CallGraph.Valid, Known, BodyFound;
      callGraph.AddNode(prog.entry);
      plain := plain + iset{prog.entry};
      forall i ensures i in Facts() <==> i == Reach(prog.entry) || i == Plain(prog.entry) || i in old(Facts()) {
      }
      KnownKeepsRules(prog, begun);
      assert callGraph.nodes == [prog.entry];
    }

    // ----- recording

    /** A call edge, and the functions that are reached otherwise by it. */
    method RecordEdge(site: BaseSite, callee: FuncId, ghost reached: iset<FuncId>)
      requires callGraph.Valid() && callGraph.nodes != []
      modifies this`plain, callGraph
      ensures callGraph.Valid() && old(callGraph.nodes) <= callGraph.nodes && plain == old(plain) + reached
      ensures forall f :: f in callGraph.nodes ==> f in old(callGraph.nodes) || f == callee || f == site.func
      ensures Facts() == old(Facts()) + iset{Calls(site, callee), Reach(callee), Reach(site.func)} + PlainFacts(reached)
    {
      hide CallGraph.Valid;
      ghost var X := Facts();
      var isNew := callGraph.AddEdge(site, site.func, callee);
      plain := plain + reached;
      forall i ensures i in Facts() <==>
        i in X || i == Calls(site, callee) || i == Reach(callee) || i == Reach(site.func) || i in PlainFacts(reached) {
        assert i in X <==> old(Says(i));
      }
    }

    /** An ordinary call. */
    method AddCallEdge(site: BaseSite, callee: FuncId)
      requires Ok() && CallIn(Known(prog, begun), site, callee)
      modifies this`plain, callGraph
      ensures Ok() && old(callGraph.nodes) <= callGraph.nodes
      ensures Facts() == old(Facts())
        + iset{Calls(site, callee), Reach(callee), Reach(site.func), Plain(callee), Plain(site.func)}
    {
      hide CallGraph.Valid, Known, BodyFound, Ordered, Says;
      ghost var X, nodes := Facts(), callGraph.nodes;
      KnownKeepsRules(prog, begun);
      RecordEdge(site, callee, iset{callee, site.func});
      MoreFound(prog, X, Facts());
      assert callGraph.nodes[..rfIter] == nodes[..rfIter];
    }

    /** A call of a specially handled function, which is marked. */
    method AddSpecialCall(site: BaseSite, callee: FuncId)
      requires Ok() && Calls(site, callee) in Known(prog, begun)
      modifies this`plain, this`speciallyHandled, callGraph
      ensures Ok() && old(callGraph.nodes) <= callGraph.nodes
      ensures speciallyHandled == old(speciallyHandled) + {callee}
      ensures Facts() == old(Facts()) + iset{Calls(site, callee), Reach(callee), Reach(site.func), Plain(site.func)}
    {
      hide CallGraph.Valid, Known, BodyFound, Ordered;
      ghost var X, nodes := Facts(), callGraph.nodes;
      KnownKeepsRules(prog, begun);
      RecordEdge(site, callee, iset{site.func});
      ghost var Y := Facts();
      speciallyHandled := speciallyHandled + {callee};
      assert Facts() == Y by {
        assert forall i :: i in Facts() <==> i in Y;
      }
      MoreFound(prog, X, Facts());
      assert callGraph.nodes[..rfIter] == nodes[..rfIter];
    }

    method AddDynCallsite(dynTy: Ty, at: GenericSite)
      requires callGraph.Valid()
      modifies this`dynCallsites
      ensures Facts() == old(Facts()) + iset{DynAt(dynTy, at)}
    {
      hide CallGraph.Valid;
      ghost var X := Facts();
      dynCallsites := dynCallsites[dynTy := Entry(dynCallsites, dynTy) + {at}];
      forall i ensures i in Facts() <==> i in X || i == DynAt(dynTy, at) {
        assert i in X <==> old(Says(i));
      }
    }

    method AddDynFntraitCallsite(dynTy: Ty, at: GenericSite)
      requires callGraph.Valid()
      modifies this`dynFntraitCallsites
      ensures Facts() == old(Facts()) + iset{FnTraitAt(dynTy, at)}
    {
      hide CallGraph.Valid;
      ghost var X := Facts();
      dynFntraitCallsites := dynFntraitCallsites[dynTy := Entry(dynFntraitCallsites, dynTy) + {at}];
      forall i ensures i in Facts() <==> i in X || i == FnTraitAt(dynTy, at) {
        assert i in X <==> old(Says(i));
      }
    }

    method AddFnptrCallsite(site: BaseSite, ptrTy: Ty)
      requires callGraph.Valid()
      modifies this`fnptrCallsites
      ensures Facts() == old(Facts()) + iset{FnPtrAt(ptrTy, site)}
    {
      hide CallGraph.Valid;
      ghost var X := Facts();
      fnptrCallsites := fnptrCallsites[ptrTy := Entry(fnptrCallsites, ptrTy) + {site}];
      forall i ensures i in Facts() <==> i in X || i == FnPtrAt(ptrTy, site) {
        assert i in X <==> old(Says(i));
      }
    }

    method AddPossibleConcreteType(dynTy: Ty, concrete: Ty)
      requires callGraph.Valid()
      modifies this`concreteTypes
      ensures Facts() == old(Facts()) + iset{Concrete(dynTy, concrete)}
    {
      hide CallGraph.Valid;
      ghost var X := Facts();
      concreteTypes := concreteTypes[dynTy := Entry(concreteTypes, dynTy) + {concrete}];
      forall i ensures i in Facts() <==> i in X || i == Concrete(dynTy, concrete) {
        assert i in X <==> old(Says(i));
      }
    }

    method AddPossibleFnptrTarget(sig: FnSig, item: Ty)
      requires callGraph.Valid()
      modifies this`fnptrTargets
      ensures Facts() == old(Facts()) + iset{Target(sig, item)}
    {
      hide CallGraph.Valid;
      ghost var X := Facts();
      fnptrTargets := fnptrTargets[sig := Entry(fnptrTargets, sig) + {item}];
      forall i ensures i in Facts() <==> i in X || i == Target(sig, item) {
        assert i in X <==> old(Says(i));
      }
    }

    method AddTraitUpcastingRelation(src: Ty, tgt: Ty)
      requires callGraph.Valid()
      modifies this`upcasting
      ensures Facts() == old(Facts()) + (if src != tgt then iset{Upcast(src, tgt)} else iset{})
    {
      hide CallGraph.Valid;
      ghost var X := Facts();
      if src != tgt {
        upcasting := upcasting[src := Entry(upcasting, src) + {tgt}];
      }
      forall i ensures i in Facts() <==> i in X || ((src != tgt) && i == Upcast(src, tgt)) {
        assert i in X <==> old(Says(i));
      }
    }

    /** One thing that the visitor does. A specially handled callee is marked after its call edge. */
    method VisitAction(a: Action)
      requires Ok() && (Trivial(a) || FoundIn(Known(prog, begun), a))
      modifies this`plain, this`dynCallsites, this`dynFntraitCallsites, this`fnptrCallsites, this`concreteTypes,
               this`fnptrTargets, this`upcasting,
               this`speciallyHandled, callGraph
      ensures Ok() && old(callGraph.nodes) <= callGraph.nodes && old(Facts()) <= Facts() && (Trivial(a) || FoundIn(Facts(), a))
      ensures a.Find? && !a.fact.Reach? && !a.fact.Plain? && (a.fact.Upcast? ==> a.fact.src != a.fact.tgt) ==> a.fact in Facts()
      ensures a.Find? && a.fact.Calls? ==> Plain(a.fact.callee) in Facts()
      ensures a.CallSpecial? ==> Calls(a.site, a.callee) in Facts() && a.callee in speciallyHandled
      ensures speciallyHandled == old(speciallyHandled) + SpecialsOf([a])
    {
      hide CallGraph.Valid, Known, BodyFound, Says, Ordered;
      ghost var X := Facts();
      match a {
        case CallSpecial(site, callee) =>
          AddSpecialCall(site, callee);
        case Find(i) =>
          match i {
            case Reach(_) =>
            case Plain(_) =>
            case Calls(site, callee) => AddCallEdge(site, callee);
            case Concrete(d, c) => AddPossibleConcreteType(d, c);
            case Upcast(src, tgt) => AddTraitUpcastingRelation(src, tgt);
            case DynAt(d, at) => AddDynCallsite(d, at);
            case FnTraitAt(d, at) => AddDynFntraitCallsite(d, at);
            case FnPtrAt(p, site) => AddFnptrCallsite(site, p);
            case Target(sig, item) => AddPossibleFnptrTarget(sig, item);
          }
      }
      MoreFound(prog, X, Facts());
      ActionIsRecorded(Facts(), a);
    }

    method VisitBody(f: FuncId, body: seq<Action>)
      requires Ok() && f in begun && Reach(f) in Facts() && prog.body(f) == Some(body)
      modifies this`plain, this`dynCallsites, this`dynFntraitCallsites, this`fnptrCallsites, this`concreteTypes,
               this`fnptrTargets, this`upcasting,
               this`speciallyHandled, callGraph
      ensures Ok() && old(callGraph.nodes) <= callGraph.nodes && old(Facts()) <= Facts()
      ensures BodyFound(prog, Facts(), f)
      ensures speciallyHandled == old(speciallyHandled) + SpecialsOf(body)
    {
      hide CallGraph.Valid, Known, Says, Ordered, EdgeRule;
      ghost var X := Facts();
      KnownHoldsBodies(prog, begun, f);
      for i := 0 to |body|
        invariant Ok() && old(callGraph.nodes) <= callGraph.nodes && X <= Facts()
        invariant forall j :: 0 <= j < i && !Trivial(body[j]) ==> FoundIn(Facts(), body[j])
        invariant speciallyHandled == old(speciallyHandled) + SpecialsOf(body[..i])
      {
        assert body[i] in body && body[..i + 1] == body[..i] + [body[i]];
        VisitAction(body[i]);
      }
    }

    /** Between two visits: the marked functions are the special callees of the bodies visited so far. */
    ghost predicate Rest()
      reads this
    {
      begun == entered && forall f :: f in speciallyHandled <==> CalledSpecially(prog, entered, f)
    }

    /** Visits the next function of the queue, unless it was visited before, is special or has no body. It is
        passed over exactly when a body visited before calls it specially. */
    method ProcessFunction(f: FuncId)
      requires Ok() && Rest() && rfIter < |callGraph.nodes| && f == callGraph.nodes[rfIter]
      modifies this, callGraph
      ensures Ok() && Rest() && rfIter == old(rfIter) + 1
      ensures old(callGraph.nodes) <= callGraph.nodes && old(Facts()) <= Facts()
      ensures visitedFunctions == old(visitedFunctions) + {f}
      ensures var isSpecial, body := CalledSpecially(prog, old(entered), f), prog.body(f);
        && skipped == old(skipped) + (if isSpecial then iset{f} else iset{})
        && entered == old(entered) + (if !isSpecial && body.Some? then iset{f} else iset{})
        && speciallyHandled == old(speciallyHandled) + (if !isSpecial && body.Some? then SpecialsOf(body.value) else {})
    {
      hide CallGraph.Valid, Known, Ordered, BodyFound;
      QueueIsNodes();
      TakenOnly(prog, callGraph.nodes[..rfIter], entered, skipped);
      var isNew := f !in visitedFunctions;
      assert isNew;
      if isNew {
        if f in speciallyHandled {
          PassOver(f);
        } else {
          var body := prog.body(f);
          if body.Some? {
            assert Plain(f) in Facts();
            assert Plain(f) in Known(prog, entered);
            Begin(f);
            VisitBody(f, body.value);
            Finish(f);
          } else {
            PassOver(f);
          }
        }
      }
    }

    /** Marks a function as visited without entering it. */
    method PassOver(f: FuncId)
      requires Ok() && Rest() && rfIter < |callGraph.nodes| && f == callGraph.nodes[rfIter]
      requires f !in visitedFunctions && (f in speciallyHandled || prog.body(f).None?)
      modifies this`visitedFunctions, this`skipped, this`rfIter
      ensures Ok() && Rest() && rfIter == old(rfIter) + 1 && visitedFunctions == old(visitedFunctions) + {f} && Facts() == old(Facts())
      ensures skipped == old(skipped) + (if f in speciallyHandled then iset{f} else iset{})
    {
      hide CallGraph.Valid, Known, BodyFound, Ordered;
      TakenOnly(prog, callGraph.nodes[..rfIter], entered, skipped);
      OneMorePassedOver(prog, callGraph.nodes[..rfIter], entered, skipped, f);
      assert callGraph.nodes[..rfIter + 1] == callGraph.nodes[..rfIter] + [f];
      assert skipped + iset{} == skipped;
      if f in speciallyHandled {
        skipped := skipped + iset{f};
      }
      visitedFunctions := visitedFunctions + {f};
      rfIter := rfIter + 1;
      assert forall i :: Says(i) == old(Says(i));
      assert Facts() == old(Facts());
    }

    ghost method Begin(f: FuncId)
      requires Ok() && Rest() && f in callGraph.nodes && f !in skipped
      modifies this`begun
      ensures Ok() && begun == old(begun) + iset{f} && Facts() == old(Facts()) && Reach(f) in Facts()
    {
      hide CallGraph.Valid, BodyFound, Known, Ordered;
      KnownGrows(prog, begun, begun + iset{f});
      begun := begun + iset{f};
      assert forall i :: Says(i) == old(Says(i));
      assert Facts() == old(Facts());
    }

    method Finish(f: FuncId)
      requires Ok() && begun == entered + iset{f} && BodyFound(prog, Facts(), f)
      requires rfIter < |callGraph.nodes| && f == callGraph.nodes[rfIter] && f !in visitedFunctions && prog.body(f).Some?
      requires !CalledSpecially(prog, entered, f) && Plain(f) in Known(prog, entered)
      modifies this`visitedFunctions, this`entered, this`rfIter
      ensures Ok() && rfIter == old(rfIter) + 1 && visitedFunctions == old(visitedFunctions) + {f}
      ensures entered == begun && Facts() == old(Facts())
    {
      hide CallGraph.Valid, BodyFound, Known, Ordered;
      OneMoreEntered(prog, callGraph.nodes[..rfIter], entered, skipped, f);
      assert callGraph.nodes[..rfIter + 1] == callGraph.nodes[..rfIter] + [f];
      entered := entered + iset{f};
      visitedFunctions := visitedFunctions + {f};
      rfIter := rfIter + 1;
      assert forall i :: Says(i) == old(Says(i));
      assert Facts() == old(Facts());
    }

    lemma QueueIsNodes()
      requires callGraph.Valid()
      ensures callGraph.reachFuncs == callGraph.nodes
      ensures forall i, j :: 0 <= i < j < |callGraph.nodes| ==> callGraph.nodes[i] != callGraph.nodes[j]
    {
    }

    /** Visits every function in the queue, and tells whether there was one. */
    method ProcessReachableFunctions(ghost bound: set<Fact>) returns (hasNew: bool)
      requires Ok() && Rest() && forall i :: i in Least(prog, iset{}) ==> i in bound
      modifies this, callGraph
      ensures Ok() && Rest() && rfIter == |callGraph.nodes| && old(callGraph.nodes) <= callGraph.nodes && old(Facts()) <= Facts()
      ensures Ordered(prog, callGraph.nodes, entered, skipped)
      ensures forall f :: f in speciallyHandled <==> CalledSpecially(prog, entered, f)
      ensures hasNew <==> old(rfIter) < old(|callGraph.nodes|)
      ensures !hasNew ==> Facts() == old(Facts())
    {
      hide CallGraph.Valid, Known, Says, Least, Ordered, EdgeRule, BodyFound;
      hasNew := false;
      while rfIter < |callGraph.nodes|
        invariant Ok() && Rest() && old(callGraph.nodes) <= callGraph.nodes && old(Facts()) <= Facts()
        invariant old(rfIter) <= rfIter && (hasNew <==> old(rfIter) < rfIter)
        invariant hasNew ==> old(rfIter) < old(|callGraph.nodes|)
        invariant !hasNew ==> Facts() == old(Facts()) && callGraph.nodes == old(callGraph.nodes)
        decreases |FuncsIn(bound)| - rfIter
      {
        QueueIsNodes();
        ProcessFunction(callGraph.reachFuncs[rfIter]);
        hasNew := true;
        NodesFit(bound);
      }
      assert callGraph.nodes[..rfIter] == callGraph.nodes;
    }

    lemma NodesFit(bound: set<Fact>)
      requires Ok() && Rest() && forall i :: i in Least(prog, iset{}) ==> i in bound
      ensures |callGraph.nodes| <= |FuncsIn(bound)|
    {
      hide Least;
      KnownInLeast(prog, begun, iset{});
      forall f | f in callGraph.nodes ensures f in FuncsIn(bound) {
        assert Reach(f) in Facts();
        assert Reach(f).func == f;
      }
      QueueIsNodes();
      DistinctFit(callGraph.nodes, FuncsIn(bound));
    }

    // ----- solving

    /** Adds types to those of a trait object. */
    method AddAll(dynTy: Ty, types: set<Ty>) returns (changed: bool)
      requires Ok() && forall c :: c in types ==> Concrete(dynTy, c) in Known(prog, begun)
      modifies this`concreteTypes
      ensures Ok() && old(Facts()) <= Facts()
      ensures changed <==> Facts() != old(Facts())
      ensures forall c :: c in types ==> Concrete(dynTy, c) in Facts()
    {
      hide CallGraph.Valid, Known;
      ghost var X := Facts();
      changed := !(types <= Entry(concreteTypes, dynTy));
      concreteTypes := concreteTypes[dynTy := Entry(concreteTypes, dynTy) + types];
      forall i ensures i in Facts() <==> i in X || (i.Concrete? && i.dynTy == dynTy && i.concrete in types) {
        assert i in X <==> old(Says(i));
      }
      if changed {
        ghost var c :| c in types && c !in old(Entry(concreteTypes, dynTy));
        assert Concrete(dynTy, c) in Facts() && Concrete(dynTy, c) !in X;
      } else {
        assert Facts() == X;
      }
      MoreFound(prog, X, Facts());
    }

    /** All consequences of the upcasts from one trait object. */
    ghost predicate SpreadFrom(X: iset<Fact>, src: Ty)
    {
      forall t, c :: Upcast(src, t) in X && Concrete(src, c) in X ==> Concrete(t, c) in X
    }

    method Spread(src: Ty) returns (changed: bool)
      requires Ok() && src in upcasting
      modifies this`concreteTypes
      ensures Ok() && old(Facts()) <= Facts()
      ensures changed <==> Facts() != old(Facts())
      ensures !changed ==> SpreadFrom(Facts(), src)
    {
      hide CallGraph.Valid, Known;
      changed := false;
      if src in concreteTypes {
        var types, todo := concreteTypes[src], upcasting[src];
        ghost var X := Facts();
        KnownKeepsRules(prog, begun);
        TypesAreFacts(src);
        forall t, c | t in todo && c in types ensures Concrete(t, c) in Known(prog, begun) {
          assert Upcast(src, t) in X && Concrete(src, c) in X;
        }
        while todo != {}
          invariant Ok() && X <= Facts() && todo <= upcasting[src]
          invariant changed <==> Facts() != X
          invariant forall t, c :: t in upcasting[src] - todo && c in types ==> Concrete(t, c) in Facts()
          decreases todo
        {
          var tgt :| tgt in todo;
          todo := todo - {tgt};
          var grown := AddAll(tgt, types);
          changed := changed || grown;
        }
        if !changed {
          assert SpreadFrom(X, src);
        }
      }
    }

    lemma TypesAreFacts(src: Ty)
      requires callGraph.Valid()
      ensures forall c :: c in Entry(concreteTypes, src) <==> Concrete(src, c) in Facts()
      ensures forall t :: t in Entry(upcasting, src) <==> Upcast(src, t) in Facts()
    {
    }

    lemma OthersSpreadNothing()
      requires callGraph.Valid()
      ensures forall s :: s !in upcasting ==> SpreadFrom(Facts(), s)
    {
    }

    lemma MoreIsLessMissing(bound: set<Fact>, X: iset<Fact>)
      requires Ok() && Rest() && X <= Facts() && forall i :: i in Least(prog, iset{}) ==> i in bound
      ensures X != Facts() ==> MissingFacts(bound, Facts()) < MissingFacts(bound, X)
    {
      hide CallGraph.Valid, Known, Says, Least, Ordered, EdgeRule, BodyFound;
      if X != Facts() {
        KnownInLeast(prog, begun, iset{});
        var i :| i in Facts() && i !in X;
        assert i in MissingFacts(bound, X) && i !in MissingFacts(bound, Facts());
      }
    }

    /** Spreads concrete types along upcasts until nothing changes. */
    method SolveTraitUpcasting(ghost bound: set<Fact>)
      requires Ok() && Rest() && forall i :: i in Least(prog, iset{}) ==> i in bound
      modifies this`concreteTypes
      ensures Ok() && Rest() && old(Facts()) <= Facts() && UpcastRule(Facts())
    {
      hide CallGraph.Valid, Known, Says, Least, Ordered, EdgeRule, BodyFound;
      var changed := true;
      while changed
        invariant Ok() && Rest() && old(Facts()) <= Facts()
        invariant !changed ==> UpcastRule(Facts())
        decreases MissingFacts(bound, Facts()), changed
      {
        changed := false;
        ghost var X := Facts();
        var todo := upcasting.Keys;
        OthersSpreadNothing();
        while todo != {}
          invariant Ok() && Rest() && X <= Facts() && todo <= upcasting.Keys
          invariant changed <==> Facts() != X
          invariant !changed ==> forall s :: s !in todo ==> SpreadFrom(X, s)
          decreases todo
        {
          var src :| src in todo;
          todo := todo - {src};
          var grown := Spread(src);
          changed := changed || grown;
        }
        if !changed {
          forall s, t, c | Upcast(s, t) in X && Concrete(s, c) in X ensures Concrete(t, c) in X {
            assert SpreadFrom(X, s);
          }
        }
        MoreIsLessMissing(bound, X);
      }
    }

    /** Resolves one trait-method call with every concrete type. */
    method ResolveDyn(at: GenericSite, types: set<Ty>)
      requires Ok()
      requires forall c :: c in types && prog.devirtualize(at, c).Some? ==>
        CallIn(Known(prog, begun), at.site, prog.devirtualize(at, c).value)
      modifies this`plain, callGraph
      ensures Ok() && OnlyEdges(old(Facts()), Facts())
      ensures forall c :: c in types && prog.devirtualize(at, c).Some? ==>
        CallIn(Facts(), at.site, prog.devirtualize(at, c).value)
    {
      hide CallGraph.Valid, Known, Says, BodyFound, Ordered, EdgeRule;
      ghost var X := Facts();
      var todo := types;
      while todo != {}
        invariant Ok() && todo <= types && OnlyEdges(X, Facts())
        invariant forall c :: c in types - todo && prog.devirtualize(at, c).Some? ==>
          CallIn(Facts(), at.site, prog.devirtualize(at, c).value)
        decreases todo
      {
        var c :| c in todo;
        todo := todo - {c};
        var callee := prog.devirtualize(at, c);
        if callee.Some? {
          AddCallEdge(at.site, callee.value);
        }
      }
    }

    ghost predicate DynDone(X: iset<Fact>, d: Ty)
    {
      forall at, c :: DynAt(d, at) in X && Concrete(d, c) in X && prog.devirtualize(at, c).Some? ==>
        CallIn(X, at.site, prog.devirtualize(at, c).value)
    }

    lemma SitesAreFacts(d: Ty)
      requires callGraph.Valid()
      ensures forall at :: at in Entry(dynCallsites, d) <==> DynAt(d, at) in Facts()
      ensures forall at :: at in Entry(dynFntraitCallsites, d) <==> FnTraitAt(d, at) in Facts()
      ensures forall site :: site in Entry(fnptrCallsites, d) <==> FnPtrAt(d, site) in Facts()
    {
    }

    method SolveDynType(d: Ty)
      requires Ok()
      modifies this`plain, callGraph
      ensures Ok() && OnlyEdges(old(Facts()), Facts()) && DynDone(Facts(), d)
    {
      hide CallGraph.Valid, Known, Says, BodyFound, Ordered, EdgeRule;
      ghost var X := Facts();
      var types, todo := Entry(concreteTypes, d), Entry(dynCallsites, d);
      ghost var all := todo;
      KnownKeepsRules(prog, begun);
      TypesAreFacts(d);
      SitesAreFacts(d);
      while todo != {}
        invariant Ok() && todo <= all && OnlyEdges(X, Facts())
        invariant forall at, c :: at in all - todo && c in types && prog.devirtualize(at, c).Some? ==>
          CallIn(Facts(), at.site, prog.devirtualize(at, c).value)
        decreases todo
      {
        var at :| at in todo;
        todo := todo - {at};
        assert DynAt(d, at) in X && forall c :: c in types ==> Concrete(d, c) in X;
        ResolveDyn(at, types);
      }
    }

    method SolveDynCallsites()
      requires Ok()
      modifies this`plain, callGraph
      ensures Ok() && OnlyEdges(old(Facts()), Facts()) && DynRule(prog, Facts())
    {
      hide CallGraph.Valid, Known, Says, BodyFound, Ordered, EdgeRule;
      ghost var X := Facts();
      var todo := concreteTypes.Keys;
      NoTypesNoCalls();
      while todo != {}
        invariant Ok() && todo <= concreteTypes.Keys && OnlyEdges(X, Facts())
        invariant forall d :: d !in todo ==> DynDone(Facts(), d)
        decreases todo
      {
        var d :| d in todo;
        todo := todo - {d};
        ghost var Y := Facts();
        SolveDynType(d);
        forall e | DynDone(Y, e) ensures DynDone(Facts(), e) {
        }
      }
      forall d, at, c | DynAt(d, at) in Facts() && Concrete(d, c) in Facts() && prog.devirtualize(at, c).Some?
        ensures CallIn(Facts(), at.site, prog.devirtualize(at, c).value)
      {
        assert DynDone(Facts(), d);
      }
    }

    lemma NoTypesNoCalls()
      requires callGraph.Valid()
      ensures forall d :: d !in concreteTypes ==> DynDone(Facts(), d)
      ensures forall d :: d !in dynFntraitCallsites ==> FnTraitDone(Facts(), d)
      ensures forall p :: p !in fnptrCallsites ==> FnPtrDone(Facts(), p)
    {
    }

    ghost predicate FnTraitDone(X: iset<Fact>, d: Ty)
    {
      forall at, c :: FnTraitAt(d, at) in X && Concrete(d, c) in X ==> TraitCallIn(X, at, c, prog.fnTraitCallee(at, c))
    }

    ghost predicate FnPtrDone(X: iset<Fact>, p: Ty)
    {
      forall site, sig, item :: FnPtrAt(p, site) in X && Target(sig, item) in X && Matched(prog, p, sig) ==>
        CallIn(X, site, prog.itemFunc(item))
    }

    /** One concrete type at every `dyn Fn*` call site of the trait object. A function pointer makes the call
        site a function-pointer call site. */
    method ResolveFntrait(sites: set<GenericSite>, c: Ty)
      requires Ok()
      requires forall at :: at in sites ==> TraitCallIn(Known(prog, begun), at, c, prog.fnTraitCallee(at, c))
      modifies this`plain, this`fnptrCallsites, callGraph
      ensures Ok() && OnlyCalls(old(Facts()), Facts())
      ensures forall at :: at in sites ==> TraitCallIn(Facts(), at, c, prog.fnTraitCallee(at, c))
    {
      hide CallGraph.Valid, Known, Says, BodyFound, Ordered;
      ghost var X := Facts();
      var todo := sites;
      while todo != {}
        invariant Ok() && todo <= sites && OnlyCalls(X, Facts())
        invariant forall at :: at in sites - todo ==> TraitCallIn(Facts(), at, c, prog.fnTraitCallee(at, c))
        decreases todo
      {
        var at :| at in todo;
        todo := todo - {at};
        ghost var Y := Facts();
        match prog.fnTraitCallee(at, c) {
          case Callee(f) => AddCallEdge(at.site, f);
          case ThroughPointer => AddFnptrCallsite(at.site, c);
          case NoCallee =>
        }
        MoreFound(prog, Y, Facts());
        forall e, callee | TraitCallIn(Y, e, c, callee) ensures TraitCallIn(Facts(), e, c, callee) {
        }
      }
    }

    method SolveFntraitType(d: Ty)
      requires Ok()
      modifies this`plain, this`fnptrCallsites, callGraph
      ensures Ok() && OnlyCalls(old(Facts()), Facts()) && FnTraitDone(Facts(), d)
    {
      hide CallGraph.Valid, Known, Says, BodyFound, Ordered, EdgeRule, TraitCallIn;
      ghost var X := Facts();
      var sites, todo := Entry(dynFntraitCallsites, d), Entry(concreteTypes, d);
      ghost var all := todo;
      KnownKeepsRules(prog, begun);
      TypesAreFacts(d);
      SitesAreFacts(d);
      while todo != {}
        invariant Ok() && todo <= all && OnlyCalls(X, Facts())
        invariant forall at, c :: at in sites && c in all - todo ==> TraitCallIn(Facts(), at, c, prog.fnTraitCallee(at, c))
        decreases todo
      {
        var c :| c in todo;
        todo := todo - {c};
        ghost var Y := Facts();
        assert Concrete(d, c) in X && forall at :: at in sites ==> FnTraitAt(d, at) in X;
        ResolveFntrait(sites, c);
        TraitCallsKept(Y, Facts());
      }
    }

    method SolveDynFntraitCallsites()
      requires Ok()
      modifies this`plain, this`fnptrCallsites, callGraph
      ensures Ok() && OnlyCalls(old(Facts()), Facts()) && FnTraitRule(prog, Facts())
    {
      hide CallGraph.Valid, Known, Says, BodyFound, Ordered, EdgeRule, TraitCallIn;
      ghost var X := Facts();
      var todo := dynFntraitCallsites.Keys;
      NoTypesNoCalls();
      while todo != {}
        invariant Ok() && todo <= dynFntraitCallsites.Keys && OnlyCalls(X, Facts())
        invariant forall d :: d !in todo ==> FnTraitDone(Facts(), d)
        decreases todo
      {
        var d :| d in todo;
        todo := todo - {d};
        ghost var Y := Facts();
        if d in concreteTypes {
          SolveFntraitType(d);
        } else {
          TypesAreFacts(d);
        }
        TraitCallsKept(Y, Facts());
        forall e | FnTraitDone(Y, e) ensures FnTraitDone(Facts(), e) {
        }
      }
      forall d, at, c | FnTraitAt(d, at) in Facts() && Concrete(d, c) in Facts()
        ensures TraitCallIn(Facts(), at, c, prog.fnTraitCallee(at, c))
      {
        assert FnTraitDone(Facts(), d);
      }
    }

    method AddCallsAt(site: BaseSite, items: set<Ty>)
      requires Ok()
      requires forall item :: item in items ==> CallIn(Known(prog, begun), site, prog.itemFunc(item))
      modifies this`plain, callGraph
      ensures Ok() && OnlyEdges(old(Facts()), Facts())
      ensures forall item :: item in items ==> CallIn(Facts(), site, prog.itemFunc(item))
    {
      hide CallGraph.Valid, Known, Says, BodyFound, Ordered, EdgeRule;
      ghost var X := Facts();
      var todo := items;
      while todo != {}
        invariant Ok() && todo <= items && OnlyEdges(X, Facts())
        invariant forall item :: item in items - todo ==> CallIn(Facts(), site, prog.itemFunc(item))
        decreases todo
      {
        var item :| item in todo;
        todo := todo - {item};
        AddCallEdge(site, prog.itemFunc(item));
      }
    }

    method AddCallsTo(sites: set<BaseSite>, items: set<Ty>)
      requires Ok()
      requires forall site, item :: site in sites && item in items ==> CallIn(Known(prog, begun), site, prog.itemFunc(item))
      modifies this`plain, callGraph
      ensures Ok() && OnlyEdges(old(Facts()), Facts())
      ensures forall site, item :: site in sites && item in items ==> CallIn(Facts(), site, prog.itemFunc(item))
    {
      hide CallGraph.Valid, Known, Says, BodyFound, Ordered, EdgeRule;
      ghost var X := Facts();
      var todo := sites;
      while todo != {}
        invariant Ok() && todo <= sites && OnlyEdges(X, Facts())
        invariant forall site, item :: site in sites && site !in todo && item in items ==> CallIn(Facts(), site, prog.itemFunc(item))
        decreases todo
      {
        var site :| site in todo;
        todo := todo - {site};
        AddCallsAt(site, items);
      }
    }

    lemma TargetsAreFacts()
      requires callGraph.Valid()
      ensures forall sig, item :: item in Entry(fnptrTargets, sig) <==> Target(sig, item) in Facts()
    {
    }

    ghost predicate TargetsCalled(sites: set<BaseSite>, sig: FnSig)
      requires callGraph.Valid()
      reads this, callGraph
    {
      forall site, item :: site in sites && item in Entry(fnptrTargets, sig) ==> CallIn(Facts(), site, prog.itemFunc(item))
    }

    method SolveFnptrType(p: Ty)
      requires Ok()
      modifies this`plain, callGraph
      ensures Ok() && OnlyEdges(old(Facts()), Facts()) && FnPtrDone(Facts(), p)
    {
      hide CallGraph.Valid, Known, Says, BodyFound, Ordered, EdgeRule;
      ghost var X := Facts();
      var sites, todo := Entry(fnptrCallsites, p), fnptrTargets.Keys;
      KnownKeepsRules(prog, begun);
      SitesAreFacts(p);
      TargetsAreFacts();
      while todo != {}
        invariant Ok() && todo <= fnptrTargets.Keys && OnlyEdges(X, Facts())
        invariant forall sig :: sig in fnptrTargets && sig !in todo && Matched(prog, p, sig) ==> TargetsCalled(sites, sig)
        decreases todo
      {
        var sig :| sig in todo;
        todo := todo - {sig};
        if Matched(prog, p, sig) {
          assert forall item :: item in fnptrTargets[sig] ==> Target(sig, item) in X;
          assert forall site :: site in sites ==> FnPtrAt(p, site) in X;
          AddCallsTo(sites, fnptrTargets[sig]);
        }
      }
      forall site, sig, item | FnPtrAt(p, site) in Facts() && Target(sig, item) in Facts() && Matched(prog, p, sig)
        ensures CallIn(Facts(), site, prog.itemFunc(item))
      {
        assert item in Entry(fnptrTargets, sig);
        assert TargetsCalled(sites, sig);
      }
    }

    method SolveFnptrCallsites()
      requires Ok()
      modifies this`plain, callGraph
      ensures Ok() && OnlyEdges(old(Facts()), Facts()) && FnPtrRule(prog, Facts())
    {
      hide CallGraph.Valid, Known, Says, BodyFound, Ordered, EdgeRule;
      ghost var X := Facts();
      var todo := fnptrCallsites.Keys;
      NoTypesNoCalls();
      while todo != {}
        invariant Ok() && todo <= fnptrCallsites.Keys && OnlyEdges(X, Facts())
        invariant forall p :: p !in todo ==> FnPtrDone(Facts(), p)
        decreases todo
      {
        var p :| p in todo;
        todo := todo - {p};
        ghost var Y := Facts();
        SolveFnptrType(p);
        forall q | FnPtrDone(Y, q) ensures FnPtrDone(Facts(), q) {
        }
      }
      forall p, site, sig, item | FnPtrAt(p, site) in Facts() && Target(sig, item) in Facts() && Matched(prog, p, sig)
        ensures CallIn(Facts(), site, prog.itemFunc(item))
      {
        assert FnPtrDone(Facts(), p);
      }
    }

    // ----- the analysis

    ghost predicate Settled()
      requires callGraph.Valid()
      reads this, callGraph
    {
      UpcastRule(Facts()) && DynRule(prog, Facts()) && FnTraitRule(prog, Facts()) && FnPtrRule(prog, Facts())
    }

    /** One round over the call sites: afterwards every rule about types and call sites is satisfied. */
    method SolveAll(ghost bound: set<Fact>)
      requires Ok() && Rest() && forall i :: i in Least(prog, iset{}) ==> i in bound
      modifies this`plain, this`concreteTypes, this`fnptrCallsites, callGraph
      ensures Ok() && Rest() && Settled() && old(Facts()) <= Facts()
    {
      hide CallGraph.Valid, Known, Says, BodyFound, Ordered, EdgeRule, Least, UpcastRule, DynRule, FnTraitRule,
           FnPtrRule, OnlyEdges, OnlyCalls;
      SolveTraitUpcasting(bound);
      ghost var X1 := Facts();
      SolveDynCallsites();
      ghost var X2 := Facts();
      SolveDynFntraitCallsites();
      ghost var X3 := Facts();
      SolveFnptrCallsites();
      RulesKept(prog, X1, X2, X3, Facts());
    }

    method IterativelyProcessReachableFunctions(ghost bound: set<Fact>)
      requires Ok() && Rest() && rfIter < |callGraph.nodes| && Plain(prog.entry) in Facts()
      requires forall i :: i in Least(prog, iset{}) ==> i in bound
      modifies this, callGraph
      ensures Ok() && Rest() && rfIter == |callGraph.nodes| && Plain(prog.entry) in Facts() && Settled()
      ensures Ordered(prog, callGraph.nodes, entered, skipped)
      ensures forall f :: f in speciallyHandled <==> CalledSpecially(prog, entered, f)
    {
      hide CallGraph.Valid, Known, Says, BodyFound, Ordered, EdgeRule, Least, UpcastRule, DynRule, FnTraitRule,
           FnPtrRule;
      while true
        invariant Ok() && Rest() && Plain(prog.entry) in Facts()
        invariant rfIter < |callGraph.nodes| || Settled()
        decreases |FuncsIn(bound)| - rfIter
      {
        var hasNew := ProcessReachableFunctions(bound);
        if !hasNew {
          break;
        }
        SolveAll(bound);
        NodesFit(bound);
      }
      assert callGraph.nodes[..rfIter] == callGraph.nodes;
    }

    /** When the queue is empty and every rule is satisfied, the result is the least closed set in which the
        functions that were passed over contribute nothing. */
    lemma ResultIsLeast()
      requires Ok() && Rest() && rfIter == |callGraph.nodes| && Plain(prog.entry) in Facts() && Settled()
      ensures Facts() == Least(prog, skipped)
      ensures Ordered(prog, callGraph.nodes, entered, skipped)
      ensures forall f :: Reach(f) in Facts() <==> f in callGraph.nodes
    {
      hide CallGraph.Valid, Known, BodyFound, UpcastRule, DynRule, FnTraitRule, FnPtrRule, Least;
      assert callGraph.nodes[..rfIter] == callGraph.nodes;
      forall f | Reach(f) in Facts() && f !in skipped ensures BodyFound(prog, Facts(), f) {
        assert f in callGraph.nodes;
        NoBodyFound(prog, Facts(), f);
      }
      LeastIsBelow(prog, skipped, Facts());
      KnownInLeast(prog, begun, skipped);
    }
  }

  /** The functions that a finite set of facts reaches. */
  ghost function FuncsIn(bound: set<Fact>): set<FuncId>
  {
    set i | i in bound && i.Reach? :: i.func
  }

  lemma {:induction false} DistinctFit(nodes: seq<FuncId>, all: set<FuncId>)
    requires forall i, j :: 0 <= i < j < |nodes| ==> nodes[i] != nodes[j]
    requires forall f :: f in nodes ==> f in all
    ensures |nodes| <= |all|
  {
    if nodes != [] {
      var last := nodes[|nodes| - 1];
      DistinctFit(nodes[..|nodes| - 1], all - {last});
    }
  }

  ghost function MissingFacts(bound: set<Fact>, X: iset<Fact>): set<Fact>
  {
    set i | i in bound && i !in X
  }

  /** Only calls and reached functions have been added. */
  ghost predicate OnlyEdges(X: iset<Fact>, Y: iset<Fact>)
  {
    X <= Y && forall i :: i in Y && i !in X ==> i.Calls? || i.Reach? || i.Plain?
  }

  /** Only calls, reached functions and function-pointer call sites have been added. */
  ghost predicate OnlyCalls(X: iset<Fact>, Y: iset<Fact>)
  {
    X <= Y && forall i :: i in Y && i !in X ==> i.Calls? || i.Reach? || i.Plain? || i.FnPtrAt?
  }

  lemma TraitCallsKept(X: iset<Fact>, Y: iset<Fact>)
    requires X <= Y
    ensures forall at, c, callee :: TraitCallIn(X, at, c, callee) ==> TraitCallIn(Y, at, c, callee)
  {
  }

  /** Later solvers add nothing that earlier rules look at. */
  lemma RulesKept(prog: Program, X1: iset<Fact>, X2: iset<Fact>, X3: iset<Fact>, X4: iset<Fact>)
    requires UpcastRule(X1) && OnlyEdges(X1, X2) && DynRule(prog, X2) && OnlyCalls(X2, X3) && FnTraitRule(prog, X3)
    requires OnlyEdges(X3, X4)
    ensures UpcastRule(X4) && DynRule(prog, X4) && FnTraitRule(prog, X4) && X1 <= X4
  {
  }

  /** The whole analysis: call edges, reachable functions, concrete types and call sites are the least set
      closed under the rules, in which the bodies of the functions that were passed over contribute nothing.
      Those are exactly the ones that a function entered earlier calls specially; the entry is not one of them.
      When no special callee is reached otherwise the result does not depend on the order. */
  method Analyze(prog: Program, ghost bound: set<Fact>) returns (rta: RapidTypeAnalysis)
    requires forall i :: i in Least(prog, iset{}) ==> i in bound
    ensures rta.prog == prog && rta.callGraph.Valid()
    ensures rta.Facts() == Least(prog, rta.skipped)
    ensures rta.callGraph.nodes != [] && rta.callGraph.nodes[0] == prog.entry && prog.entry !in rta.skipped
    ensures Ordered(prog, rta.callGraph.nodes, rta.entered, rta.skipped)
    ensures forall f :: f in rta.speciallyHandled <==> CalledSpecially(prog, rta.entered, f)
    ensures Least(prog, Specials(prog)) <= rta.Facts() <= Least(prog, iset{})
    ensures rta.Facts() == Least(prog, iset{}) <==> forall f :: f in rta.skipped ==> BodyFound(prog, rta.Facts(), f)
    ensures NeverBothWays(prog) ==> rta.Facts() == Least(prog, Specials(prog))
    ensures forall f, fact ::
      (f in rta.entered && prog.body(f).Some? && Find(fact) in prog.body(f).value
       && !fact.Reach? && !fact.Plain? && (fact.Upcast? ==> fact.src != fact.tgt)) ==> fact in rta.Facts()
    ensures forall f, site, callee ::
      f in rta.entered && prog.body(f).Some? && Find(Calls(site, callee)) in prog.body(f).value ==> Plain(callee) in rta.Facts()
    ensures forall f, site, callee ::
      f in rta.entered && prog.body(f).Some? && CallSpecial(site, callee) in prog.body(f).value ==>
      Calls(site, callee) in rta.Facts() && callee in rta.speciallyHandled
  {
    hide CallGraph.Valid, Known, BodyFound, Least, UpcastRule, DynRule, FnTraitRule, FnPtrRule,
         RapidTypeAnalysis.Says, Ordered, CalledSpecially, Specials, NeverBothWays;
    rta := new RapidTypeAnalysis(prog);
    rta.AddEntry();
    rta.IterativelyProcessReachableFunctions(bound);
    rta.ResultIsLeast();
    ReachedAreNodes(rta);
    SkippedAreSpecial(prog, rta.callGraph.nodes, rta.entered, rta.skipped);
    BetweenTheExtremes(prog, rta.callGraph.nodes, rta.entered, rta.skipped);
    FoundEverythingExactly(prog, rta.skipped);
    if NeverBothWays(prog) {
      OrderDoesNotMatter(prog, rta.callGraph.nodes, rta.entered, rta.skipped);
    }
    forall f | f in rta.entered && prog.body(f).Some? ensures BodyFound(prog, rta.Facts(), f) {
      EnteredAreFound(prog, rta.callGraph.nodes, rta.entered, rta.skipped, f);
    }
    EnteredAreRecorded(prog, rta.Facts(), rta.entered, rta.speciallyHandled);
  }

  lemma EnteredAreRecorded(prog: Program, X: iset<Fact>, entered: iset<FuncId>, special: set<FuncId>)
    requires forall f :: f in entered && prog.body(f).Some? ==> BodyFound(prog, X, f)
    requires forall f :: f in special <==> CalledSpecially(prog, entered, f)
    ensures forall f, fact ::
      (f in entered && prog.body(f).Some? && Find(fact) in prog.body(f).value
       && !fact.Reach? && !fact.Plain? && (fact.Upcast? ==> fact.src != fact.tgt)) ==> fact in X
    ensures forall f, site, callee ::
      f in entered && prog.body(f).Some? && Find(Calls(site, callee)) in prog.body(f).value ==> Plain(callee) in X
    ensures forall f, site, callee ::
      f in entered && prog.body(f).Some? && CallSpecial(site, callee) in prog.body(f).value ==>
      Calls(site, callee) in X && callee in special
  {
    hide BodyFound;
    forall f | f in entered && prog.body(f).Some?
      ensures forall fact :: Find(fact) in prog.body(f).value && !fact.Reach? && !fact.Plain? && (fact.Upcast? ==> fact.src != fact.tgt) ==>
        fact in X
      ensures forall site, callee :: Find(Calls(site, callee)) in prog.body(f).value ==> Plain(callee) in X
      ensures forall site, callee :: CallSpecial(site, callee) in prog.body(f).value ==> Calls(site, callee) in X
    {
      BodyIsRecorded(prog, X, f);
    }
    forall f, site, callee | f in entered && prog.body(f).Some? && CallSpecial(site, callee) in prog.body(f).value
      ensures callee in special
    {
      assert callee in SpecialsOf(prog.body(f).value);
    }
  }

  lemma EnteredAreFound(prog: Program, nodes: seq<FuncId>, entered: iset<FuncId>, skipped: iset<FuncId>, f: FuncId)
    requires Ordered(prog, nodes, entered, skipped) && f in entered
    requires forall g :: g in nodes ==> Reach(g) in Least(prog, skipped)
    ensures BodyFound(prog, Least(prog, skipped), f)
  {
    hide Least, Known, BodyFound, CalledSpecially;
    LeastIsClosed(prog, skipped);
    var j :| 0 <= j < |nodes| && nodes[j] == f;
  }

  lemma ReachedAreNodes(rta: RapidTypeAnalysis)
    requires rta.callGraph.Valid()
    ensures forall f :: f in rta.callGraph.nodes <==> Reach(f) in rta.Facts()
  {
  }
}
