/** Everything that rapid type analysis finds has a reason, and everything that has a reason is found. */
module RtaReasons {
  import opened Options
  import opened Paths
  import opened CallGraph
  import opened RtaRules

  /** A reached function outside `skip` does it. */
  ghost predicate Done(prog: Program, skip: iset<FuncId>, X: iset<Fact>, a: Action)
  {
    exists f :: Reach(f) in X && f !in skip && prog.body(f).Some? && a in prog.body(f).value
  }

  /** A trait method is called on a trait object, and resolves to f for a type that the object may have. */
  ghost predicate ByMethod(prog: Program, X: iset<Fact>, site: BaseSite, f: FuncId)
  {
    exists d, at, t :: DynAt(d, at) in X && Concrete(d, t) in X && at.site == site && prog.devirtualize(at, t) == Some(f)
  }

  /** A `dyn Fn*` object is called, and f is what it means for a type that the object may have. */
  ghost predicate ByTrait(prog: Program, X: iset<Fact>, site: BaseSite, f: FuncId)
  {
    exists d, at, t :: FnTraitAt(d, at) in X && Concrete(d, t) in X && at.site == site && prog.fnTraitCallee(at, t) == Callee(f)
  }

  /** A function pointer is called, and f is a target whose signature matches. */
  ghost predicate ByPointer(prog: Program, X: iset<Fact>, site: BaseSite, f: FuncId)
  {
    exists p, sig, item :: FnPtrAt(p, site) in X && Target(sig, item) in X && prog.itemFunc(item) == f
      && prog.sigOf(p).Some? && prog.matchedFnSig(prog.sigOf(p).value, sig)
  }

  ghost predicate CalledPlainly(prog: Program, skip: iset<FuncId>, X: iset<Fact>, site: BaseSite, f: FuncId)
  {
    Done(prog, skip, X, Find(Calls(site, f))) || ByMethod(prog, X, site, f) || ByTrait(prog, X, site, f) || ByPointer(prog, X, site, f)
  }

  ghost predicate ThroughDynFn(prog: Program, X: iset<Fact>, ptrTy: Ty, site: BaseSite)
  {
    exists d, at :: FnTraitAt(d, at) in X && Concrete(d, ptrTy) in X && at.site == site && prog.fnTraitCallee(at, ptrTy) == ThroughPointer
  }

  ghost predicate Reason(prog: Program, skip: iset<FuncId>, X: iset<Fact>, i: Fact)
  {
    match i
    case Reach(f) => Plain(f) in X || exists site :: Calls(site, f) in X
    case Plain(f) =>
      || f == prog.entry || (exists site, g :: Calls(site, g) in X && site.func == f)
      || exists site :: CalledPlainly(prog, skip, X, site, f)
    case Calls(site, f) => CalledPlainly(prog, skip, X, site, f) || Done(prog, skip, X, CallSpecial(site, f))
    case Concrete(t, c) => Done(prog, skip, X, Find(i)) || exists s :: Upcast(s, t) in X && Concrete(s, c) in X
    case FnPtrAt(p, site) => Done(prog, skip, X, Find(i)) || ThroughDynFn(prog, X, p, site)
    case Upcast(s, t) => s != t && Done(prog, skip, X, Find(i))
    case _ => Done(prog, skip, X, Find(i))
  }

  /** The least set holds exactly the facts for which it holds a reason. */
  lemma FoundExactly(prog: Program, skip: iset<FuncId>, i: Fact)
    ensures i in Least(prog, skip) <==> Reason(prog, skip, Least(prog, skip), i)
  {
    hide Least, Reason;
    var L := Least(prog, skip);
    LeastIsClosed(prog, skip);
    if Reason(prog, skip, L, i) {
      ReasonedIsFound(prog, skip, L, i);
    }
    var Y := iset j: Fact | j in L && Reason(prog, skip, L, j);
    ReasonedIsClosed(prog, skip, L, Y);
    LeastIsBelow(prog, skip, Y);
  }

  lemma DoneIsRecorded(prog: Program, skip: iset<FuncId>, L: iset<Fact>, a: Action)
    requires Closed(prog, skip, L) && Done(prog, skip, L, a)
    ensures a.Find? && !a.fact.Reach? && !a.fact.Plain? && (a.fact.Upcast? ==> a.fact.src != a.fact.tgt) ==> a.fact in L
    ensures a.Find? && a.fact.Calls? ==> Plain(a.fact.callee) in L
    ensures a.CallSpecial? ==> Calls(a.site, a.callee) in L
  {
    hide Trivial, FoundIn, Rules;
    var f :| Reach(f) in L && f !in skip && prog.body(f).Some? && a in prog.body(f).value;
    assert BodyFound(prog, L, f);
    ActionIsRecorded(L, a);
  }

  lemma CalledIsFound(prog: Program, skip: iset<FuncId>, L: iset<Fact>, site: BaseSite, f: FuncId)
    requires Closed(prog, skip, L) && CalledPlainly(prog, skip, L, site, f)
    ensures Calls(site, f) in L && Plain(f) in L
  {
    hide BodyFound, Done, EdgeRule, UpcastRule;
    if Done(prog, skip, L, Find(Calls(site, f))) {
      DoneIsRecorded(prog, skip, L, Find(Calls(site, f)));
    } else if ByTrait(prog, L, site, f) {
      var d, at, t :| FnTraitAt(d, at) in L && Concrete(d, t) in L && at.site == site && prog.fnTraitCallee(at, t) == Callee(f);
      assert TraitCallIn(L, at, t, prog.fnTraitCallee(at, t));
    }
  }

  lemma ReasonedIsFound(prog: Program, skip: iset<FuncId>, L: iset<Fact>, i: Fact)
    requires Closed(prog, skip, L) && Reason(prog, skip, L, i)
    ensures i in L
  {
    hide BodyFound, Done, CalledPlainly, DynRule, FnPtrRule;
    match i
    case Reach(f) =>
    case Plain(f) =>
      if site :| CalledPlainly(prog, skip, L, site, f) {
        CalledIsFound(prog, skip, L, site, f);
      }
    case Calls(site, f) =>
      if CalledPlainly(prog, skip, L, site, f) {
        CalledIsFound(prog, skip, L, site, f);
      } else {
        DoneIsRecorded(prog, skip, L, CallSpecial(site, f));
      }
    case FnPtrAt(p, site) =>
      if Done(prog, skip, L, Find(i)) {
        DoneIsRecorded(prog, skip, L, Find(i));
      } else {
        var d, at :| FnTraitAt(d, at) in L && Concrete(d, p) in L && at.site == site && prog.fnTraitCallee(at, p) == ThroughPointer;
        assert TraitCallIn(L, at, p, prog.fnTraitCallee(at, p));
      }
    case Concrete(t, c) =>
      if Done(prog, skip, L, Find(i)) {
        DoneIsRecorded(prog, skip, L, Find(i));
      }
    case _ => DoneIsRecorded(prog, skip, L, Find(i));
  }

  /** What follows from facts with reasons has one. */
  lemma ReasonedIsClosed(prog: Program, skip: iset<FuncId>, L: iset<Fact>, Y: iset<Fact>)
    requires Closed(prog, skip, L) && forall j :: j in Y <==> j in L && Reason(prog, skip, L, j)
    ensures Closed(prog, skip, Y)
  {
    hide Reason, BodyFound, Rules;
    RulesKeepReasons(prog, skip, L, Y);
    forall f | Reach(f) in Y && f !in skip ensures BodyFound(prog, Y, f) {
      assert BodyFound(prog, L, f);
      BodiesAreReasons(prog, skip, L, Y, f);
    }
  }

  lemma BodiesAreReasons(prog: Program, skip: iset<FuncId>, L: iset<Fact>, Y: iset<Fact>, f: FuncId)
    requires forall j :: j in Y <==> j in L && Reason(prog, skip, L, j)
    requires Reach(f) in L && f !in skip && BodyFound(prog, L, f)
    ensures BodyFound(prog, Y, f)
  {
    hide ByMethod, ByTrait, ByPointer, ThroughDynFn;
    if prog.body(f).Some? {
      forall a | a in prog.body(f).value && !Trivial(a) ensures FoundIn(Y, a) {
        assert FoundIn(L, a);
        assert Done(prog, skip, L, a);
        if a.Find? && a.fact.Calls? {
          assert CalledPlainly(prog, skip, L, a.fact.site, a.fact.callee);
        }
      }
    }
  }

  lemma RulesKeepReasons(prog: Program, skip: iset<FuncId>, L: iset<Fact>, Y: iset<Fact>)
    requires Rules(prog, L) && forall j :: j in Y <==> j in L && Reason(prog, skip, L, j)
    ensures Rules(prog, Y)
  {
    hide Reason, DynRule, FnTraitRule, FnPtrRule;
    EdgesAreReasons(prog, skip, L, Y);
    MethodsAreReasons(prog, skip, L, Y);
    TraitsAreReasons(prog, skip, L, Y);
    PointersAreReasons(prog, skip, L, Y);
  }

  lemma EdgesAreReasons(prog: Program, skip: iset<FuncId>, L: iset<Fact>, Y: iset<Fact>)
    requires EdgeRule(L) && UpcastRule(L) && Plain(prog.entry) in L && forall j :: j in Y <==> j in L && Reason(prog, skip, L, j)
    ensures EdgeRule(Y) && UpcastRule(Y) && Plain(prog.entry) in Y
  {
    hide CalledPlainly, Done, ThroughDynFn;
  }

  lemma PlainCallIn(prog: Program, skip: iset<FuncId>, L: iset<Fact>, Y: iset<Fact>, site: BaseSite, f: FuncId)
    requires CallIn(L, site, f) && CalledPlainly(prog, skip, L, site, f) && forall j :: j in Y <==> j in L && Reason(prog, skip, L, j)
    ensures CallIn(Y, site, f)
  {
    hide CalledPlainly, Done, ThroughDynFn;
  }

  lemma MethodsAreReasons(prog: Program, skip: iset<FuncId>, L: iset<Fact>, Y: iset<Fact>)
    requires DynRule(prog, L) && forall j :: j in Y <==> j in L && Reason(prog, skip, L, j)
    ensures DynRule(prog, Y)
  {
    hide Reason, CallIn;
    forall d, at, t | DynAt(d, at) in Y && Concrete(d, t) in Y && prog.devirtualize(at, t).Some?
      ensures CallIn(Y, at.site, prog.devirtualize(at, t).value)
    {
      assert ByMethod(prog, L, at.site, prog.devirtualize(at, t).value);
      PlainCallIn(prog, skip, L, Y, at.site, prog.devirtualize(at, t).value);
    }
  }

  lemma TraitsAreReasons(prog: Program, skip: iset<FuncId>, L: iset<Fact>, Y: iset<Fact>)
    requires FnTraitRule(prog, L) && forall j :: j in Y <==> j in L && Reason(prog, skip, L, j)
    ensures FnTraitRule(prog, Y)
  {
    hide Reason, CallIn;
    forall d, at, t | FnTraitAt(d, at) in Y && Concrete(d, t) in Y ensures TraitCallIn(Y, at, t, prog.fnTraitCallee(at, t)) {
      assert TraitCallIn(L, at, t, prog.fnTraitCallee(at, t));
      match prog.fnTraitCallee(at, t)
      case Callee(f) =>
        assert ByTrait(prog, L, at.site, f);
        PlainCallIn(prog, skip, L, Y, at.site, f);
      case ThroughPointer =>
        assert ThroughDynFn(prog, L, t, at.site);
        PointerReason(prog, skip, L, t, at.site);
      case NoCallee =>
    }
  }

  lemma PointerReason(prog: Program, skip: iset<FuncId>, L: iset<Fact>, t: Ty, site: BaseSite)
    requires ThroughDynFn(prog, L, t, site)
    ensures Reason(prog, skip, L, FnPtrAt(t, site))
  {
  }

  lemma PointersAreReasons(prog: Program, skip: iset<FuncId>, L: iset<Fact>, Y: iset<Fact>)
    requires FnPtrRule(prog, L) && forall j :: j in Y <==> j in L && Reason(prog, skip, L, j)
    ensures FnPtrRule(prog, Y)
  {
    hide Reason, CallIn;
    forall p, site, sig, item | FnPtrAt(p, site) in Y && Target(sig, item) in Y && Matched(prog, p, sig)
      ensures CallIn(Y, site, prog.itemFunc(item))
    {
      assert ByPointer(prog, L, site, prog.itemFunc(item));
      PlainCallIn(prog, skip, L, Y, site, prog.itemFunc(item));
    }
  }
}
