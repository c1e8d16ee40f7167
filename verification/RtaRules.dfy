/** The rules of rapid type analysis (src/rta/rta.rs): reachable functions, call edges, concrete types of trait
    objects, upcasting, and the call sites that they decide. */
module RtaRules {
  import opened Options
  import opened Paths
  import opened CallGraph

  type Ty = nat
  type FnSig = nat

  /** A dynamic call site with the declared callee and its generic arguments. */
  datatype GenericSite = GenericSite(site: BaseSite, callee: DefId, args: nat)

  /** What the analysis finds out. */
  datatype Fact =
    | Reach(func: FuncId)
    /** Reached in some way other than a special call: as the entry, the caller or the callee of a call. */
    | Plain(func: FuncId)
    | Calls(site: BaseSite, callee: FuncId)
    | Concrete(dynTy: Ty, concrete: Ty)
    | Upcast(src: Ty, tgt: Ty)
    | DynAt(dynTy: Ty, at: GenericSite)
    | FnTraitAt(dynTy: Ty, at: GenericSite)
    | FnPtrAt(ptrTy: Ty, site: BaseSite)
    | Target(sig: FnSig, item: Ty)

  /** What the visitor does when it reads a body, in order. */
  datatype Action = Find(fact: Fact) | CallSpecial(site: BaseSite, callee: FuncId)

  /** What a `dyn Fn*` call on a concrete type is. */
  datatype TraitCallee = Callee(func: FuncId) | ThroughPointer | NoCallee

  /** What the compiler says about the program; any total functions. */
  datatype Program = Program(
    entry: FuncId,
    /** What visiting a function finds, its promoted constants and statics included; None without MIR. */
    body: FuncId -> Option<seq<Action>>,
    /** The method that a trait call resolves to for a concrete type. */
    devirtualize: (GenericSite, Ty) -> Option<FuncId>,
    fnTraitCallee: (GenericSite, Ty) -> TraitCallee,
    /** The signature of a function-pointer type. */
    sigOf: Ty -> Option<FnSig>,
    matchedFnSig: (FnSig, FnSig) -> bool,
    /** The function of a function item or closure type. */
    itemFunc: Ty -> FuncId)

  /** What an action finds. Trivial upcasts are not recorded. */
  function Found(a: Action): Fact
  {
    match a
    case Find(fact) => fact
    case CallSpecial(site, callee) => Calls(site, callee)
  }

  predicate Trivial(a: Action)
  {
    a.Find? && ((a.fact.Upcast? && a.fact.src == a.fact.tgt) || a.fact.Reach? || a.fact.Plain?)
  }

  /** The functions that a body calls specially. */
  function SpecialsOf(body: seq<Action>): set<FuncId>
  {
    set a | a in body && a.CallSpecial? :: a.callee
  }

  /** An ordinary call. */
  ghost predicate CallIn(X: iset<Fact>, site: BaseSite, f: FuncId)
  {
    Calls(site, f) in X && Plain(f) in X
  }

  ghost predicate FoundIn(X: iset<Fact>, a: Action)
  {
    Found(a) in X && (a.Find? && a.fact.Calls? ==> Plain(a.fact.callee) in X)
  }

  ghost predicate BodyFound(prog: Program, X: iset<Fact>, f: FuncId)
  {
    prog.body(f).Some? ==> forall a :: a in prog.body(f).value && !Trivial(a) ==> FoundIn(X, a)
  }

  /** Whatever an action finds is recorded, but for reachability, which the queue takes care of, and upcasts of a
      type to itself. */
  lemma ActionIsRecorded(X: iset<Fact>, a: Action)
    requires Trivial(a) || FoundIn(X, a)
    ensures a.Find? && !a.fact.Reach? && !a.fact.Plain? && (a.fact.Upcast? ==> a.fact.src != a.fact.tgt) ==> a.fact in X
    ensures a.Find? && a.fact.Calls? ==> Plain(a.fact.callee) in X
    ensures a.CallSpecial? ==> Calls(a.site, a.callee) in X
  {
  }

  /** Everything that a visited body does is recorded. */
  lemma BodyIsRecorded(prog: Program, X: iset<Fact>, f: FuncId)
    requires BodyFound(prog, X, f) && prog.body(f).Some?
    ensures forall fact :: Find(fact) in prog.body(f).value && !fact.Reach? && !fact.Plain? && (fact.Upcast? ==> fact.src != fact.tgt) ==>
      fact in X
    ensures forall site, callee :: Find(Calls(site, callee)) in prog.body(f).value ==> Plain(callee) in X
    ensures forall site, callee :: CallSpecial(site, callee) in prog.body(f).value ==> Calls(site, callee) in X
  {
    hide Trivial, FoundIn;
    forall a | a in prog.body(f).value
      ensures a.Find? && !a.fact.Reach? && !a.fact.Plain? && (a.fact.Upcast? ==> a.fact.src != a.fact.tgt) ==> a.fact in X
      ensures a.Find? && a.fact.Calls? ==> Plain(a.fact.callee) in X
      ensures a.CallSpecial? ==> Calls(a.site, a.callee) in X
    {
      ActionIsRecorded(X, a);
    }
  }

  ghost predicate EdgeRule(X: iset<Fact>)
  {
    && (forall site, f :: Calls(site, f) in X ==> Reach(f) in X && Plain(site.func) in X)
    && (forall f :: Plain(f) in X ==> Reach(f) in X)
  }

  ghost predicate UpcastRule(X: iset<Fact>)
  {
    forall s, t, c :: Upcast(s, t) in X && Concrete(s, c) in X ==> Concrete(t, c) in X
  }

  ghost predicate DynRule(prog: Program, X: iset<Fact>)
  {
    forall d, at, c :: DynAt(d, at) in X && Concrete(d, c) in X && prog.devirtualize(at, c).Some? ==>
      CallIn(X, at.site, prog.devirtualize(at, c).value)
  }

  ghost predicate TraitCallIn(X: iset<Fact>, at: GenericSite, c: Ty, callee: TraitCallee)
  {
    match callee
    case Callee(f) => CallIn(X, at.site, f)
    case ThroughPointer => FnPtrAt(c, at.site) in X
    case NoCallee => true
  }

  ghost predicate FnTraitRule(prog: Program, X: iset<Fact>)
  {
    forall d, at, c :: FnTraitAt(d, at) in X && Concrete(d, c) in X ==> TraitCallIn(X, at, c, prog.fnTraitCallee(at, c))
  }

  predicate Matched(prog: Program, ptrTy: Ty, sig: FnSig)
  {
    prog.sigOf(ptrTy).Some? && prog.matchedFnSig(prog.sigOf(ptrTy).value, sig)
  }

  ghost predicate FnPtrRule(prog: Program, X: iset<Fact>)
  {
    forall p, site, sig, item :: FnPtrAt(p, site) in X && Target(sig, item) in X && Matched(prog, p, sig) ==>
      CallIn(X, site, prog.itemFunc(item))
  }

  ghost predicate Rules(prog: Program, X: iset<Fact>)
  {
    Plain(prog.entry) in X && EdgeRule(X) && UpcastRule(X) && DynRule(prog, X) && FnTraitRule(prog, X) && FnPtrRule(prog, X)
  }

  /** X is closed under the rules, and holds the bodies of the reached functions outside `skip`. */
  ghost predicate Closed(prog: Program, skip: iset<FuncId>, X: iset<Fact>)
  {
    Rules(prog, X) && forall f {:trigger BodyFound(prog, X, f)} :: Reach(f) in X && f !in skip ==> BodyFound(prog, X, f)
  }

  ghost predicate InEveryClosed(prog: Program, skip: iset<FuncId>, i: Fact)
  {
    forall X: iset<Fact> :: Closed(prog, skip, X) ==> i in X
  }

  /** The least closed set, when the bodies of some functions are left out. */
  ghost function Least(prog: Program, skip: iset<FuncId>): iset<Fact>
  {
    iset i: Fact | InEveryClosed(prog, skip, i)
  }

  /** Leaving out fewer bodies finds more. */
  lemma LeastAntitone(prog: Program, skip: iset<FuncId>, more: iset<FuncId>)
    requires skip <= more
    ensures Least(prog, more) <= Least(prog, skip)
  {
  }

  lemma LeastIsBelow(prog: Program, skip: iset<FuncId>, X: iset<Fact>)
    requires Closed(prog, skip, X)
    ensures Least(prog, skip) <= X
  {
  }

  /** The least set is closed. */
  lemma LeastIsClosed(prog: Program, skip: iset<FuncId>)
    ensures Closed(prog, skip, Least(prog, skip))
  {
    LeastKeepsRules(prog, skip);
    var L := Least(prog, skip);
    forall f | Reach(f) in L && f !in skip ensures BodyFound(prog, L, f) {
      forall X: iset<Fact> | Closed(prog, skip, X) ensures BodyFound(prog, X, f) {
      }
    }
  }

  lemma LeastKeepsRules(prog: Program, skip: iset<FuncId>)
    ensures Rules(prog, Least(prog, skip))
  {
  }
}
