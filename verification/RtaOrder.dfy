/** The order in which rapid type analysis takes functions from its queue (src/rta/rta.rs:103-132): which of
    them are passed over as special, and what that changes. */
module RtaOrder {
  import opened Options
  import opened Paths
  import opened CallGraph
  import opened RtaRules

  /** What is found however further functions are treated: in every closed set that leaves out no body that
      has been visited. */
  ghost function Known(prog: Program, entered: iset<FuncId>): iset<Fact>
  {
    iset i: Fact | Follows(prog, entered, i)
  }

  ghost predicate Follows(prog: Program, entered: iset<FuncId>, i: Fact)
  {
    forall skip: iset<FuncId> {:trigger Least(prog, skip)} :: skip !! entered ==> i in Least(prog, skip)
  }

  /** A body among the given ones calls the function specially. */
  ghost predicate CalledSpecially(prog: Program, entered: iset<FuncId>, f: FuncId)
  {
    exists g :: g in entered && prog.body(g).Some? && f in SpecialsOf(prog.body(g).value)
  }

  /** The entered functions among the first ones of the queue. */
  ghost function Before(taken: seq<FuncId>, entered: iset<FuncId>, j: nat): iset<FuncId>
    requires j <= |taken|
  {
    iset f | f in entered && f in taken[..j]
  }

  /** What was done with the functions in the order in which they were taken from the queue: a function is
      passed over exactly when the body of one entered earlier calls it specially; every other function with a
      body is entered, and was known to be reached otherwise. */
  ghost predicate Ordered(prog: Program, taken: seq<FuncId>, entered: iset<FuncId>, skipped: iset<FuncId>)
  {
    && (forall f :: f in entered || f in skipped ==> f in taken)
    && (forall j :: 0 <= j < |taken| ==> (taken[j] in skipped <==> CalledSpecially(prog, Before(taken, entered, j), taken[j])))
    && (forall j :: 0 <= j < |taken| ==> (taken[j] in entered <==> taken[j] !in skipped && prog.body(taken[j]).Some?))
    && (forall j :: 0 <= j < |taken| && taken[j] in entered ==> Plain(taken[j]) in Known(prog, Before(taken, entered, j)))
  }

  /** The same in the program's own terms. */
  lemma OrderSays(prog: Program, nodes: seq<FuncId>, entered: iset<FuncId>, skipped: iset<FuncId>, j: nat)
    requires Ordered(prog, nodes, entered, skipped) && j < |nodes|
    ensures nodes[j] in skipped <==>
      exists i, site :: 0 <= i < j && nodes[i] in entered && prog.body(nodes[i]).Some?
        && CallSpecial(site, nodes[j]) in prog.body(nodes[i]).value
    ensures nodes[j] in entered <==> nodes[j] !in skipped && prog.body(nodes[j]).Some?
  {
    hide Known;
    if nodes[j] in skipped {
      var g :| g in Before(nodes, entered, j) && prog.body(g).Some? && nodes[j] in SpecialsOf(prog.body(g).value);
      var i :| 0 <= i < j && nodes[i] == g;
      var a :| a in prog.body(g).value && a.CallSpecial? && a.callee == nodes[j];
      assert CallSpecial(a.site, nodes[j]) in prog.body(nodes[i]).value;
    }
    if i, site :| 0 <= i < j && nodes[i] in entered && prog.body(nodes[i]).Some? && CallSpecial(site, nodes[j]) in prog.body(nodes[i]).value {
      assert nodes[i] in nodes[..j];
      assert nodes[j] in SpecialsOf(prog.body(nodes[i]).value);
      assert CalledSpecially(prog, Before(nodes, entered, j), nodes[j]);
    }
  }

  lemma BeforeKept(taken: seq<FuncId>, entered: iset<FuncId>, more: iset<FuncId>, f: FuncId, j: nat)
    requires f !in taken && j <= |taken| && (more == entered || more == entered + iset{f})
    requires forall g :: g in entered ==> g in taken
    ensures Before(taken + [f], more, j) == Before(taken, entered, j)
    ensures Before(taken + [f], more, |taken|) == entered
  {
    assert (taken + [f])[..j] == taken[..j] && (taken + [f])[..|taken|] == taken;
  }

  lemma TakenOnly(prog: Program, taken: seq<FuncId>, entered: iset<FuncId>, skipped: iset<FuncId>)
    requires Ordered(prog, taken, entered, skipped)
    ensures forall f :: f in entered || f in skipped ==> f in taken
  {
  }

  lemma OneMorePassedOver(prog: Program, taken: seq<FuncId>, entered: iset<FuncId>, skipped: iset<FuncId>, f: FuncId)
    requires Ordered(prog, taken, entered, skipped) && f !in taken
    requires CalledSpecially(prog, entered, f) || prog.body(f).None?
    ensures Ordered(prog, taken + [f], entered, skipped + if CalledSpecially(prog, entered, f) then iset{f} else iset{})
  {
    hide CalledSpecially, Known, Before;
    var skipped' := skipped + if CalledSpecially(prog, entered, f) then iset{f} else iset{};
    forall j | 0 <= j <= |taken| ensures Before(taken + [f], entered, j) == if j == |taken| then entered else Before(taken, entered, j) {
      BeforeKept(taken, entered, entered, f, j);
    }
    assert forall j :: 0 <= j < |taken| ==> (taken + [f])[j] == taken[j] && taken[j] != f;
  }

  lemma OneMoreEntered(prog: Program, taken: seq<FuncId>, entered: iset<FuncId>, skipped: iset<FuncId>, f: FuncId)
    requires Ordered(prog, taken, entered, skipped) && f !in taken && prog.body(f).Some?
    requires !CalledSpecially(prog, entered, f) && Plain(f) in Known(prog, entered)
    ensures Ordered(prog, taken + [f], entered + iset{f}, skipped)
  {
    hide CalledSpecially, Known, Before;
    var entered' := entered + iset{f};
    forall j | 0 <= j <= |taken| ensures Before(taken + [f], entered', j) == if j == |taken| then entered else Before(taken, entered, j) {
      BeforeKept(taken, entered, entered', f, j);
    }
    assert forall j :: 0 <= j < |taken| ==> (taken + [f])[j] == taken[j] && taken[j] != f;
  }

  ghost function PlainFacts(reached: iset<FuncId>): iset<Fact>
  {
    iset i: Fact | i.Plain? && i.func in reached
  }

  lemma NoBodyFound(prog: Program, X: iset<Fact>, f: FuncId)
    ensures prog.body(f).None? ==> BodyFound(prog, X, f)
  {
  }

  lemma KnownGrows(prog: Program, entered: iset<FuncId>, more: iset<FuncId>)
    requires entered <= more
    ensures Known(prog, entered) <= Known(prog, more)
  {
  }

  lemma KnownInLeast(prog: Program, entered: iset<FuncId>, skip: iset<FuncId>)
    requires skip !! entered
    ensures Known(prog, entered) <= Least(prog, skip)
  {
  }

  lemma KnownKeepsRules(prog: Program, entered: iset<FuncId>)
    ensures Rules(prog, Known(prog, entered))
  {
  }

  lemma KnownHoldsBodies(prog: Program, entered: iset<FuncId>, f: FuncId)
    requires f in entered && Reach(f) in Known(prog, entered)
    ensures BodyFound(prog, Known(prog, entered), f)
  {
    hide Least;
    forall skip: iset<FuncId> | skip !! entered ensures BodyFound(prog, Least(prog, skip), f) {
      LeastIsClosed(prog, skip);
    }
  }

  lemma MoreFound(prog: Program, X: iset<Fact>, Y: iset<Fact>)
    requires X <= Y
    ensures forall f :: BodyFound(prog, X, f) ==> BodyFound(prog, Y, f)
  {
  }

  // ----- what the order decides

  /** The functions other than the entry that some body calls specially, among all bodies that may be
      reached. */
  ghost function Specials(prog: Program): iset<FuncId>
  {
    iset f | f != prog.entry && CalledSpecially(prog, Reachable(prog), f)
  }

  ghost function Reachable(prog: Program): iset<FuncId>
  {
    iset g | Reach(g) in Least(prog, iset{})
  }

  /** No function that is called specially is reached in another way. */
  ghost predicate NeverBothWays(prog: Program)
  {
    forall f :: f in Specials(prog) ==> Plain(f) !in Least(prog, Specials(prog))
  }

  /** The facts of a run. */
  ghost predicate Outcome(prog: Program, nodes: seq<FuncId>, entered: iset<FuncId>, skipped: iset<FuncId>)
  {
    && nodes != [] && nodes[0] == prog.entry && Ordered(prog, nodes, entered, skipped)
    && (forall f :: f in nodes <==> Reach(f) in Least(prog, skipped))
  }

  /** Only special callees are passed over, and never the entry. */
  lemma SkippedAreSpecial(prog: Program, nodes: seq<FuncId>, entered: iset<FuncId>, skipped: iset<FuncId>)
    requires Outcome(prog, nodes, entered, skipped)
    ensures prog.entry !in skipped && skipped <= Specials(prog)
    ensures forall f :: f in skipped ==> Reach(f) in Least(prog, skipped)
  {
    hide Least, Known;
    assert Before(nodes, entered, 0) == iset{};
    LeastAntitone(prog, iset{}, skipped);
    forall f | f in skipped ensures f in Specials(prog) {
      var j :| 0 <= j < |nodes| && nodes[j] == f;
      assert CalledSpecially(prog, Before(nodes, entered, j), f);
      var g :| g in Before(nodes, entered, j) && prog.body(g).Some? && f in SpecialsOf(prog.body(g).value);
      assert g in Reachable(prog);
    }
  }

  /** Whatever the order, the result lies between the least sets without the bodies of all special callees and
      with all bodies. */
  lemma BetweenTheExtremes(prog: Program, nodes: seq<FuncId>, entered: iset<FuncId>, skipped: iset<FuncId>)
    requires Outcome(prog, nodes, entered, skipped)
    ensures Least(prog, Specials(prog)) <= Least(prog, skipped) <= Least(prog, iset{})
  {
    hide Least, Known, Specials, Ordered;
    SkippedAreSpecial(prog, nodes, entered, skipped);
    LeastAntitone(prog, skipped, Specials(prog));
    LeastAntitone(prog, iset{}, skipped);
  }

  /** Passing functions over loses nothing exactly when their bodies hold nothing that is not found anyway. */
  lemma FoundEverythingExactly(prog: Program, skipped: iset<FuncId>)
    requires forall f :: f in skipped ==> Reach(f) in Least(prog, skipped)
    ensures Least(prog, skipped) == Least(prog, iset{}) <==> forall f :: f in skipped ==> BodyFound(prog, Least(prog, skipped), f)
  {
    hide Least, BodyFound, Rules;
    LeastIsClosed(prog, skipped);
    LeastIsClosed(prog, iset{});
    LeastAntitone(prog, iset{}, skipped);
    if forall f :: f in skipped ==> BodyFound(prog, Least(prog, skipped), f) {
      LeastIsBelow(prog, iset{}, Least(prog, skipped));
    }
  }

  /** Without functions that are reached both ways no special callee is ever entered. */
  lemma {:induction false} NoSpecialEntered(prog: Program, nodes: seq<FuncId>, entered: iset<FuncId>, skipped: iset<FuncId>, j: nat)
    requires Outcome(prog, nodes, entered, skipped) && NeverBothWays(prog) && j <= |nodes|
    ensures Before(nodes, entered, j) !! Specials(prog)
  {
    hide Least, Known, Specials, CalledSpecially;
    if j > 0 {
      NoSpecialEntered(prog, nodes, entered, skipped, j - 1);
      KnownInLeast(prog, Before(nodes, entered, j - 1), Specials(prog));
      assert nodes[..j] == nodes[..j - 1] + [nodes[j - 1]];
    }
  }

  /** When no function is reached both ways the order does not matter: every run finds the least set without
      the bodies of all special callees. */
  lemma OrderDoesNotMatter(prog: Program, nodes: seq<FuncId>, entered: iset<FuncId>, skipped: iset<FuncId>)
    requires Outcome(prog, nodes, entered, skipped) && NeverBothWays(prog)
    ensures Least(prog, skipped) == Least(prog, Specials(prog))
  {
    hide Least, Known, Specials, CalledSpecially, NeverBothWays, Rules;
    BetweenTheExtremes(prog, nodes, entered, skipped);
    NoSpecialEntered(prog, nodes, entered, skipped, |nodes|);
    assert nodes[..|nodes|] == nodes;
    var L := Least(prog, Specials(prog));
    LeastIsClosed(prog, Specials(prog));
    forall f | Reach(f) in L && f !in skipped ensures BodyFound(prog, L, f) {
      if f in Specials(prog) {
        assert f in nodes;
        assert f !in Before(nodes, entered, |nodes|);
        NoBodyFound(prog, L, f);
      }
    }
    LeastIsBelow(prog, skipped, L);
  }

  // ----- a program in which the order matters

  const MAIN: FuncId := 0
  const WORKER: FuncId := 1
  const CALLER: FuncId := 2
  const HELPER: FuncId := 3

  function At(f: FuncId): BaseSite { BaseSite(f, 0) }

  const SITE := GenericSite(At(MAIN), 0, 0)

  /** MAIN calls a method on a trait object that is a value of type WORKER or CALLER; the two methods are found
      by one loop over a hash set. CALLER calls WORKER as a special function. WORKER calls HELPER. */
  const BOTH_WAYS := Program(
    MAIN,
    f => if f == MAIN then Some([Find(DynAt(0, SITE)), Find(Concrete(0, WORKER)), Find(Concrete(0, CALLER))])
      else if f == WORKER then Some([Find(Calls(At(WORKER), HELPER))])
      else if f == CALLER then Some([CallSpecial(At(CALLER), WORKER)])
      else if f == HELPER then Some([])
      else None,
    (at, c) => if at == SITE && (c == WORKER || c == CALLER) then Some(c) else None,
    (at, c) => NoCallee,
    t => None,
    (s, t) => false,
    t => t)

  /** What every order finds. */
  lemma FoundAnyway(skip: iset<FuncId>)
    requires MAIN !in skip
    ensures Plain(MAIN) in Least(BOTH_WAYS, skip) && Plain(WORKER) in Least(BOTH_WAYS, skip) && Plain(CALLER) in Least(BOTH_WAYS, skip)
    ensures Reach(MAIN) in Least(BOTH_WAYS, skip) && Reach(WORKER) in Least(BOTH_WAYS, skip) && Reach(CALLER) in Least(BOTH_WAYS, skip)
    ensures WORKER !in skip ==> Plain(HELPER) in Least(BOTH_WAYS, skip) && Reach(HELPER) in Least(BOTH_WAYS, skip)
  {
    hide Least;
    var L, main := Least(BOTH_WAYS, skip), [Find(DynAt(0, SITE)), Find(Concrete(0, WORKER)), Find(Concrete(0, CALLER))];
    LeastIsClosed(BOTH_WAYS, skip);
    assert BOTH_WAYS.body(MAIN) == Some(main) && BodyFound(BOTH_WAYS, L, MAIN);
    assert main[0] in main && main[1] in main && main[2] in main;
    assert DynAt(0, SITE) in L && Concrete(0, WORKER) in L && Concrete(0, CALLER) in L;
    assert CallIn(L, At(MAIN), WORKER) && CallIn(L, At(MAIN), CALLER);
    if WORKER !in skip {
      var worker := [Find(Calls(At(WORKER), HELPER))];
      assert BOTH_WAYS.body(WORKER) == Some(worker) && BodyFound(BOTH_WAYS, L, WORKER);
      assert worker[0] in worker;
      assert FoundIn(L, worker[0]);
    }
  }

  /** Everything that can be found, with the HELPER or without it. */
  ghost predicate Findable(helper: bool, i: Fact)
  {
    match i
    case Reach(f) => f == MAIN || f == WORKER || f == CALLER || (helper && f == HELPER)
    case Plain(f) => f == MAIN || f == WORKER || f == CALLER || (helper && f == HELPER)
    case Calls(site, f) => (site == At(MAIN) && (f == WORKER || f == CALLER)) || (site == At(CALLER) && f == WORKER)
      || (helper && site == At(WORKER) && f == HELPER)
    case DynAt(d, at) => d == 0 && at == SITE
    case Concrete(d, c) => d == 0 && (c == WORKER || c == CALLER)
    case _ => false
  }

  lemma FindableIsClosed(helper: bool, X: iset<Fact>)
    requires forall i :: i in X <==> Findable(helper, i)
    ensures Rules(BOTH_WAYS, X)
  {
  }

  lemma FindableHoldsBodies(helper: bool, skip: iset<FuncId>, X: iset<Fact>)
    requires helper || WORKER in skip
    requires forall i :: i in X <==> Findable(helper, i)
    ensures forall f :: Reach(f) in X && f !in skip ==> BodyFound(BOTH_WAYS, X, f)
  {
  }

  lemma FoundAtMost(helper: bool, skip: iset<FuncId>)
    requires helper || WORKER in skip
    ensures forall f :: Reach(f) in Least(BOTH_WAYS, skip) ==> f == MAIN || f == WORKER || f == CALLER || (helper && f == HELPER)
  {
    hide Rules, BodyFound;
    var X := iset i: Fact | Findable(helper, i);
    FindableIsClosed(helper, X);
    FindableHoldsBodies(helper, skip, X);
    LeastIsBelow(BOTH_WAYS, skip, X);
  }

  lemma WorkerFirst()
    ensures Outcome(BOTH_WAYS, [MAIN, WORKER, CALLER, HELPER], iset{MAIN, WORKER, CALLER, HELPER}, iset{})
    ensures Reach(HELPER) in Least(BOTH_WAYS, iset{})
  {
    hide Least, BodyFound, Rules;
    var taken, entered := [MAIN, WORKER, CALLER, HELPER], iset{MAIN, WORKER, CALLER, HELPER};
    FoundAnyway(iset{});
    FoundAtMost(true, iset{});
    assert taken[..0] == [] && taken[..1] == [MAIN] && taken[..2] == [MAIN, WORKER] && taken[..3] == [MAIN, WORKER, CALLER];
    assert Before(taken, entered, 0) == iset{} && Before(taken, entered, 1) == iset{MAIN};
    assert Before(taken, entered, 2) == iset{MAIN, WORKER} && Before(taken, entered, 3) == iset{MAIN, WORKER, CALLER};
    SpecialsOfBodies();
    forall skip: iset<FuncId> ensures Plain(MAIN) in Least(BOTH_WAYS, skip) {
      LeastIsClosed(BOTH_WAYS, skip);
      MainIsPlain(skip);
    }
    forall skip: iset<FuncId> | MAIN !in skip
      ensures Plain(WORKER) in Least(BOTH_WAYS, skip) && Plain(CALLER) in Least(BOTH_WAYS, skip)
      ensures WORKER !in skip ==> Plain(HELPER) in Least(BOTH_WAYS, skip)
    {
      FoundAnyway(skip);
    }
  }

  lemma CallerFirst()
    ensures Outcome(BOTH_WAYS, [MAIN, CALLER, WORKER], iset{MAIN, CALLER}, iset{WORKER})
    ensures Reach(HELPER) !in Least(BOTH_WAYS, iset{WORKER})
  {
    hide Least, BodyFound, Rules;
    var taken, entered := [MAIN, CALLER, WORKER], iset{MAIN, CALLER};
    FoundAnyway(iset{WORKER});
    FoundAtMost(false, iset{WORKER});
    assert taken[..0] == [] && taken[..1] == [MAIN] && taken[..2] == [MAIN, CALLER];
    assert Before(taken, entered, 0) == iset{} && Before(taken, entered, 1) == iset{MAIN};
    assert Before(taken, entered, 2) == iset{MAIN, CALLER};
    SpecialsOfBodies();
    forall skip: iset<FuncId> ensures Plain(MAIN) in Least(BOTH_WAYS, skip) {
      MainIsPlain(skip);
    }
    forall skip: iset<FuncId> | MAIN !in skip ensures Plain(CALLER) in Least(BOTH_WAYS, skip) {
      FoundAnyway(skip);
    }
  }

  lemma MainIsPlain(skip: iset<FuncId>)
    ensures Plain(MAIN) in Least(BOTH_WAYS, skip)
  {
    LeastIsClosed(BOTH_WAYS, skip);
  }

  /** CALLER alone calls a function specially. */
  lemma SpecialsOfBodies()
    ensures forall f :: BOTH_WAYS.body(f).Some? ==> SpecialsOf(BOTH_WAYS.body(f).value) == if f == CALLER then {WORKER} else {}
  {
    var caller := [CallSpecial(At(CALLER), WORKER)];
    assert BOTH_WAYS.body(CALLER) == Some(caller) && caller[0] in caller;
    assert WORKER in SpecialsOf(caller);
  }

  /** Two orders of the same program with different results. */
  lemma OrderMatters()
    ensures Outcome(BOTH_WAYS, [MAIN, WORKER, CALLER, HELPER], iset{MAIN, WORKER, CALLER, HELPER}, iset{})
    ensures Outcome(BOTH_WAYS, [MAIN, CALLER, WORKER], iset{MAIN, CALLER}, iset{WORKER})
    ensures Least(BOTH_WAYS, iset{}) != Least(BOTH_WAYS, iset{WORKER})
  {
    hide Outcome, Least;
    WorkerFirst();
    CallerFirst();
  }
}
