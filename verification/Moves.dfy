/** The driver as a state machine: what it may do next, the states that arise, and at which fixpoint every run
    ends. */
module Moves {
  import opened Paths
  import opened Constraints
  import opened Solver
  import opened SolverTheorems
  import opened Joint
  import opened Driver
  import opened DriverInvariant
  import opened DriverSteps
  import opened Exit

  datatype Move =
    | Enter(func: FuncId)
    | Skip(func: FuncId)
    | Pass(func: FuncId)
    | Begin(func: FuncId)
    | AddEdge(func: FuncId, edge: Edge)
    | Finish(func: FuncId)
    | AddCall(call: Call)
    | AddSpecial(func: FuncId, call: Call)
    | AddSite(func: FuncId, kind: SiteKind, pointer: Path, site: CallSite)
    | Advance
    | Solve(turns: nat)
    | Drop

  function SitesIn(b: Body, k: SiteKind): seq<(Path, CallSite)>
  {
    match k
    case DynSite => b.dynSites
    case FnPtrSite => b.fnptrSites
    case FnTraitSite => b.fntraitSites
  }

  /** No function is being added. */
  ghost predicate Idle(d: Drive)
  {
    d.past.started <= d.processed && EnteredAdded(d) && DealtWith(d.nodes, d.next, d.past)
  }

  /** f has just been entered and its edges have been added, so that its calls and call sites are in turn. */
  ghost predicate InTurn(prog: Program, d: Drive, f: FuncId)
  {
    d.next < |d.nodes| && f == d.nodes[d.next] && f in d.past.entered && f in d.processed && prog.body(f).Some?
  }

  ghost predicate ListsCall(prog: Program, d: Drive, c: Call, f: FuncId)
  {
    InTurn(prog, d, f) && c in prog.body(f).value.staticCalls
  }

  /** The solver has found the call, or the body of the function in turn lists it. */
  ghost predicate MayCall(prog: Program, d: Drive, c: Call)
  {
    (Idle(d) && (c in d.s.newCalls || c in d.s.newInstances)) || exists f :: ListsCall(prog, d, c, f)
  }

  ghost predicate Possible(env: Env, prog: Program, d: Drive, m: Move)
  {
    match m
    case Enter(f) => Next(d, f) && f !in d.processed && f !in d.special && prog.body(f).Some?
    case Skip(f) => Next(d, f) && f !in d.processed && f in d.special
    case Pass(f) => Next(d, f) && f in d.processed
    case Begin(f) => f !in d.processed && exists root :: root in d.past.entered && Involves(prog, root, f)
    case AddEdge(f, e) => f in d.past.started && f !in d.processed && e in prog.edgesOf(f)
    case Finish(f) => f in d.past.started && EdgesIn(prog, Items(d.s), f) && forall h :: h in prog.related(f) ==> h in d.processed
    case AddCall(c) => MayCall(prog, d, c)
    case AddSpecial(f, c) => InTurn(prog, d, f) && c in prog.body(f).value.specialCalls
    case AddSite(f, k, v, c) => InTurn(prog, d, f) && (v, c) in SitesIn(prog.body(f).value, k)
    case Advance => MayAdvance(prog, d)
    case Solve(k) =>
      && Idle(d) && d.next == |d.nodes| && d.s.newCalls == [] && d.s.newInstances == []
      && Turns(env, InitConstraints(env, d.s), k).worklist == []
    case Drop =>
      && Idle(d) && d.next == |d.nodes|
      && (forall c :: c in d.s.newCalls || c in d.s.newInstances ==> c in d.s.reported)
  }

  ghost function Moved(env: Env, prog: Program, d: Drive, m: Move): Drive
  {
    match m
    case Enter(f) => Entering(prog, d, f)
    case Skip(f) => Skipping(d, f)
    case Pass(f) => Passing(d, f)
    case Begin(f) => Starting(d, f)
    case AddEdge(_, e) => WithInternal(d, e)
    case Finish(f) => d.(processed := d.processed + {f})
    case AddCall(c) => WithCall(prog, d, c)
    case AddSpecial(_, c) => WithSpecial(d, c)
    case AddSite(_, k, v, c) => WithSite(d, k, v, c)
    case Advance => d.(next := d.next + 1)
    case Solve(k) => AfterRun(env, d, k)
    case Drop => Dropping(d)
  }

  ghost function Play(env: Env, prog: Program, moves: seq<Move>): Drive
  {
    if moves == [] then Start(prog)
    else Moved(env, prog, Play(env, prog, moves[..|moves| - 1]), moves[|moves| - 1])
  }

  ghost predicate Allowed(env: Env, prog: Program, moves: seq<Move>)
  {
    forall i :: 0 <= i < |moves| ==> Possible(env, prog, Play(env, prog, moves[..i]), moves[i])
  }

  /** Some sequence of possible moves leads from the start to d. */
  ghost predicate Arises(env: Env, prog: Program, d: Drive)
  {
    exists moves :: Allowed(env, prog, moves) && Play(env, prog, moves) == d
  }

  lemma StartArises(env: Env, prog: Program)
    ensures Arises(env, prog, Start(prog))
  {
    hide Start;
    assert Allowed(env, prog, []) && Play(env, prog, []) == Start(prog);
  }

  /** A possible move from a state that arises leads to another one. */
  lemma OneMove(env: Env, prog: Program, d: Drive, m: Move)
    requires Arises(env, prog, d) && Possible(env, prog, d, m)
    ensures Arises(env, prog, Moved(env, prog, d, m))
  {
    hide Possible, Moved, Start;
    var moves :| Allowed(env, prog, moves) && Play(env, prog, moves) == d;
    var more := moves + [m];
    assert more[..|moves|] == moves;
    forall i | 0 <= i < |more| ensures Possible(env, prog, Play(env, prog, more[..i]), more[i]) {
      if i < |moves| {
        assert more[..i] == moves[..i];
      }
    }
    assert Play(env, prog, more) == Moved(env, prog, d, m);
  }

  lemma RunArises(env: Env, prog: Program, d: Drive, k: nat)
    requires Arises(env, prog, d) && Idle(d) && d.next == |d.nodes| && d.s.newCalls == [] && d.s.newInstances == []
    requires Turns(env, InitConstraints(env, d.s), k).worklist == []
    ensures Arises(env, prog, AfterRun(env, d, k))
  {
    hide Arises, Idle, Turns, InitConstraints, AfterRun;
    OneMove(env, prog, d, Solve(k));
  }

  lemma BetweenIsIdle(env: Env, prog: Program, L: iset<Item>, d: Drive)
    requires Between(env, prog, L, d)
    ensures Idle(d)
  {
  }

  lemma DropArises(env: Env, prog: Program, d: Drive)
    requires Arises(env, prog, d) && Idle(d) && d.next == |d.nodes|
    requires forall c :: c in d.s.newCalls || c in d.s.newInstances ==> c in d.s.reported
    ensures Arises(env, prog, Dropping(d))
  {
    hide Arises, Idle;
    OneMove(env, prog, d, Drop);
  }

  lemma StillMayCall(prog: Program, d: Drive, d': Drive, c: Call)
    requires MayCall(prog, d, c) && Grown(d, d') && SameTurn(d, d') && d'.past.started == d.past.started
    ensures MayCall(prog, d', c)
  {
    hide Items;
    if exists f :: ListsCall(prog, d, c, f) {
      var f :| ListsCall(prog, d, c, f);
      assert ListsCall(prog, d', c, f);
    } else {
      TakenStays(d.nodes, d'.nodes, d.next);
      assert Idle(d');
    }
  }

  lemma ListedMayBeCalled(prog: Program, d: Drive, f: FuncId)
    requires InTurn(prog, d, f)
    ensures forall c :: c in prog.body(f).value.staticCalls ==> MayCall(prog, d, c)
  {
    forall c | c in prog.body(f).value.staticCalls ensures MayCall(prog, d, c) {
      assert ListsCall(prog, d, c, f);
    }
  }

  // ----- what every state that arises keeps

  lemma CallIsListed(env: Env, prog: Program, d: Drive, c: Call)
    requires Core(env, prog, d) && MayCall(prog, d, c)
    ensures Called(c) in Known(env, prog, d.past)
  {
    hide Core, Known, EdgesIn, Idle;
    CoreParts(env, prog, d);
    if exists f :: ListsCall(prog, d, c, f) {
      var f :| ListsCall(prog, d, c, f);
      EnteredIsKnown(env, prog, d, f);
    } else {
      assert Called(c) in Items(d.s);
    }
  }

  lemma SiteIsListed(env: Env, prog: Program, d: Drive, f: FuncId, k: SiteKind, v: Path, c: CallSite)
    requires Core(env, prog, d) && InTurn(prog, d, f) && (v, c) in SitesIn(prog.body(f).value, k)
    ensures Site(k, v, c) in Known(env, prog, d.past)
  {
    hide Core, Known, EdgesIn;
    EnteredIsKnown(env, prog, d, f);
    assert (v, c).0 == v && (v, c).1 == c;
  }

  lemma SpecialIsListed(env: Env, prog: Program, d: Drive, f: FuncId, c: Call)
    requires Core(env, prog, d) && InTurn(prog, d, f) && c in prog.body(f).value.specialCalls
    ensures Special(c) in Known(env, prog, d.past) && c.callee in d.special
  {
    hide Core, Known, EdgesIn;
    EnteredIsKnown(env, prog, d, f);
    EnteredMarks(env, prog, d, f);
  }

  lemma EdgeIsListed(env: Env, prog: Program, d: Drive, f: FuncId, e: Edge)
    requires Core(env, prog, d) && f in d.past.started && e in prog.edgesOf(f)
    ensures Arc(e) in Known(env, prog, d.past)
  {
    hide Items, Known, GraphOk, WiresOk, FunctionsOk, Ready, LateOk, InEveryBound, QueueSafe, Involves, EdgesIn;
    var root :| root in d.past.entered && Involves(prog, root, f);
    InvolvedIsKnown(env, prog, d, f, root);
    OwnEdge(prog, Known(env, prog, d.past), f, e);
  }

  lemma StartedIsInvolved(env: Env, prog: Program, d: Drive, f: FuncId)
    requires Core(env, prog, d) && f in d.past.started
    ensures exists root :: root in d.past.entered && Involves(prog, root, f)
  {
    hide Items, Known, GraphOk, WiresOk, FunctionsOk, Ready, LateOk, InEveryBound, QueueSafe, Involves;
  }

  /** Every possible move keeps what the invariant says. */
  lemma MoveKeepsCore(env: Env, prog: Program, d: Drive, m: Move)
    requires OrderOk(env) && Core(env, prog, d) && Possible(env, prog, d, m)
    ensures Core(env, prog, Moved(env, prog, d, m))
  {
    hide Core, Known, Involves, EdgesIn, Next, InTurn, MayCall, MayAdvance, Idle, OrderOk, Turns, InitConstraints;
    match m
    case Enter(f) => EnterKeepsCore(env, prog, d, f);
    case Skip(f) => SkipKeepsCore(env, prog, d, f);
    case Pass(f) => PassKeepsCore(env, prog, d, f);
    case Begin(f) =>
      var root :| root in d.past.entered && Involves(prog, root, f);
      StartKeepsCore(env, prog, d, f, root);
    case AddEdge(f, e) =>
      EdgeIsListed(env, prog, d, f, e);
      InternalKeepsCore(env, prog, d, e, f);
    case Finish(f) =>
      StartedIsInvolved(env, prog, d, f);
      var root :| root in d.past.entered && Involves(prog, root, f);
      ProcessedKeepsCore(env, prog, d, f, root);
    case AddCall(c) =>
      CallIsListed(env, prog, d, c);
      CallKeepsCore(env, prog, d, c);
    case AddSpecial(f, c) =>
      SpecialIsListed(env, prog, d, f, c);
      SpecialKeepsCore(env, prog, d, c);
    case AddSite(f, k, v, c) =>
      SiteIsListed(env, prog, d, f, k, v, c);
      SiteKeepsCore(env, prog, d, k, v, c);
    case Advance => AdvanceKeepsCore(env, prog, d);
    case Solve(k) => RunKeepsCore(env, prog, d, k);
    case Drop => DropKeepsCore(env, prog, d);
  }

  lemma {:induction false} PlayKeepsCore(env: Env, prog: Program, moves: seq<Move>)
    requires OrderOk(env) && Allowed(env, prog, moves)
    ensures Core(env, prog, Play(env, prog, moves))
  {
    hide Core, Possible, Moved, Start, OrderOk;
    if moves == [] {
      StartIsCore(env, prog);
    } else {
      var before := moves[..|moves| - 1];
      forall i | 0 <= i < |before| ensures Possible(env, prog, Play(env, prog, before[..i]), before[i]) {
        assert before[..i] == moves[..i];
      }
      PlayKeepsCore(env, prog, before);
      MoveKeepsCore(env, prog, Play(env, prog, before), moves[|moves| - 1]);
    }
  }

  /** The fixpoint of every run, whatever the program: in a state that arises and in which nothing waits, if no node
      feeds itself in what was found, the result is the least joint fixpoint of what was not passed over exactly
      when the facts passed over have their consequences; in particular when none was. Without that condition it
      is so exactly when the facts that were never sent on have their consequences. */
  lemma EveryRunEndsAtFixpoint(env: Env, prog: Program, d: Drive)
    requires OrderOk(env) && Arises(env, prog, d) && AtExit(d)
    ensures Items(d.s) == JointLeast(env, prog, NotPassedOver(d), d.past.stray) <==> UnsentServed(env, d)
    ensures NoSelfFeed(Items(d.s)) ==>
      (Items(d.s) == JointLeast(env, prog, NotPassedOver(d), d.past.stray) <==> LateServed(env, d))
    ensures NoSelfFeed(Items(d.s)) && d.past.late == {} ==>
      Items(d.s) == JointLeast(env, prog, NotPassedOver(d), d.past.stray)
  {
    hide Core, Items, JointLeast, Allowed, Play, AtExit, OrderOk, LateServed, UnsentServed, NoSelfFeed;
    var moves :| Allowed(env, prog, moves) && Play(env, prog, moves) == d;
    PlayKeepsCore(env, prog, moves);
    ExitExactly(env, prog, d);
    if NoSelfFeed(Items(d.s)) {
      ExitWithoutSelfFeed(env, prog, d);
    }
  }
}
