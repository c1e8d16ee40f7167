/** The stack filter (src/pta/strategies/stack_filtering.rs): may a function be on the stack below another
    one? The answer never rules out a caller that really is on the stack. */
module StackFilter {
  import opened Paths
  import opened CallGraph
  import opened Contexts
  import opened Reachability

  /** A function with its context. */
  datatype CSFuncId = CSFuncId(cid: ContextId, func: FuncId)

  /** Some non-empty suffix of the first list is a prefix of the second. */
  ghost predicate Overlap<E>(v1: seq<E>, v2: seq<E>)
  {
    exists i :: 1 <= i <= |v1| && i <= |v2| && v1[|v1| - i..] == v2[..i]
  }

  method MatchSuffixAndPrefix<E(==)>(v1: seq<E>, v2: seq<E>) returns (found: bool)
    ensures found <==> Overlap(v1, v2)
  {
    var n := if |v1| < |v2| then |v1| else |v2|;
    for i := 1 to n + 1
      invariant forall j :: 1 <= j < i ==> v1[|v1| - j..] != v2[..j]
    {
      var suffix := v1[|v1| - i..];
      var same := true;
      for t := 0 to i
        invariant same <==> suffix[..t] == v2[..t]
      {
        assert suffix[..t + 1] == suffix[..t] + [suffix[t]] && v2[..t + 1] == v2[..t] + [v2[t]];
        same := same && suffix[t] == v2[t];
      }
      assert suffix[..i] == suffix;
      if same {
        return true;
      }
    }
    return false;
  }

  /** A function followed by the functions that contain the calls of its context. */
  function CallChain(func: FuncId, ctx: Context<BaseSite>): (r: seq<FuncId>)
    ensures |r| == |ctx.elems| + 1 && r[0] == func
    ensures forall t :: 0 <= t < |ctx.elems| ==> r[t + 1] == ctx.elems[t].func
  {
    [func] + seq(|ctx.elems|, t requires 0 <= t < |ctx.elems| => ctx.elems[t].func)
  }

  /** The oldest function that a context still names. */
  function OldestFunc(func: FuncId, ctx: Context<BaseSite>): FuncId
  {
    if ctx.elems == [] then func else ctx.elems[|ctx.elems| - 1].func
  }

  class StackFilter {
    const callGraph: CallGraph
    const reachRelation: ReachabilityRelation
    var withKcsContext: bool
    var kcsContextStrategy: KCallSiteSensitive?

    /** The contexts that the filter reads. */
    ghost function Cache(): set<object>
      reads this
    {
      if kcsContextStrategy == null then {} else {kcsContextStrategy.ctxCache}
    }

    /** The relation is that of the call graph, and contexts are used only once a strategy is set. */
    ghost predicate Valid()
      reads this, callGraph, reachRelation, Cache()
    {
      && callGraph.Valid() && reachRelation.Valid()
      && (forall i: nat, j: nat :: reachRelation.Holds(i, j) <==> Reaches(callGraph.edges, i, j))
      && (withKcsContext ==> kcsContextStrategy != null && kcsContextStrategy.ctxCache.Valid())
    }

    constructor (callGraph: CallGraph)
      requires callGraph.Valid()
      ensures Valid() && this.callGraph == callGraph && !withKcsContext && kcsContextStrategy == null
    {
      this.callGraph, withKcsContext, kcsContextStrategy := callGraph, false, null;
      var relation := ComputeFuncReachRelationsMt(callGraph);
      reachRelation := relation;
    }

    method WithKcsContextStrategy(strategy: KCallSiteSensitive)
      requires Valid() && strategy.ctxCache.Valid()
      modifies this
      ensures Valid() && withKcsContext && kcsContextStrategy == strategy
    {
      withKcsContext, kcsContextStrategy := true, strategy;
    }

    /** Same function, or a non-empty path of calls. */
    ghost predicate Calls(from: FuncId, to: FuncId)
      requires callGraph.Valid() && from in callGraph.nodes && to in callGraph.nodes
      reads callGraph
    {
      from == to || Reaches(callGraph.edges, callGraph.funcNodes[from], callGraph.funcNodes[to])
    }

    method NaiveReachabilityRelation(from: FuncId, to: FuncId) returns (r: bool)
      requires Valid() && from in callGraph.nodes && to in callGraph.nodes
      ensures r <==> Calls(from, to)
    {
      var fromId, toId := callGraph.funcNodes[from], callGraph.funcNodes[to];
      if fromId == toId {
        assert callGraph.nodes[fromId] == from;
        r := true;
      } else {
        r := reachRelation.IsReachable(fromId, toId);
      }
    }

    ghost function ContextOf(f: CSFuncId): Context<BaseSite>
      reads this, Cache()
    {
      if kcsContextStrategy == null then Context([])
      else
        var list := kcsContextStrategy.ctxCache.contextList;
        if f.cid < |list| then list[f.cid] else Context([])
    }

    /** The oldest function that the context of f names, when contexts are used. */
    ghost function OldestOf(f: CSFuncId): FuncId
      reads this, Cache()
    {
      if withKcsContext then OldestFunc(f.func, ContextOf(f)) else f.func
    }

    /** The function and those that its context names, newest first. */
    ghost function ChainOf(f: CSFuncId): seq<FuncId>
      reads this, Cache()
    {
      if withKcsContext then CallChain(f.func, ContextOf(f)) else [f.func]
    }

    /** What the filter answers: the chains overlap, or the older function reaches the oldest function that
        the newer context still names. */
    ghost predicate MayBeOnStack(from: CSFuncId, to: CSFuncId)
      requires callGraph.Valid() && from.func in callGraph.nodes && OldestOf(to) in callGraph.nodes
      reads this, callGraph, Cache()
    {
      || (withKcsContext && ContextOf(from).elems != []
          && Overlap(CallChain(to.func, ContextOf(to)), CallChain(from.func, ContextOf(from))))
      || Calls(from.func, OldestOf(to))
    }

    /** Is `to` reachable from `from`? */
    method IsReachableFrom(to: CSFuncId, from: CSFuncId) returns (r: bool)
      requires Valid() && from.func in callGraph.nodes && OldestOf(to) in callGraph.nodes
      ensures r <==> MayBeOnStack(from, to)
      ensures CalledInTurn(callGraph, ChainOf(from)) && CalledInTurn(callGraph, ChainOf(to)) ==>
        (r <==> exists funcs, i, j :: OnOneStack(callGraph, ChainOf(from), ChainOf(to), funcs, i, j))
    {
      hide CalledInTurn, OnOneStack;
      var found := false;
      if withKcsContext {
        var fromCtx := kcsContextStrategy.GetContextById(from.cid);
        var toCtx := kcsContextStrategy.GetContextById(to.cid);
        if |fromCtx.elems| > 0 {
          found := MatchSuffixAndPrefix(CallChain(to.func, toCtx), CallChain(from.func, fromCtx));
        }
        if found {
          r := true;
        } else {
          r := NaiveReachabilityRelation(from.func, OldestFunc(to.func, toCtx));
        }
      } else {
        r := NaiveReachabilityRelation(from.func, to.func);
      }
      assert r <==> MayBeOnStack(from, to);
      if CalledInTurn(callGraph, ChainOf(from)) && CalledInTurn(callGraph, ChainOf(to)) {
        AnswerExactly(this, from, to);
      }
    }

    /** The functions that have to be looked up to answer about an object have nodes. */
    ghost predicate OwnerKnown(current: CSFuncId, target: Path, cid: ContextId, facts: FuncFacts)
      reads this, callGraph, Cache()
    {
      Permanent(current, target, cid, facts)
      || (ContainingFunc(target).func in callGraph.nodes && OldestOf(current) in callGraph.nodes)
    }

    /** What the filter answers about an object: it lives anyway, or its frame may be on the stack. */
    ghost predicate MayBeAlive(current: CSFuncId, target: Path, cid: ContextId, facts: FuncFacts)
      requires callGraph.Valid() && OwnerKnown(current, target, cid, facts)
      reads this, callGraph, Cache()
    {
      Permanent(current, target, cid, facts) || MayBeOnStack(CSFuncId(cid, ContainingFunc(target).func), current)
    }

    /** May the object exist while the function runs? */
    method IsPotentiallyAlive(current: CSFuncId, target: Path, cid: ContextId, facts: FuncFacts) returns (r: bool)
      requires Valid() && OwnerKnown(current, target, cid, facts)
      ensures r <==> MayBeAlive(current, target, cid, facts)
      ensures !r <==>
        && ContainingFunc(target).OwnedBy? && !target.HeapObj?
        && (target.QualifiedPath? || target.OffsetPath? ==> !target.base.HeapObj?)
        && var owner := ContainingFunc(target).func;
           && CSFuncId(cid, owner) != current && !facts.promoted(owner) && !facts.constant(owner)
           && !MayBeOnStack(CSFuncId(cid, owner), current)
    {
      match target {
        case HeapObj(_, _) => return true;
        case QualifiedPath(base, _) => if base.HeapObj? { return true; }
        case OffsetPath(base, _) => if base.HeapObj? { return true; }
        case _ =>
      }
      var owner := ContainingFunc(target);
      if owner.OwnedBy? {
        var container := CSFuncId(cid, owner.func);
        if container == current || facts.promoted(owner.func) || facts.constant(owner.func) {
          return true;
        }
        r := IsReachableFrom(current, container);
        return;
      }
      return true;
    }
  }

  /** What the compiler says about a function: is it a promoted constant, is it a constant? */
  datatype FuncFacts = FuncFacts(promoted: FuncId -> bool, constant: FuncId -> bool)

  /** The object is on the heap, in no frame, in the current one, or in one that is never left. */
  predicate Permanent(current: CSFuncId, target: Path, cid: ContextId, facts: FuncFacts)
  {
    HeapPart(target) ||
    match ContainingFunc(target)
    case NoOwner => true
    case OwnedBy(f) => CSFuncId(cid, f) == current || facts.promoted(f) || facts.constant(f)
  }

  /** A heap object, or a part of one. */
  predicate HeapPart(p: Path)
  {
    p.HeapObj? || ((p.QualifiedPath? || p.OffsetPath?) && p.base.HeapObj?)
  }

  // ----- stacks

  /** The call graph has an edge from f to g. */
  ghost predicate HasCall(cg: CallGraph, f: FuncId, g: FuncId)
    reads cg
  {
    f in cg.funcNodes && g in cg.funcNodes && Succ(cg.edges, cg.funcNodes[f], cg.funcNodes[g])
  }

  /** Functions of the call graph, each of which calls the next one. */
  ghost predicate CallInTurn(cg: CallGraph, funcs: seq<FuncId>)
    reads cg
  {
    (forall i :: 0 <= i < |funcs| ==> funcs[i] in cg.nodes) && (forall i :: 0 <= i < |funcs| - 1 ==> HasCall(cg, funcs[i], funcs[i + 1]))
  }

  /** A call stack: funcs[0] is the oldest frame, and sites[i] is the call in funcs[i] that entered
      funcs[i + 1]. All calls lie in the call graph. */
  datatype Stack = Stack(funcs: seq<FuncId>, sites: seq<BaseSite>)

  ghost predicate IsStack(cg: CallGraph, s: Stack)
    reads cg
  {
    && |s.funcs| == |s.sites| + 1 && CallInTurn(cg, s.funcs)
    && (forall i :: 0 <= i < |s.sites| ==> s.sites[i].func == s.funcs[i])
  }

  /** The context that the frame gets when every call on the way extends the context of its caller. */
  ghost predicate FrameContext(ctx: Context<BaseSite>, s: Stack, i: nat, k: nat)
  {
    i <= |s.sites| && ctx == ContextAlong(s.sites[..i], k)
  }

  /** A later frame is reached from an earlier one. */
  lemma {:induction false} LaterFramesAreReached(cg: CallGraph, funcs: seq<FuncId>, i: nat, j: nat)
    requires cg.Valid() && CallInTurn(cg, funcs) && i < j < |funcs|
    ensures Reaches(cg.edges, cg.funcNodes[funcs[i]], cg.funcNodes[funcs[j]])
    decreases j
  {
    assert HasCall(cg, funcs[j - 1], funcs[j - 1 + 1]);
    if i + 1 == j {
      StepReaches(cg.edges, cg.funcNodes[funcs[i]], cg.funcNodes[funcs[j]]);
    } else {
      LaterFramesAreReached(cg, funcs, i, j - 1);
      ReachesStep(cg.edges, cg.funcNodes[funcs[i]], cg.funcNodes[funcs[j - 1]], cg.funcNodes[funcs[j]]);
    }
  }

  /** The chain of a frame goes down the stack, as far as the context is long. */
  lemma ChainGoesDown(s: Stack, ctx: Context<BaseSite>, i: nat, k: nat)
    requires |s.funcs| == |s.sites| + 1 && FrameContext(ctx, s, i, k)
    requires forall t :: 0 <= t < |s.sites| ==> s.sites[t].func == s.funcs[t]
    ensures |ctx.elems| == if i < k then i else k
    ensures var chain := CallChain(s.funcs[i], ctx);
      forall t :: 0 <= t < |chain| ==> chain[t] == s.funcs[i - t]
    ensures OldestFunc(s.funcs[i], ctx) == s.funcs[i - |ctx.elems|]
  {
    TruncationAtEveryStep(s.sites[..i], k);
    var chain := CallChain(s.funcs[i], ctx);
    forall t | 0 <= t < |chain| ensures chain[t] == s.funcs[i - t] {
      if t > 0 {
        assert chain[t] == ctx.elems[t - 1].func == s.sites[..i][i - t].func;
      }
    }
    if ctx.elems != [] {
      assert OldestFunc(s.funcs[i], ctx) == chain[|chain| - 1];
    }
  }

  /** When the newer context reaches down to the older frame, the chains overlap. */
  lemma ChainsOverlap(s: Stack, from: Context<BaseSite>, to: Context<BaseSite>, i: nat, j: nat, k: nat)
    requires |s.funcs| == |s.sites| + 1 && forall t :: 0 <= t < |s.sites| ==> s.sites[t].func == s.funcs[t]
    requires FrameContext(from, s, i, k) && FrameContext(to, s, j, k) && j - |to.elems| <= i <= j < |s.funcs|
    ensures Overlap(CallChain(s.funcs[j], to), CallChain(s.funcs[i], from))
  {
    hide FrameContext, ContextAlong, OldestFunc, CallChain;
    ChainGoesDown(s, from, i, k);
    ChainGoesDown(s, to, j, k);
    var v1, v2 := CallChain(s.funcs[j], to), CallChain(s.funcs[i], from);
    var n := i - (j - |to.elems|) + 1;
    assert |v1| == |to.elems| + 1 && n <= |v1| && n <= |v2|;
    SuffixIsPrefix(v1, v2, s.funcs, i, j, n);
  }

  lemma SuffixIsPrefix(v1: seq<FuncId>, v2: seq<FuncId>, funcs: seq<FuncId>, i: nat, j: nat, n: nat)
    requires i <= j < |funcs| && |v1| <= j + 1 && |v2| <= i + 1 && 1 <= n <= |v1| && n <= |v2| && n == i - j + |v1|
    requires forall t :: 0 <= t < |v1| ==> v1[t] == funcs[j - t]
    requires forall t :: 0 <= t < |v2| ==> v2[t] == funcs[i - t]
    ensures Overlap(v1, v2)
  {
    assert v1[|v1| - n..] == v2[..n];
  }

  /** The frame of a function with a context, when contexts are used. */
  ghost predicate FrameOf(filter: StackFilter, f: CSFuncId, s: Stack, i: nat)
    reads filter, filter.Cache()
  {
    && i < |s.funcs| && f.func == s.funcs[i]
    && (filter.withKcsContext ==>
          filter.kcsContextStrategy != null && FrameContext(filter.ContextOf(f), s, i, filter.kcsContextStrategy.k))
  }

  /** Safety: for every stack over the filter's call graph and every k, a frame may be on the stack for
      itself and for every frame above it. */
  lemma StackFilterIsSafe(f: StackFilter, s: Stack, i: nat, j: nat, from: CSFuncId, to: CSFuncId)
    requires f.Valid() && IsStack(f.callGraph, s) && i <= j < |s.funcs|
    requires FrameOf(f, from, s, i) && FrameOf(f, to, s, j)
    ensures f.OldestOf(to) in f.callGraph.nodes
    ensures f.MayBeOnStack(from, to)
  {
    hide Reaches, Overlap, CallChain;
    if f.withKcsContext {
      var k, fromCtx, toCtx := f.kcsContextStrategy.k, f.ContextOf(from), f.ContextOf(to);
      ChainGoesDown(s, fromCtx, i, k);
      ChainGoesDown(s, toCtx, j, k);
      var oldest := j - |toCtx.elems|;
      if i < oldest {
        LaterFramesAreReached(f.callGraph, s.funcs, i, oldest);
      } else {
        ChainsOverlap(s, fromCtx, toCtx, i, j, k);
      }
    } else if i < j {
      LaterFramesAreReached(f.callGraph, s.funcs, i, j);
    }
  }

  // ----- what the answer says

  /** The same, newest function first. */
  ghost predicate CalledInTurn(cg: CallGraph, chain: seq<FuncId>)
    reads cg
  {
    (forall i :: 0 <= i < |chain| ==> chain[i] in cg.nodes) && (forall i :: 0 <= i < |chain| - 1 ==> HasCall(cg, chain[i + 1], chain[i]))
  }

  /** The chain goes down the functions from the i-th one. */
  ghost predicate GoesDown(funcs: seq<FuncId>, i: nat, chain: seq<FuncId>)
  {
    |chain| <= i + 1 <= |funcs| && forall t :: 0 <= t < |chain| ==> chain[t] == funcs[i - t]
  }

  /** Both chains go down one list of functions that call each other in turn, the second from a place at or above
      the first; and the first starts at or below the end of the second, or ends there or below. */
  ghost predicate OnOneStack(cg: CallGraph, from: seq<FuncId>, to: seq<FuncId>, funcs: seq<FuncId>, i: nat, j: nat)
    reads cg
  {
    && CallInTurn(cg, funcs) && GoesDown(funcs, i, from) && GoesDown(funcs, j, to) && i <= j
    && (i <= j + 1 - |to| || i + 1 - |from| <= j + 1 - |to|)
  }

  function Reversed<T>(s: seq<T>): (r: seq<T>)
    ensures |r| == |s| && forall i :: 0 <= i < |s| ==> r[i] == s[|s| - 1 - i]
  {
    seq(|s|, i requires 0 <= i < |s| => s[|s| - 1 - i])
  }

  lemma ReversedCalls(cg: CallGraph, chain: seq<FuncId>)
    requires CalledInTurn(cg, chain)
    ensures CallInTurn(cg, Reversed(chain))
  {
    hide HasCall;
    var r := Reversed(chain);
    forall i | 0 <= i < |r| - 1 ensures HasCall(cg, r[i], r[i + 1]) {
      var k := |chain| - 2 - i;
      assert r[i] == chain[k + 1] && r[i + 1] == chain[k];
    }
  }

  /** A list of functions, newest first, that begins with one chain and ends with the other. */
  lemma OneListIsOneStack(cg: CallGraph, from: seq<FuncId>, to: seq<FuncId>, list: seq<FuncId>)
    requires CalledInTurn(cg, list) && from != [] && to != [] && |from| <= |list|
    requires to <= list && from == list[|list| - |from|..]
    ensures exists funcs, i, j :: OnOneStack(cg, from, to, funcs, i, j)
  {
    hide CallInTurn, CalledInTurn;
    ReversedCalls(cg, list);
    var funcs, i, j := Reversed(list), |from| - 1, |list| - 1;
    assert OnOneStack(cg, from, to, funcs, i, j);
  }

  /** Chains that overlap lie on one stack. */
  lemma OverlapIsOneStack(cg: CallGraph, from: seq<FuncId>, to: seq<FuncId>)
    requires CalledInTurn(cg, from) && CalledInTurn(cg, to) && Overlap(to, from)
    ensures exists funcs, i, j :: OnOneStack(cg, from, to, funcs, i, j)
  {
    hide HasCall;
    var n :| 1 <= n <= |to| && n <= |from| && to[|to| - n..] == from[..n];
    var list := to[..|to| - n] + from;
    assert forall t :: 0 <= t < n ==> to[|to| - n..][t] == from[..n][t];
    assert forall t :: 0 <= t < |to| ==> list[t] == to[t];
    forall t | 0 <= t < |list| - 1 ensures HasCall(cg, list[t + 1], list[t]) {
      if t + 1 < |to| {
        assert list[t] == to[t] && list[t + 1] == to[t + 1];
      } else {
        var u := t - (|to| - n);
        assert list[t] == from[u] && list[t + 1] == from[u + 1];
      }
    }
    assert to == list[..|to|];
    OneListIsOneStack(cg, from, to, list);
  }

  /** The answer is exactly that the two chains may lie on one stack, when in each of them the functions call each
      other in turn. */
  lemma AnswerExactly(f: StackFilter, from: CSFuncId, to: CSFuncId)
    requires f.Valid() && from.func in f.callGraph.nodes && f.OldestOf(to) in f.callGraph.nodes
    requires CalledInTurn(f.callGraph, f.ChainOf(from)) && CalledInTurn(f.callGraph, f.ChainOf(to))
    ensures f.MayBeOnStack(from, to) <==> exists funcs, i, j :: OnOneStack(f.callGraph, f.ChainOf(from), f.ChainOf(to), funcs, i, j)
  {
    hide CalledInTurn, OnOneStack, Overlap, Reaches, CallChain;
    var cg, v, w := f.callGraph, f.ChainOf(from), f.ChainOf(to);
    ChainEnds(f, from);
    ChainEnds(f, to);
    if Overlap(w, v) {
      OverlapIsOneStack(cg, v, w);
    }
    if Reaches(cg.edges, cg.funcNodes[from.func], cg.funcNodes[f.OldestOf(to)]) {
      ReachedIsOneStack(cg, v, w);
    }
    if from.func == f.OldestOf(to) {
      EndsWithStart(v, w);
      OverlapIsOneStack(cg, v, w);
    }
    if funcs, i, j :| OnOneStack(cg, v, w, funcs, i, j) {
      OneStackIsAnswered(cg, v, w, funcs, i, j);
    }
  }

  lemma ChainEnds(f: StackFilter, g: CSFuncId)
    requires f.Valid()
    ensures var chain := f.ChainOf(g);
      && chain != [] && chain[0] == g.func && chain[|chain| - 1] == f.OldestOf(g)
      && (|chain| > 1 <==> f.withKcsContext && f.ContextOf(g).elems != [])
  {
  }

  lemma EndsWithStart(from: seq<FuncId>, to: seq<FuncId>)
    requires from != [] && to != [] && to[|to| - 1] == from[0]
    ensures Overlap(to, from)
  {
    assert to[|to| - 1..] == from[..1];
  }

  /** Chains on one stack overlap, or the second ends at or above the start of the first. */
  lemma OneStackIsAnswered(cg: CallGraph, from: seq<FuncId>, to: seq<FuncId>, funcs: seq<FuncId>, i: nat, j: nat)
    requires cg.Valid() && from != [] && to != [] && OnOneStack(cg, from, to, funcs, i, j)
    ensures (|from| > 1 && Overlap(to, from)) || from[0] == to[|to| - 1]
      || Reaches(cg.edges, cg.funcNodes[from[0]], cg.funcNodes[to[|to| - 1]])
  {
    hide Reaches, Overlap, CallInTurn, CallGraph.Valid;
    var oldest := j + 1 - |to|;
    assert to[|to| - 1] == funcs[oldest] && from[0] == funcs[i];
    if i < oldest {
      LaterFramesAreReached(cg, funcs, i, oldest);
    } else if i > oldest {
      SuffixIsPrefix(to, from, funcs, i, j, i - oldest + 1);
    }
  }

  ghost function FuncsOf(cg: CallGraph, p: seq<nat>): (r: seq<FuncId>)
    requires forall t :: 0 <= t < |p| ==> p[t] < |cg.nodes|
    reads cg
    ensures |r| == |p| && forall t :: 0 <= t < |p| ==> r[t] == cg.nodes[p[t]]
  {
    var nodes := cg.nodes;
    seq(|p|, t requires 0 <= t < |p| && p[t] < |nodes| => nodes[p[t]])
  }

  lemma PathInside(cg: CallGraph, p: seq<nat>, a: nat, b: nat)
    requires cg.Valid() && IsPath(cg.edges, p, a, b)
    ensures forall t :: 0 <= t < |p| ==> p[t] < |cg.nodes|
  {
    forall t | 0 <= t < |p| ensures p[t] < |cg.nodes| {
      if t + 1 < |p| {
        assert Succ(cg.edges, p[t], p[t + 1]);
      } else {
        assert Succ(cg.edges, p[t - 1], p[t]);
      }
    }
  }

  /** A chain from which a function is reached that the other chain ends with: the functions on the way join them. */
  lemma ReachedIsOneStack(cg: CallGraph, from: seq<FuncId>, to: seq<FuncId>)
    requires cg.Valid() && from != [] && to != [] && CalledInTurn(cg, from) && CalledInTurn(cg, to)
    requires from[0] in cg.funcNodes && to[|to| - 1] in cg.funcNodes
    requires Reaches(cg.edges, cg.funcNodes[from[0]], cg.funcNodes[to[|to| - 1]])
    ensures exists funcs, i, j :: OnOneStack(cg, from, to, funcs, i, j)
  {
    hide Reaches;
    var a, b := cg.funcNodes[from[0]], cg.funcNodes[to[|to| - 1]];
    var p := PathBetween(cg.edges, a, b);
    PathInside(cg, p, a, b);
    var way := Reversed(FuncsOf(cg, p));
    var list := to + way[1..|way| - 1] + from;
    JoinedCalls(cg, from, to, p, list);
    assert to == list[..|to|] && from == list[|list| - |from|..];
    OneListIsOneStack(cg, from, to, list);
  }

  lemma PathBetween(edges: seq<CallGraphEdge>, a: nat, b: nat) returns (p: seq<nat>)
    requires Reaches(edges, a, b)
    ensures IsPath(edges, p, a, b)
  {
    p :| IsPath(edges, p, a, b);
  }

  lemma JoinedCalls(cg: CallGraph, from: seq<FuncId>, to: seq<FuncId>, p: seq<nat>, list: seq<FuncId>)
    requires cg.Valid() && from != [] && to != [] && CalledInTurn(cg, from) && CalledInTurn(cg, to)
    requires from[0] in cg.funcNodes && to[|to| - 1] in cg.funcNodes
    requires IsPath(cg.edges, p, cg.funcNodes[from[0]], cg.funcNodes[to[|to| - 1]])
    requires forall t :: 0 <= t < |p| ==> p[t] < |cg.nodes|
    requires list == to + Reversed(FuncsOf(cg, p))[1..|p| - 1] + from
    ensures CalledInTurn(cg, list)
  {
    hide Succ;
    var way := Reversed(FuncsOf(cg, p));
    NodesOfPath(cg, p);
    assert way[0] == to[|to| - 1] && way[|way| - 1] == from[0];
    forall t | 0 <= t < |list| ensures list[t] in cg.nodes {
      if |to| <= t < |to| + |p| - 2 {
        assert list[t] == way[t - |to| + 1];
      }
    }
    forall t | 0 <= t < |list| - 1 ensures HasCall(cg, list[t + 1], list[t]) {
      if t + 1 < |to| {
        assert list[t] == to[t] && list[t + 1] == to[t + 1];
      } else if t < |to| + |p| - 2 {
        var u := t - |to| + 1;
        assert list[t] == way[u] && list[t + 1] == way[u + 1];
        assert way[u] == cg.nodes[p[|p| - 1 - u]] && way[u + 1] == cg.nodes[p[|p| - 2 - u]];
        assert Succ(cg.edges, p[|p| - 2 - u], p[|p| - 2 - u + 1]);
      } else {
        var u := t - (|to| + |p| - 2);
        assert list[t] == from[u] && list[t + 1] == from[u + 1];
      }
    }
  }

  lemma NodesOfPath(cg: CallGraph, p: seq<nat>)
    requires cg.Valid() && forall t :: 0 <= t < |p| ==> p[t] < |cg.nodes|
    ensures forall t :: 0 <= t < |p| ==> cg.nodes[p[t]] in cg.nodes && cg.funcNodes[cg.nodes[p[t]]] == p[t]
  {
  }

  /** The object exists while frame j is the newest: it lives anyway, or its frame is at or below frame j. */
  ghost predicate Lives(f: StackFilter, s: Stack, j: nat, current: CSFuncId, target: Path, cid: ContextId, facts: FuncFacts)
    reads f, f.Cache()
  {
    Permanent(current, target, cid, facts) || exists i :: 0 <= i <= j && OwnerFrame(f, s, i, target, cid)
  }

  ghost predicate OwnerFrame(f: StackFilter, s: Stack, i: nat, target: Path, cid: ContextId)
    reads f, f.Cache()
  {
    ContainingFunc(target).OwnedBy? && FrameOf(f, CSFuncId(cid, ContainingFunc(target).func), s, i)
  }

  /** The filter never drops an object that exists while the current function runs, and finds every function
      that it looks up. */
  lemma LiveObjectsAreKept(f: StackFilter, s: Stack, j: nat, current: CSFuncId, target: Path, cid: ContextId, facts: FuncFacts)
    requires f.Valid() && IsStack(f.callGraph, s) && FrameOf(f, current, s, j)
    requires Lives(f, s, j, current, target, cid, facts)
    ensures f.OwnerKnown(current, target, cid, facts) && f.MayBeAlive(current, target, cid, facts)
  {
    hide FrameOf, IsStack, StackFilter.Valid, StackFilter.MayBeOnStack, Permanent;
    if !Permanent(current, target, cid, facts) {
      OwnedUnlessPermanent(current, target, cid, facts);
      var container := CSFuncId(cid, ContainingFunc(target).func);
      var i :| 0 <= i <= j && OwnerFrame(f, s, i, target, cid);
      FrameInside(f, current, s, j);
      FrameIsNode(f, container, s, i);
      StackFilterIsSafe(f, s, i, j, container, current);
    }
  }

  lemma OwnedUnlessPermanent(current: CSFuncId, target: Path, cid: ContextId, facts: FuncFacts)
    requires !Permanent(current, target, cid, facts)
    ensures ContainingFunc(target).OwnedBy?
  {
  }

  lemma FrameInside(filter: StackFilter, f: CSFuncId, s: Stack, i: nat)
    requires FrameOf(filter, f, s, i)
    ensures i < |s.funcs|
  {
  }

  lemma FrameIsNode(filter: StackFilter, f: CSFuncId, s: Stack, i: nat)
    requires filter.Valid() && IsStack(filter.callGraph, s) && FrameOf(filter, f, s, i)
    ensures f.func in filter.callGraph.nodes
  {
  }
}
