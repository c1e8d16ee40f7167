/** Calling contexts (src/mir/context.rs, src/pta/strategies/context_strategy.rs): k-limited call strings and
    the cache that interns them. */
module Contexts {
  import opened Options
  import opened CallGraph

  type ContextId = nat

  /** A list of context elements, most recent first. */
  datatype Context<E> = Context(elems: seq<E>)

  function NewKLimitedContext<E>(ctx: Context<E>, elem: E, k: nat): Context<E>
  {
    if k == 0 then Context([])
    else if |ctx.elems| < k then Context([elem] + ctx.elems)
    else Context([elem] + ctx.elems[..k - 1])
  }

  function KLimitedContext<E>(ctx: Context<E>, k: nat): Context<E>
  {
    if |ctx.elems| <= k then ctx else Context(ctx.elems[..k])
  }

  /** The whole call string of a chain of calls, oldest call first, and its form with the most recent call
      first. */
  function CallString<E>(calls: seq<E>): Context<E>
  {
    if calls == [] then Context([])
    else Context([calls[|calls| - 1]] + CallString(calls[..|calls| - 1]).elems)
  }

  /** The context that results when every call of a chain extends and truncates the one before. */
  function ContextAlong<E>(calls: seq<E>, k: nat): Context<E>
  {
    if calls == [] then Context([])
    else NewKLimitedContext(ContextAlong(calls[..|calls| - 1], k), calls[|calls| - 1], k)
  }

  lemma {:induction false} CallStringElems<E>(calls: seq<E>)
    ensures |CallString(calls).elems| == |calls|
    ensures forall t :: 0 <= t < |calls| ==> CallString(calls).elems[t] == calls[|calls| - 1 - t]
  {
    if calls != [] {
      CallStringElems(calls[..|calls| - 1]);
    }
  }

  /** Truncating at every step loses nothing that truncating once at the end would keep: the context is the
      list of the k most recent calls of the whole chain. */
  lemma {:induction false} TruncationAtEveryStep<E>(calls: seq<E>, k: nat)
    ensures ContextAlong(calls, k) == KLimitedContext(CallString(calls), k)
    ensures |ContextAlong(calls, k).elems| == if |calls| < k then |calls| else k
    ensures forall t :: 0 <= t < |ContextAlong(calls, k).elems| ==>
      ContextAlong(calls, k).elems[t] == calls[|calls| - 1 - t]
  {
    CallStringElems(calls);
    if calls != [] {
      var before := calls[..|calls| - 1];
      TruncationAtEveryStep(before, k);
      CallStringElems(before);
      if k > 0 {
        var old' := KLimitedContext(CallString(before), k).elems;
        var all := [calls[|calls| - 1]] + CallString(before).elems;
        if |before| >= k {
          assert old'[..k - 1] == CallString(before).elems[..k - 1];
          assert [calls[|calls| - 1]] + CallString(before).elems[..k - 1] == all[..k];
        } else {
          assert all[..|all|] == all;
        }
      }
    }
  }

  class ContextCache<E(==)> {
    var contextList: seq<Context<E>>
    var contextToIndex: map<Context<E>, ContextId>

    /** Ids and contexts are in bijection. */
    ghost predicate Valid()
      reads this
    {
      && (forall c :: c in contextToIndex ==> contextToIndex[c] < |contextList| && contextList[contextToIndex[c]] == c)
      && (forall i :: 0 <= i < |contextList| ==> contextList[i] in contextToIndex && contextToIndex[contextList[i]] == i)
    }

    constructor ()
      ensures Valid() && contextList == []
    {
      contextList, contextToIndex := [], map[];
    }

    /** The id of a context; ids handed out before keep their meaning. */
    method GetContextId(context: Context<E>) returns (id: ContextId)
      requires Valid()
      modifies this
      ensures Valid() && id < |contextList| && contextList[id] == context
      ensures context in contextToIndex && contextToIndex[context] == id
      ensures contextList == if context in old(contextList) then old(contextList) else old(contextList) + [context]
    {
      if context in contextToIndex {
        id := contextToIndex[context];
      } else {
        id := |contextList|;
        contextList := contextList + [context];
        contextToIndex := contextToIndex[context := id];
      }
    }

    /** The inverse of `GetContextId`: the one context that has the id, or nothing for an id that no context
        has. */
    method GetContext(id: ContextId) returns (r: Option<Context<E>>)
      requires Valid()
      ensures forall c :: r == Some(c) <==> c in contextToIndex && contextToIndex[c] == id
      ensures r.None? <==> id >= |contextList|
    {
      r := if id < |contextList| then Some(contextList[id]) else None;
    }
  }

  /** A context has an id exactly when the id gives the context, and different ids give different contexts. */
  lemma IdsAndContextsBijective<E>(cache: ContextCache<E>, c: Context<E>, i: ContextId, j: ContextId)
    requires cache.Valid()
    ensures c in cache.contextToIndex && cache.contextToIndex[c] == i <==> i < |cache.contextList| && cache.contextList[i] == c
    ensures i < |cache.contextList| && j < |cache.contextList| ==> (cache.contextList[i] == cache.contextList[j] <==> i == j)
  {
  }

  class KCallSiteSensitive {
    const k: nat
    const ctxCache: ContextCache<BaseSite>

    constructor (k: nat)
      ensures this.k == k && fresh(ctxCache) && ctxCache.Valid() && ctxCache.contextList == []
    {
      this.k := k;
      ctxCache := new ContextCache<BaseSite>();
    }

    method GetEmptyContextId() returns (id: ContextId)
      requires ctxCache.Valid()
      modifies ctxCache
      ensures ctxCache.Valid() && old(ctxCache.contextList) <= ctxCache.contextList
      ensures id < |ctxCache.contextList| && ctxCache.contextList[id] == Context([])
      ensures ctxCache.contextList == old(ctxCache.contextList) || ctxCache.contextList == old(ctxCache.contextList) + [Context([])]
    {
      id := ctxCache.GetContextId(Context([]));
    }

    /** The callee's context. The caller's id comes from the cache, so the lookup succeeds. If the caller's
        context is that of a chain of calls, the callee's is that of the chain with this call. */
    method NewContext(callerCtxId: ContextId, callsite: BaseSite) returns (id: ContextId)
      requires ctxCache.Valid() && callerCtxId < |ctxCache.contextList|
      modifies ctxCache
      ensures ctxCache.Valid() && old(ctxCache.contextList) <= ctxCache.contextList
      ensures id < |ctxCache.contextList|
      ensures var c := ctxCache.contextList[id];
        && c == NewKLimitedContext(old(ctxCache.contextList[callerCtxId]), callsite, k)
        && ctxCache.contextList == if c in old(ctxCache.contextList) then old(ctxCache.contextList) else old(ctxCache.contextList) + [c]
      ensures forall calls :: old(ctxCache.contextList[callerCtxId]) == KLimitedContext(CallString(calls), k) ==>
        ctxCache.contextList[id] == KLimitedContext(CallString(calls + [callsite]), k)
    {
      var callerCtx := ctxCache.GetContext(callerCtxId);
      id := ctxCache.GetContextId(NewKLimitedContext(callerCtx.value, callsite, k));
      forall calls | old(ctxCache.contextList[callerCtxId]) == KLimitedContext(CallString(calls), k)
        ensures ctxCache.contextList[id] == KLimitedContext(CallString(calls + [callsite]), k)
      {
        TruncationAtEveryStep(calls, k);
        TruncationAtEveryStep(calls + [callsite], k);
        assert (calls + [callsite])[..|calls|] == calls;
      }
    }

    method GetContextById(id: ContextId) returns (c: Context<BaseSite>)
      requires ctxCache.Valid()
      ensures c == if id < |ctxCache.contextList| then ctxCache.contextList[id] else Context([])
    {
      var r := ctxCache.GetContext(id);
      c := if r.Some? then r.value else Context([]);
    }
  }
}
