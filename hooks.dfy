/**
 * Mutation-hook chaining: `setupInvalidation` and `setupOptimisticUpdate`
 * replace hooks on a mutation's options record by wrappers that do their own
 * work first and then call the hook they replaced with the same arguments,
 * returning its result.
 */
module MutationHooks {
  import opened JsValues
  import opened Invalidation
  import opened Effects
  import opened Optimistic

  /**
   * A hook slot of the options record. `Absent` is an unset hook and
   * `Callback(id)` a hook supplied by the user, whose effects are not modelled;
   * the three wrappers are the closures installed by the two setup functions,
   * each holding the hook it replaced.
   */
  datatype Hook =
    | Absent
    | Callback(id: nat)
    | InvalidateOnSuccess(model: string, operation: string, orig: Hook)
    | OptimisticOnMutate(model: string, operation: string, entries: seq<CacheEntry>, orig: Hook)
    | InvalidateOnSettled(model: string, operation: string, invalidates: bool, orig: Hook)

  /** The collaborators a hook runs against: query analysis, the mutator, the user hooks' results. */
  datatype Host = Host(analysis: QueryAnalysis, applyMutation: Mutator, callbackResult: (nat, seq<Value>) -> Value)

  /** The calls a hook makes and the value its promise resolves to. */
  datatype Outcome = Outcome(effects: seq<Effect>, result: Value)

  /**
   * Firing a hook with `args`. `provider` is the options record's
   * `optimisticDataProvider` at the time of the call.
   */
  function Run(h: Hook, args: seq<Value>, provider: Option<Provider>, host: Host): Outcome
    decreases h
  {
    match h
    case Absent => Outcome([], Undefined)
    case Callback(id) => Outcome([CallHook(id, args)], host.callbackResult(id, args))
    case InvalidateOnSuccess(model, operation, orig) =>
      // onSuccess(data, vars, context): the mutation arguments are the second argument
      var test := GetInvalidationPredicate(host.analysis, model, operation, At(args, 1));
      var inner := Run(orig, args, provider, host);
      Outcome([Invalidate(test)] + inner.effects, inner.result)
    case OptimisticOnMutate(model, operation, entries, orig) =>
      // onMutate(vars, context): the mutation arguments are the first argument
      var ctx := PassContext(Mutation(model, operation, At(args, 0)), provider, host.applyMutation);
      var inner := Run(orig, args, provider, host);
      Outcome(DispatchTrace(ctx, entries) + inner.effects, inner.result)
    case InvalidateOnSettled(model, operation, invalidates, orig) =>
      // onSettled(data, error, vars, context): the mutation arguments are the third argument
      var own := if invalidates
        then [Invalidate(GetInvalidationPredicate(host.analysis, model, operation, At(args, 2)))]
        else [];
      var inner := Run(orig, args, provider, host);
      Outcome(own + inner.effects, inner.result)
  }

  /** The hook at the bottom of a chain of wrappers: the user's own hook, or none. */
  function Root(h: Hook): (r: Hook)
    ensures r.Absent? || r.Callback?
  {
    match h
    case Absent => h
    case Callback(_) => h
    case InvalidateOnSuccess(_, _, orig) => Root(orig)
    case OptimisticOnMutate(_, _, _, orig) => Root(orig)
    case InvalidateOnSettled(_, _, _, orig) => Root(orig)
  }

  /**
   * However many wrappers are stacked, firing the chain calls the user's own
   * hook exactly once, last, with the same arguments, and resolves to its
   * result; with no user hook nothing is called and the result is `undefined`.
   */
  lemma {:induction false} ChainDelegatesOnce(h: Hook, args: seq<Value>, provider: Option<Provider>, host: Host)
    ensures var out := Run(h, args, provider, host);
            && (Root(h).Callback? ==>
                  && HookCalls(out.effects) == 1
                  && out.effects != []
                  && out.effects[|out.effects| - 1] == CallHook(Root(h).id, args)
                  && out.result == host.callbackResult(Root(h).id, args))
            && (Root(h).Absent? ==> HookCalls(out.effects) == 0 && out.result == Undefined)
  {
    match h
    case Absent =>
    case Callback(id) =>
      assert [CallHook(id, args)][1..] == [];
    case InvalidateOnSuccess(model, operation, orig) =>
      ChainDelegatesOnce(orig, args, provider, host);
      var own := [Invalidate(GetInvalidationPredicate(host.analysis, model, operation, At(args, 1)))];
      HookCallsAppend(own, Run(orig, args, provider, host).effects);
      assert own[1..] == [];
    case OptimisticOnMutate(model, operation, entries, orig) =>
      ChainDelegatesOnce(orig, args, provider, host);
      var ctx := PassContext(Mutation(model, operation, At(args, 0)), provider, host.applyMutation);
      HookCallsAppend(DispatchTrace(ctx, entries), Run(orig, args, provider, host).effects);
      DispatchMakesNoHookCalls(ctx, entries);
    case InvalidateOnSettled(model, operation, invalidates, orig) =>
      ChainDelegatesOnce(orig, args, provider, host);
      var own := if invalidates
        then [Invalidate(GetInvalidationPredicate(host.analysis, model, operation, At(args, 2)))]
        else [];
      HookCallsAppend(own, Run(orig, args, provider, host).effects);
      assert invalidates ==> own[1..] == [];
  }

  /** The optimistic pass never calls a user hook itself. */
  lemma {:induction false} DispatchMakesNoHookCalls(ctx: PassContext, entries: seq<CacheEntry>)
    ensures HookCalls(DispatchTrace(ctx, entries)) == 0
  {
    if entries != [] {
      var n := |entries| - 1;
      DispatchMakesNoHookCalls(ctx, entries[..n]);
      HookCallsAppend(DispatchTrace(ctx, entries[..n]), EntryTrace(ctx, entries[n]));
      EntryMakesNoHookCalls(ctx, entries[n]);
    }
  }

  /** One entry's trace holds no hook call. */
  lemma EntryMakesNoHookCalls(ctx: PassContext, entry: CacheEntry)
    ensures HookCalls(EntryTrace(ctx, entry)) == 0
  {
    var t := EntryTrace(ctx, entry);
    if t != [] {
      assert forall e :: e in t ==> !e.CallHook?;
      NoHookCallsIn(t);
    }
  }

  /** A trace without hook-call effects counts none. */
  lemma {:induction false} NoHookCallsIn(t: seq<Effect>)
    requires forall e :: e in t ==> !e.CallHook?
    ensures HookCalls(t) == 0
  {
    if t != [] {
      assert t[0] in t;
      assert forall e :: e in t[1..] ==> e in t;
      NoHookCallsIn(t[1..]);
    }
  }

  /**
   * The `onSuccess` wrapper invalidates once, with the predicate built from its
   * second argument, before anything the replaced hook does, and resolves to
   * the replaced hook's result.
   */
  lemma SuccessWrapperInvalidatesFirst(model: string, operation: string, orig: Hook,
                                       args: seq<Value>, provider: Option<Provider>, host: Host)
    ensures var out := Run(InvalidateOnSuccess(model, operation, orig), args, provider, host);
            var inner := Run(orig, args, provider, host);
            && out.effects != []
            && out.effects[0].Invalidate?
            && (forall key :: Matches(out.effects[0].test, host.analysis, key) <==>
                  || Includes(host.analysis.getMutatedModels(model, operation, At(args, 1)), At(key, 1))
                  || (Truthy(At(key, 3)) &&
                      exists m :: m in host.analysis.getMutatedModels(model, operation, At(args, 1))
                               && m in host.analysis.getReadModels(At(key, 1), At(key, 3))))
            && out.effects[1..] == inner.effects
            && out.result == inner.result
  {
  }

  /**
   * The `onMutate` wrapper runs the optimistic pass over the captured snapshot,
   * with its first argument as the mutation arguments, then the replaced hook.
   */
  lemma MutateWrapperPatchesFirst(model: string, operation: string, entries: seq<CacheEntry>, orig: Hook,
                                  args: seq<Value>, provider: Option<Provider>, host: Host)
    ensures var out := Run(OptimisticOnMutate(model, operation, entries, orig), args, provider, host);
            var inner := Run(orig, args, provider, host);
            var pass := DispatchTrace(PassContext(Mutation(model, operation, At(args, 0)), provider, host.applyMutation), entries);
            && out.effects[..|pass|] == pass
            && out.effects[|pass|..] == inner.effects
            && out.result == inner.result
  {
  }

  /**
   * The `onSettled` wrapper invalidates, from its third argument, only when an
   * invalidate function was supplied, then runs the replaced hook.
   */
  lemma SettledWrapperInvalidatesIfSupplied(model: string, operation: string, invalidates: bool, orig: Hook,
                                            args: seq<Value>, provider: Option<Provider>, host: Host)
    ensures var out := Run(InvalidateOnSettled(model, operation, invalidates, orig), args, provider, host);
            var inner := Run(orig, args, provider, host);
            var test := GetInvalidationPredicate(host.analysis, model, operation, At(args, 2));
            && (invalidates ==> out.effects == [Invalidate(test)] + inner.effects)
            && (!invalidates ==> out.effects == inner.effects)
            && out.result == inner.result
  {
  }

  /** The mutation options record whose hook fields the setup functions overwrite. */
  class MutationOptions {
    var onMutate: Hook
    var onSuccess: Hook
    var onError: Hook
    var onSettled: Hook
    var optimisticDataProvider: Option<Provider>

    constructor (onMutate: Hook, onSuccess: Hook, onError: Hook, onSettled: Hook,
                 optimisticDataProvider: Option<Provider>)
      ensures this.onMutate == onMutate && this.onSuccess == onSuccess
      ensures this.onError == onError && this.onSettled == onSettled
      ensures this.optimisticDataProvider == optimisticDataProvider
    {
      this.onMutate := onMutate;
      this.onSuccess := onSuccess;
      this.onError := onError;
      this.onSettled := onSettled;
      this.optimisticDataProvider := optimisticDataProvider;
    }

    /** What firing `onSuccess` does now. */
    function FireOnSuccess(args: seq<Value>, host: Host): Outcome
      reads this
    {
      Run(onSuccess, args, optimisticDataProvider, host)
    }

    /** What firing `onMutate` does now. */
    function FireOnMutate(args: seq<Value>, host: Host): Outcome
      reads this
    {
      Run(onMutate, args, optimisticDataProvider, host)
    }

    /** What firing `onSettled` does now. */
    function FireOnSettled(args: seq<Value>, host: Host): Outcome
      reads this
    {
      Run(onSettled, args, optimisticDataProvider, host)
    }

    /**
     * `setupInvalidation`: `onSuccess` becomes the invalidating wrapper around
     * the hook it had; nothing else changes.
     */
    method SetupInvalidation(model: string, operation: string)
      modifies this
      ensures onSuccess == InvalidateOnSuccess(model, operation, old(onSuccess))
      ensures Root(onSuccess) == Root(old(onSuccess))
      ensures onMutate == old(onMutate) && onError == old(onError) && onSettled == old(onSettled)
      ensures optimisticDataProvider == old(optimisticDataProvider)
    {
      var origOnSuccess := onSuccess;
      onSuccess := InvalidateOnSuccess(model, operation, origOnSuccess);
    }

    /**
     * `setupOptimisticUpdate`: `onMutate` becomes the optimistic wrapper over
     * the captured snapshot and `onSettled` the reconciling wrapper, each around
     * the hook it had; nothing else changes.
     */
    method SetupOptimisticUpdate(model: string, operation: string, cacheEntries: seq<CacheEntry>, invalidates: bool)
      modifies this
      ensures onMutate == OptimisticOnMutate(model, operation, cacheEntries, old(onMutate))
      ensures onSettled == InvalidateOnSettled(model, operation, invalidates, old(onSettled))
      ensures Root(onMutate) == Root(old(onMutate)) && Root(onSettled) == Root(old(onSettled))
      ensures onSuccess == old(onSuccess) && onError == old(onError)
      ensures optimisticDataProvider == old(optimisticDataProvider)
    {
      var origOnMutate := onMutate;
      var origOnSettled := onSettled;
      onMutate := OptimisticOnMutate(model, operation, cacheEntries, origOnMutate);
      onSettled := InvalidateOnSettled(model, operation, invalidates, origOnSettled);
    }
  }

  /**
   * Setting up invalidation and then firing `onSuccess` invalidates once and
   * then does exactly what the old `onSuccess` did, resolving to its result.
   */
  method SetupThenSucceed(options: MutationOptions, model: string, operation: string, args: seq<Value>, host: Host)
    returns (out: Outcome)
    modifies options
    ensures out == options.FireOnSuccess(args, host)
    ensures out.effects != []
    ensures out.effects[0] == Invalidate(GetInvalidationPredicate(host.analysis, model, operation, At(args, 1)))
    ensures out.effects[1..] == old(options.FireOnSuccess(args, host)).effects
    ensures out.result == old(options.FireOnSuccess(args, host)).result
  {
    options.SetupInvalidation(model, operation);
    out := options.FireOnSuccess(args, host);
  }
}
