/**
 * What the cache-consistency code does to the outside world, as a trace of
 * calls in the order it makes them: consulting the user's optimistic-data
 * provider, running the default mutator, writing a cache entry (`setCache`),
 * invalidating through a predicate, and calling a saved user hook.
 */
module Effects {
  import opened JsValues
  import opened Invalidation

  /** The object handed to the optimistic-data provider. */
  datatype ProviderArgs = ProviderArgs(
    queryModel: Value,
    queryOperation: Value,
    queryArgs: Value,
    currentData: Value,
    mutationArgs: Value)

  datatype Effect =
    | ConsultProvider(request: ProviderArgs)
    | ApplyMutation(queryModel: Value, queryOperation: Value, data: Value)
    | SetCache(key: seq<Value>, data: Value)
    | Invalidate(test: InvalidationPredicate)
    | CallHook(id: nat, args: seq<Value>)

  /** One `setCache(key, data)` call. */
  datatype Write = Write(key: seq<Value>, data: Value)

  /** The cache writes of a trace, in order. */
  function Writes(trace: seq<Effect>): seq<Write> {
    if trace == [] then []
    else (if trace[0].SetCache? then [Write(trace[0].key, trace[0].data)] else []) + Writes(trace[1..])
  }

  /** The number of calls to saved user hooks in a trace. */
  function HookCalls(trace: seq<Effect>): nat {
    if trace == [] then 0
    else (if trace[0].CallHook? then 1 else 0) + HookCalls(trace[1..])
  }

  /** A single effect writes exactly when it is a `setCache` call. */
  lemma WritesSingleton(e: Effect)
    ensures Writes([e]) == if e.SetCache? then [Write(e.key, e.data)] else []
  {
  }

  /** Writes distribute over the concatenation of traces. */
  lemma {:induction false} WritesAppend(a: seq<Effect>, b: seq<Effect>)
    ensures Writes(a + b) == Writes(a) + Writes(b)
  {
    if a != [] {
      assert (a + b)[0] == a[0];
      assert (a + b)[1..] == a[1..] + b;
      WritesAppend(a[1..], b);
    } else {
      assert a + b == b;
    }
  }

  /** Hook calls add up over the concatenation of traces. */
  lemma {:induction false} HookCallsAppend(a: seq<Effect>, b: seq<Effect>)
    ensures HookCalls(a + b) == HookCalls(a) + HookCalls(b)
  {
    if a != [] {
      assert (a + b)[0] == a[0];
      assert (a + b)[1..] == a[1..] + b;
      HookCallsAppend(a[1..], b);
    } else {
      assert a + b == b;
    }
  }
}
