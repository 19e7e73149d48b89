/**
 * The optimistic-update pass: for every entry of a cache snapshot, decide
 * whether to skip it, overwrite it with the provider's data, overwrite it with
 * the default mutator's result, or leave it alone, and issue the `setCache`
 * calls that follow.
 */
module Optimistic {
  import opened JsValues
  import opened QueryKeys
  import opened Effects

  /** A cache entry of the snapshot: `{ key, state: { data, error } }`. */
  datatype CacheEntry = CacheEntry(key: seq<Value>, data: Value, error: Value)

  /** The mutation being applied. */
  datatype Mutation = Mutation(model: string, operation: string, args: Value)

  /** The user's `optimisticDataProvider`; its result is any value (`providerResult?.kind`). */
  type Provider = ProviderArgs -> Value

  /**
   * `applyMutation(queryModel, queryOperation, data, mutationModel, mutationOp,
   * mutationArgs)` with the schema bound; `undefined` means "not applicable".
   */
  type Mutator = (Value, Value, Value, string, string, Value) -> Value

  /** Everything one optimistic pass depends on besides the entries. */
  datatype PassContext = PassContext(mutation: Mutation, provider: Option<Provider>, applyMutation: Mutator)

  /** An entry the pass considers at all: a ZenStack key, no error, opted in. */
  predicate Eligible(entry: CacheEntry) {
    IsZenStackKey(entry.key) && !Truthy(entry.error) && Truthy(Prop(entry.key[4], "optimisticUpdate"))
  }

  /** The provider's argument for an entry. */
  function Request(mutation: Mutation, entry: CacheEntry): ProviderArgs
    requires IsZenStackKey(entry.key)
  {
    ProviderArgs(entry.key[1], entry.key[2], entry.key[3], entry.data, mutation.args)
  }

  /** The default path: run the mutator, and write its result unless it is `undefined`. */
  function DefaultTrace(ctx: PassContext, entry: CacheEntry): seq<Effect>
    requires IsZenStackKey(entry.key)
  {
    var queryModel, queryOperation := entry.key[1], entry.key[2];
    var mutated := ctx.applyMutation(queryModel, queryOperation, entry.data,
                                     ctx.mutation.model, ctx.mutation.operation, ctx.mutation.args);
    [ApplyMutation(queryModel, queryOperation, entry.data)]
      + (if mutated != Undefined then [SetCache(entry.key, mutated)] else [])
  }

  /**
   * The calls the pass makes for one entry, in order. Whatever the
   * collaborators return, an ineligible entry causes no call at all: neither
   * the provider nor the mutator is consulted and nothing is written.
   */
  function EntryTrace(ctx: PassContext, entry: CacheEntry): (t: seq<Effect>)
    ensures !Eligible(entry) ==> t == []
  {
    if !IsZenStackKey(entry.key) then []
    else if Truthy(entry.error) then []
    else if !Truthy(Prop(entry.key[4], "optimisticUpdate")) then []
    else if ctx.provider.Some? then
      var request := Request(ctx.mutation, entry);
      var result := ctx.provider.value(request);
      var kind := Prop(result, "kind");
      if kind == Str("Skip") then [ConsultProvider(request)]
      else if kind == Str("Update") then [ConsultProvider(request), SetCache(entry.key, Prop(result, "data"))]
      else [ConsultProvider(request)] + DefaultTrace(ctx, entry)
    else DefaultTrace(ctx, entry)
  }

  /** The calls of a whole pass over a snapshot: the entries' traces, in entry order. */
  function DispatchTrace(ctx: PassContext, entries: seq<CacheEntry>): seq<Effect> {
    if entries == [] then []
    else DispatchTrace(ctx, entries[..|entries| - 1]) + EntryTrace(ctx, entries[|entries| - 1])
  }

  /**
   * `optimisticUpdate`: walks the snapshot once and returns the calls it makes
   * (the provider consultations, the mutator runs and the `setCache` writes).
   */
  method OptimisticUpdate(mutation: Mutation, provider: Option<Provider>, applyMutation: Mutator,
                          cacheEntries: seq<CacheEntry>)
    returns (trace: seq<Effect>)
    ensures trace == DispatchTrace(PassContext(mutation, provider, applyMutation), cacheEntries)
  {
    ghost var ctx := PassContext(mutation, provider, applyMutation);
    trace := [];
    for i := 0 to |cacheEntries|
      invariant trace == DispatchTrace(ctx, cacheEntries[..i])
    {
      var entry := cacheEntries[i];
      assert cacheEntries[..i + 1][..i] == cacheEntries[..i];
      assert DispatchTrace(ctx, cacheEntries[..i + 1]) == trace + EntryTrace(ctx, entry);
      if !IsZenStackKey(entry.key) {
        continue;
      }
      if Truthy(entry.error) {
        continue;
      }
      var queryModel, queryOperation, queryArgs, queryOptions := entry.key[1], entry.key[2], entry.key[3], entry.key[4];
      if !Truthy(Prop(queryOptions, "optimisticUpdate")) {
        continue;
      }
      if provider.Some? {
        var request := ProviderArgs(queryModel, queryOperation, queryArgs, entry.data, mutation.args);
        var providerResult := provider.value(request);
        trace := trace + [ConsultProvider(request)];
        if Prop(providerResult, "kind") == Str("Skip") {
          continue;
        } else if Prop(providerResult, "kind") == Str("Update") {
          trace := trace + [SetCache(entry.key, Prop(providerResult, "data"))];
          continue;
        }
      }
      var mutatedData := applyMutation(queryModel, queryOperation, entry.data,
                                       mutation.model, mutation.operation, mutation.args);
      trace := trace + [ApplyMutation(queryModel, queryOperation, entry.data)];
      if mutatedData != Undefined {
        trace := trace + [SetCache(entry.key, mutatedData)];
      }
    }
    assert cacheEntries[..|cacheEntries|] == cacheEntries;
  }

  /** The value a pass writes into one entry, if any. */
  function EntryWrite(ctx: PassContext, entry: CacheEntry): Option<Value> {
    var ws := Writes(EntryTrace(ctx, entry));
    if ws == [] then None else Some(ws[0].data)
  }

  /** The positions of the entries a pass writes, in increasing order. */
  function WrittenIndices(ctx: PassContext, entries: seq<CacheEntry>): seq<nat> {
    if entries == [] then []
    else
      var n := |entries| - 1;
      WrittenIndices(ctx, entries[..n]) + (if EntryWrite(ctx, entries[n]).Some? then [n] else [])
  }

  /** The default path writes the mutator's result under the entry's key unless it is `undefined`. */
  lemma DefaultTraceWrites(ctx: PassContext, entry: CacheEntry)
    requires IsZenStackKey(entry.key)
    ensures var mutated := ctx.applyMutation(entry.key[1], entry.key[2], entry.data,
                                             ctx.mutation.model, ctx.mutation.operation, ctx.mutation.args);
            Writes(DefaultTrace(ctx, entry)) == if mutated != Undefined then [Write(entry.key, mutated)] else []
  {
    var mutated := ctx.applyMutation(entry.key[1], entry.key[2], entry.data,
                                     ctx.mutation.model, ctx.mutation.operation, ctx.mutation.args);
    var first := ApplyMutation(entry.key[1], entry.key[2], entry.data);
    var rest: seq<Effect> := if mutated != Undefined then [SetCache(entry.key, mutated)] else [];
    WritesAppend([first], rest);
    WritesSingleton(first);
    if mutated != Undefined {
      WritesSingleton(SetCache(entry.key, mutated));
    }
  }

  /**
   * Every entry gets at most one write, under its own key: the writes of one
   * entry's trace are exactly its EntryWrite.
   */
  lemma EntryWritesAre(ctx: PassContext, entry: CacheEntry)
    ensures Writes(EntryTrace(ctx, entry))
         == if EntryWrite(ctx, entry).Some? then [Write(entry.key, EntryWrite(ctx, entry).value)] else []
  {
    if Eligible(entry) {
      if ctx.provider.Some? {
        var request := Request(ctx.mutation, entry);
        var result := ctx.provider.value(request);
        var kind := Prop(result, "kind");
        WritesSingleton(ConsultProvider(request));
        if kind == Str("Skip") {
        } else if kind == Str("Update") {
          WritesAppend([ConsultProvider(request)], [SetCache(entry.key, Prop(result, "data"))]);
          WritesSingleton(SetCache(entry.key, Prop(result, "data")));
        } else {
          WritesAppend([ConsultProvider(request)], DefaultTrace(ctx, entry));
          DefaultTraceWrites(ctx, entry);
        }
      } else {
        DefaultTraceWrites(ctx, entry);
      }
    }
  }

  /**
   * `ws` are the writes made to `entries` at the increasing positions `idx`:
   * the k-th write goes to entry idx[k] with that entry's own key and value,
   * and an entry's position is listed exactly when its decision is a write.
   */
  ghost predicate IndexedWrites(ctx: PassContext, entries: seq<CacheEntry>, ws: seq<Write>, idx: seq<nat>) {
    && |ws| == |idx|
    && (forall k :: 0 <= k < |idx| ==>
          idx[k] < |entries| && EntryWrite(ctx, entries[idx[k]]).Some? &&
          ws[k] == Write(entries[idx[k]].key, EntryWrite(ctx, entries[idx[k]]).value))
    && (forall j, k :: 0 <= j < k < |idx| ==> idx[j] < idx[k])
    && (forall i :: 0 <= i < |entries| ==> (i in idx <==> EntryWrite(ctx, entries[i]).Some?))
  }

  /** Appending one entry to the snapshot appends its write, if any, and its position. */
  lemma IndexedWritesSnoc(ctx: PassContext, entries: seq<CacheEntry>, ws0: seq<Write>, idx0: seq<nat>)
    requires entries != []
    requires IndexedWrites(ctx, entries[..|entries| - 1], ws0, idx0)
    ensures var n := |entries| - 1;
            var w := EntryWrite(ctx, entries[n]);
            IndexedWrites(ctx, entries,
                          ws0 + (if w.Some? then [Write(entries[n].key, w.value)] else []),
                          idx0 + (if w.Some? then [n] else []))
  {
  }

  /**
   * The writes of a whole pass: the k-th write goes to the entry at position
   * idx[k] with that entry's own key and value; the positions increase (each
   * entry is written at most once, in entry order); and an entry is written
   * exactly when its own decision calls for a write.
   */
  lemma {:induction false} DispatchWritesIndexed(ctx: PassContext, entries: seq<CacheEntry>)
    ensures IndexedWrites(ctx, entries, Writes(DispatchTrace(ctx, entries)), WrittenIndices(ctx, entries))
  {
    if entries != [] {
      var n := |entries| - 1;
      DispatchWritesIndexed(ctx, entries[..n]);
      WritesAppend(DispatchTrace(ctx, entries[..n]), EntryTrace(ctx, entries[n]));
      EntryWritesAre(ctx, entries[n]);
      IndexedWritesSnoc(ctx, entries, Writes(DispatchTrace(ctx, entries[..n])), WrittenIndices(ctx, entries[..n]));
    }
  }

  /** No pass ever writes an ineligible entry, nor consults anything for it. */
  lemma IneligibleEntriesNeverWritten(ctx: PassContext, entries: seq<CacheEntry>, i: nat)
    requires i < |entries| && !Eligible(entries[i])
    ensures i !in WrittenIndices(ctx, entries)
    ensures EntryTrace(ctx, entries[i]) == []
  {
    DispatchWritesIndexed(ctx, entries);
  }

  /** A key built for an infinite query, or with optimistic updates turned off, is never patched. */
  lemma OptedOutQueriesNeverPatched(ctx: PassContext, model: string, operation: string, args: Value,
                                    flags: QueryFlags, data: Value, error: Value)
    requires flags.infinite || !flags.optimisticUpdate
    ensures EntryTrace(ctx, CacheEntry(GetKey(model, operation, args, Some(flags)), data, error)) == []
  {
  }

  /** A provider answering `Skip` is consulted once; the mutator is not run and nothing is written. */
  lemma ProviderSkipLeavesEntry(ctx: PassContext, entry: CacheEntry)
    requires Eligible(entry) && ctx.provider.Some?
    requires Prop(ctx.provider.value(Request(ctx.mutation, entry)), "kind") == Str("Skip")
    ensures EntryTrace(ctx, entry) == [ConsultProvider(Request(ctx.mutation, entry))]
    ensures EntryWrite(ctx, entry).None?
  {
    WritesSingleton(ConsultProvider(Request(ctx.mutation, entry)));
  }

  /**
   * A provider answering `Update` is consulted once and its `data` is written
   * verbatim under the entry's key; the mutator is not run.
   */
  lemma ProviderUpdateWritesVerbatim(ctx: PassContext, entry: CacheEntry)
    requires Eligible(entry) && ctx.provider.Some?
    requires Prop(ctx.provider.value(Request(ctx.mutation, entry)), "kind") == Str("Update")
    ensures var result := ctx.provider.value(Request(ctx.mutation, entry));
            EntryTrace(ctx, entry) == [ConsultProvider(Request(ctx.mutation, entry)), SetCache(entry.key, Prop(result, "data"))]
  {
  }

  /**
   * Without a provider, or with any other answer from it, the provider (if
   * any) is consulted once, then the mutator runs once, and the entry is written exactly when the mutator's
   * result is not `undefined` (a `null` result is written).
   */
  lemma DefaultPathWritesDefinedResult(ctx: PassContext, entry: CacheEntry)
    requires Eligible(entry)
    requires ctx.provider.Some? ==>
      var kind := Prop(ctx.provider.value(Request(ctx.mutation, entry)), "kind");
      kind != Str("Skip") && kind != Str("Update")
    ensures var mutated := ctx.applyMutation(entry.key[1], entry.key[2], entry.data,
                                             ctx.mutation.model, ctx.mutation.operation, ctx.mutation.args);
            && EntryTrace(ctx, entry) ==
                 (if ctx.provider.Some? then [ConsultProvider(Request(ctx.mutation, entry))] else [])
                 + [ApplyMutation(entry.key[1], entry.key[2], entry.data)]
                 + (if mutated != Undefined then [SetCache(entry.key, mutated)] else [])
            && EntryWrite(ctx, entry) == (if mutated != Undefined then Some(mutated) else None)
  {
    EntryWritesAre(ctx, entry);
    DefaultTraceWrites(ctx, entry);
    if ctx.provider.Some? {
      WritesAppend([ConsultProvider(Request(ctx.mutation, entry))], DefaultTrace(ctx, entry));
      WritesSingleton(ConsultProvider(Request(ctx.mutation, entry)));
    }
  }
}
