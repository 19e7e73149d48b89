# Cache-consistency glue of the ZenStack Pinia Colada client, in Dafny

This project models `src/utils/common.ts` of the ZenStack Pinia Colada client.
That file is the part that keeps the client's query cache consistent after a
mutation. It has four pieces:

- **The query-key codec.** `getKey` builds the five-element cache key
  `["zenstack", model, operation, args, {infinite, optimisticUpdate}]`.
  `isZenStackKey` recognises such keys among the other entries of a shared
  cache.
- **The invalidation predicate.** `getInvalidationPredicate` and
  `findNestedRead` decide which cached queries a mutation makes stale. A query
  is stale when its own model was mutated, or when its (truthy) arguments read
  a mutated model through relations.
- **The optimistic-update pass.** `optimisticUpdate` walks a snapshot of the
  cache. For each entry it skips, writes the data given by the user's
  `optimisticDataProvider`, writes the result of the default mutator, or
  leaves the entry alone.
- **Hook chaining and URLs.** `setupInvalidation` and `setupOptimisticUpdate`
  replace the `onSuccess`, `onMutate` and `onSettled` hooks of a mutation's
  options. Each wrapper calls the hook it replaced afterwards. `makeUrl`
  builds the GET URL of a query.

Files:

- `values.dfy`: JavaScript values (`Value`), truthiness, `?.` property access and array destructuring.
- `query_key.dfy`: the key codec.
- `invalidation.dfy`: the invalidation predicate.
- `effects.dfy`: the calls the code makes to its callbacks, recorded as a trace (`Effect`).
- `optimistic.dfy`: the optimistic pass. It is a method with a loop, proved equal to the specification function `DispatchTrace`.
- `hooks.dfy`: the hook wrappers (`Hook`), what firing a hook does (`Run`), and the options record as a class whose setup methods overwrite its hook fields.
- `url.dfy`: `makeUrl`, and a URL parser used as its inverse.

The code calls these collaborators, which are parameters of the model:
- `getMutatedModels` and `getReadModels`, with the schema already bound: the `QueryAnalysis` datatype.
- `applyMutation`: the `Mutator` type; `undefined` means "not applicable".
- The user's `optimisticDataProvider`.
- The results of the user's own hooks.
- `serialize`, `JSON.stringify` and `encodeURIComponent`: the `Codec` datatype.

Calls to `setCache`, `invalidate`, the provider, the mutator and the user's
hooks are recorded in order, as `Effect`s.

Three behaviours of the code are easy to misread from its names and comments, and the model follows the code:
- The invalidation predicate never checks the key's `"zenstack"` prefix, although `isZenStackKey` exists for that (`Invalidation.PrefixIgnored`).
- Read models are looked up only when the key's arguments are truthy (the `if (args)` guard of the predicate).
- `getKey`'s doc comment says a URL passed as the operation is cut to its last path segment. The code keeps the operation as given, and so does the model.
- The cancelling of in-flight queries after a write happens in the callers' `setCache` callback, outside this file.

## Model

Functions that only compute have no row of their own; the lemma rows below
carry their contracts: `QueryKeys.IsZenStackKey` (`ZenStackKeyIff`),
`Invalidation.GetInvalidationPredicate` and `Invalidation.Matches`, the
closure it returns (`MatchesIff`, `PrefixIgnored`), `MutationHooks.Run` for the
three wrapper closures (`ChainDelegatesOnce` and the three wrapper rows),
and `Urls.ParseUrl` (`ParseUrlInverse`, `MakeUrlRoundTrip`).

| member | source | states |
|---|---|---|
| `QueryKeys.EffectiveFlags` | src/utils/common.ts:179-186 | Omitted options are `{infinite: false, optimisticUpdate: true}`; `infinite` is kept; an infinite query never has `optimisticUpdate`; otherwise the requested `optimisticUpdate` is kept |
| `QueryKeys.GetKey` | src/utils/common.ts:175-188 | The key has exactly 5 elements and passes `isZenStackKey`; elements 1-3 are the model, the operation and the arguments as given; the flags read back through `key[4]?.infinite` / `?.optimisticUpdate` are the effective ones |
| `QueryKeys.ZenStackKeyIff` | src/utils/common.ts:463-473 | Contract of `IsZenStackKey`: `isZenStackKey` is false exactly when the key has fewer than 5 elements or its first element is not `"zenstack"`; it is total, so no input makes it fail |
| `QueryKeys.GetKeyInjective` | src/utils/common.ts:183-188 | Two `getKey` results are equal iff model, operation, arguments and effective flags are equal |
| `QueryKeys.InfiniteKeysOptOut` | src/utils/common.ts:184-187 | The key of an infinite query carries a falsy `optimisticUpdate`, whatever was requested |
| `Invalidation.SomeIncluded` | src/utils/common.ts:313 | `targets.some(m => read.includes(m))` holds iff some target model is among the read models |
| `Invalidation.MatchesIff` | src/utils/common.ts:267-302 | Contract of `GetInvalidationPredicate` and of `Matches`, the closure it returns: the predicate is true iff `key[1]` is a mutated model, or `key[3]` is truthy and some mutated model is among `getReadModels(key[1], key[3])` |
| `Invalidation.FindNestedRead` | src/utils/common.ts:306-314 | The query reads a target model exactly when some target model is among `getReadModels(visitingModel, args)` |
| `Invalidation.MoreMutatedModelsInvalidateMore` | src/utils/common.ts:274-314 | A larger set of mutated models never invalidates fewer keys |
| `Invalidation.DirectHit` | src/utils/common.ts:279-287 | A key built for a mutated model is invalidated, whatever its arguments |
| `Invalidation.FalsyArgsNoNestedRead` | src/utils/common.ts:289-301 | A key for an unmutated model with falsy arguments is not invalidated |
| `Invalidation.PrefixIgnored` | src/utils/common.ts:276-302 | For every non-empty key, replacing its first element by any value leaves the predicate's verdict unchanged |
| `Invalidation.PrefixNotChecked` | src/utils/common.ts:276-279 | Example: the key `["other", "User"]`, which `isZenStackKey` rejects, is matched when `User` was mutated |
| `Optimistic.EntryTrace` | src/utils/common.ts:394-412 | An entry whose key is not a ZenStack key, whose `error` is truthy or whose `key[4].optimisticUpdate` is falsy causes no call at all: no provider, no mutator, no write |
| `Optimistic.OptimisticUpdate` | src/utils/common.ts:378-461 | The loop over the snapshot makes exactly the calls of `DispatchTrace`: each entry's calls, in entry order |
| `Optimistic.EntryWritesAre` | src/utils/common.ts:414-459 | One entry receives at most one `setCache`, under its own key, carrying its decided value |
| `Optimistic.DispatchWritesIndexed` | src/utils/common.ts:388-460 | Over the whole pass, the k-th write goes to entry `idx[k]` under that entry's key; the positions strictly increase (at most one write per entry, in entry order); an entry is written iff its own decision is a write, so all other entries keep their data |
| `Optimistic.IneligibleEntriesNeverWritten` | src/utils/common.ts:394-412 | No position of an ineligible entry is among the written positions of a pass |
| `Optimistic.OptedOutQueriesNeverPatched` | src/utils/common.ts:406-412 | An entry whose key was built for an infinite query, or with `optimisticUpdate: false`, is never touched |
| `Optimistic.ProviderSkipLeavesEntry` | src/utils/common.ts:423-428 | For `kind === "Skip"`: the provider is consulted once, the mutator is not run, and nothing is written |
| `Optimistic.ProviderUpdateWritesVerbatim` | src/utils/common.ts:429-436 | For `kind === "Update"`: the provider is consulted once, then exactly one `setCache(key, providerResult.data)` with the data verbatim; the mutator is not run |
| `Optimistic.DefaultTraceWrites` | src/utils/common.ts:440-459 | The default path writes the mutator's result under the entry's key iff it is not `undefined` |
| `Optimistic.DefaultPathWritesDefinedResult` | src/utils/common.ts:414-459 | With no provider, or with any other `kind`, the entry's calls are exactly: the provider consultation (if there is a provider), one mutator run, and a write of its result exactly when that is not `undefined` (`null` is written); so the entry's recorded write is that result or none |
| `MutationHooks.ChainDelegatesOnce` | src/utils/common.ts:250-374 | Contract of `Run` on any chain: however many wrappers are stacked, firing the chain calls the user's own hook exactly once, as the last call, with the same arguments, and resolves to its result; with no user hook nothing is called and the result is `undefined` |
| `MutationHooks.SuccessWrapperInvalidatesFirst` | src/utils/common.ts:250-263 | The new `onSuccess` first invalidates once, with the predicate built from `args[1]` (characterised key by key). Then it does exactly what the saved hook does and returns its result |
| `MutationHooks.MutateWrapperPatchesFirst` | src/utils/common.ts:343-357 | The new `onMutate` runs the optimistic pass over the captured snapshot with `args[0]` as the mutation arguments. Then it runs the saved hook and returns its result |
| `MutationHooks.SettledWrapperInvalidatesIfSupplied` | src/utils/common.ts:360-374 | The new `onSettled` invalidates from `args[2]` only when an invalidate function was supplied. Then it runs the saved hook and returns its result |
| `MutationHooks.MutationOptions.SetupInvalidation` | src/utils/common.ts:242-264 | `onSuccess` becomes the invalidating wrapper around the old `onSuccess` (same user hook at the root); the other hooks and the provider are unchanged |
| `MutationHooks.MutationOptions.SetupOptimisticUpdate` | src/utils/common.ts:329-375 | `onMutate` and `onSettled` become wrappers around their old values; `onSuccess`, `onError` and the provider are unchanged |
| `MutationHooks.SetupThenSucceed` | src/utils/common.ts:250-262 | After `setupInvalidation`, firing `onSuccess` makes one invalidation, then exactly the calls of the old `onSuccess`, and resolves to the old result |
| `Urls.LowerCaseFirst` | src/utils/common.ts:210 | Length is kept and only the first character may change: an ASCII capital becomes its lower-case letter (code point + 32), any other character is kept |
| `Urls.MakeUrl` | src/utils/common.ts:209-213 | With falsy arguments the URL is exactly `endpoint + "/" + lowerCaseFirst(model) + "/" + operation`; in every case it starts with that path |
| `Urls.MakeUrlRoundTrip` | src/utils/common.ts:209-221 | The parser, which accepts a query only when it opens with `q=` and its `&` part only when it opens with `meta=`, accepts the URL and gives back the path; the `q` value `enc(stringify(data))` exactly when the arguments are truthy; and the `meta` value `enc(stringify({serialization: meta}))` exactly when the serializer also returned truthy metadata |
| `Urls.ParseUrlInverse` | src/utils/common.ts:210-220 | Every URL the parser accepts is rebuilt exactly from its parts: the path, then `?q=` and the `q` value if present, then `&meta=` and the `meta` value if present; with `MakeUrlRoundTrip` this fixes the whole text of `makeUrl`'s result, tags included |

## Left out

- `fetcher` (network I/O, `Response` handling), `marshal` and `unmarshal`, and all of `src/utils/serialization.ts`: these are JSON, SuperJSON, decimal and base64 codecs from foreign libraries.
- `getMutatedModels`, `getReadModels` and `applyMutation` are uninterpreted parameters. Their source (`./query-analysis`, `./mutator`) is not part of this model. So is relation traversal, `$optimistic` tagging and filter matching.
- `serialize`, `JSON.stringify` and `encodeURIComponent` are uninterpreted parameters of `makeUrl`.
- `Urls.MakeUrlRoundTrip` holds only for encoders that never emit `?` or `&`, and for an endpoint, model and operation without `?`. `encodeURIComponent` percent-encodes both characters.
- `Urls.LowerCaseFirst`: lower-cases ASCII capitals only. JavaScript's `toLowerCase` also maps non-ASCII capitals.
- JavaScript numbers are reals: NaN, -0 and BigInt are left out of `Value` and of truthiness. Functions and symbols are also left out of `Value`.
- Logging (`console.log`, `console.warn`, the `logging` flag) is left out.
- `async`/`await` is modelled as sequential calls, in the order the code awaits them.
- Exceptions are left out: a provider or mutator that throws, and an `invalidate` that rejects. Each would propagate to the hook's caller.
- The `onError` hook is a field of the options record and no setup function touches it. Other fields of the record are left out.
- `src/index.ts`, `src/vue.ts` and `src/common/client.ts`: Vue and Pinia Colada wiring and the generated per-model hooks. Two remarks on that wiring, which is outside this model:
  - it calls the predicate with `{ queryKey }`, while `common.ts` destructures `{ key }`;
  - it builds the snapshot entries with a `queryKey` field, while `optimisticUpdate` reads `key`.
