/**
 * The query-key codec: the five-element key under which a query's result is
 * cached, `["zenstack", model, operation, args, {infinite, optimisticUpdate}]`,
 * and the test that tells such keys apart from other entries of a shared cache.
 */
module QueryKeys {
  import opened JsValues

  /** Namespace prefix, the first element of every key built here. */
  const QUERY_KEY_PREFIX: string := "zenstack"

  /** The query options recorded in the last key element. */
  datatype QueryFlags = QueryFlags(infinite: bool, optimisticUpdate: bool)

  /** The options `getKey` assumes when none are passed. */
  const DEFAULT_FLAGS: QueryFlags := QueryFlags(false, true)

  /**
   * The flags a key actually records: omitted options default to
   * DEFAULT_FLAGS, and an infinite query never takes optimistic updates.
   */
  function EffectiveFlags(options: Option<QueryFlags>): (f: QueryFlags)
    ensures f.infinite ==> !f.optimisticUpdate
    ensures options.None? ==> f == QueryFlags(false, true)
    ensures options.Some? ==> f.infinite == options.value.infinite
    ensures options.Some? && !options.value.infinite ==> f.optimisticUpdate == options.value.optimisticUpdate
  {
    var requested := if options.Some? then options.value else DEFAULT_FLAGS;
    QueryFlags(requested.infinite, if requested.infinite then false else requested.optimisticUpdate)
  }

  /** The flags object `{ infinite, optimisticUpdate }` stored in a key. */
  function FlagsValue(f: QueryFlags): Value {
    Obj(map["infinite" := Bool(f.infinite), "optimisticUpdate" := Bool(f.optimisticUpdate)])
  }

  /** `isZenStackKey`: at least five elements, the first of them the prefix. */
  predicate IsZenStackKey(key: seq<Value>) {
    if |key| < 5 then false
    else if key[0] != Str(QUERY_KEY_PREFIX) then false
    else true
  }

  /**
   * `getKey`: the key of a query. Its model, operation and arguments are kept
   * as given, and its flags, as later read through `key[4]?.optimisticUpdate`,
   * say what EffectiveFlags says.
   */
  function GetKey(model: string, operation: string, args: Value, options: Option<QueryFlags>): (key: seq<Value>)
    ensures |key| == 5 && IsZenStackKey(key)
    ensures key[1] == Str(model) && key[2] == Str(operation) && key[3] == args
    ensures Prop(key[4], "infinite") == Bool(options.Some? && options.value.infinite)
    ensures Prop(key[4], "optimisticUpdate")
         == Bool(options.None? || (!options.value.infinite && options.value.optimisticUpdate))
  {
    var flags := EffectiveFlags(options);
    [Str(QUERY_KEY_PREFIX), Str(model), Str(operation), args, FlagsValue(flags)]
  }

  /**
   * `isZenStackKey` is false exactly for a key that is too short or carries
   * another prefix; it has no precondition, so no input makes the test fail.
   */
  lemma ZenStackKeyIff(key: seq<Value>)
    ensures !IsZenStackKey(key) <==> |key| < 5 || key[0] != Str(QUERY_KEY_PREFIX)
  {
  }

  /**
   * Two queries share a key exactly when they agree on model, operation,
   * arguments and effective flags: the key identifies the query.
   */
  lemma GetKeyInjective(m1: string, o1: string, a1: Value, f1: Option<QueryFlags>,
                        m2: string, o2: string, a2: Value, f2: Option<QueryFlags>)
    ensures GetKey(m1, o1, a1, f1) == GetKey(m2, o2, a2, f2)
        <==> m1 == m2 && o1 == o2 && a1 == a2 && EffectiveFlags(f1) == EffectiveFlags(f2)
  {
  }

  /** An infinite query's key always opts out of optimistic updates, whatever was requested. */
  lemma InfiniteKeysOptOut(model: string, operation: string, args: Value, flags: QueryFlags)
    requires flags.infinite
    ensures !Truthy(Prop(GetKey(model, operation, args, Some(flags))[4], "optimisticUpdate"))
  {
  }
}
