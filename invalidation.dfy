/**
 * The invalidation predicate: after a mutation, which cached queries must be
 * thrown away. A query is stale when its own model was mutated, or when its
 * arguments read (through relations) a model that was mutated.
 */
module Invalidation {
  import opened JsValues
  import opened QueryKeys

  /**
   * The query-analysis collaborators, with the schema already bound:
   * `getMutatedModels(model, operation, mutationArgs)` and
   * `getReadModels(queryModel, queryArgs)`. Their definitions are not part of
   * this model.
   */
  datatype QueryAnalysis = QueryAnalysis(
    getMutatedModels: (string, string, Value) -> seq<string>,
    getReadModels: (Value, Value) -> seq<string>)

  /** The predicate closure: all it captures is the set of mutated models. */
  datatype InvalidationPredicate = InvalidationPredicate(mutatedModels: seq<string>)

  /** `targets.some((m) => read.includes(m))`. */
  function SomeIncluded(targets: seq<string>, read: seq<string>): (r: bool)
    ensures r <==> exists m :: m in targets && m in read
  {
    if targets == [] then false
    else if targets[0] in read then true
    else SomeIncluded(targets[1..], read)
  }

  /** `findNestedRead`: the query reads some target model exactly when one of them is among its read models. */
  function FindNestedRead(visitingModel: Value, targetModels: seq<string>, analysis: QueryAnalysis, args: Value): (r: bool)
    ensures r <==> exists m :: m in targetModels && m in analysis.getReadModels(visitingModel, args)
  {
    SomeIncluded(targetModels, analysis.getReadModels(visitingModel, args))
  }

  /** `getInvalidationPredicate`: the mutated models are computed once, up front. */
  function GetInvalidationPredicate(analysis: QueryAnalysis, model: string, operation: string, mutationArgs: Value): InvalidationPredicate {
    InvalidationPredicate(analysis.getMutatedModels(model, operation, mutationArgs))
  }

  /**
   * The closure returned by `getInvalidationPredicate`, applied to a cache key.
   * It reads `key[1]` and `key[3]` only; the prefix is not checked.
   */
  predicate Matches(p: InvalidationPredicate, analysis: QueryAnalysis, key: seq<Value>) {
    var queryModel := At(key, 1);
    var args := At(key, 3);
    if Includes(p.mutatedModels, queryModel) then true
    else if Truthy(args) && FindNestedRead(queryModel, p.mutatedModels, analysis, args) then true
    else false
  }

  /**
   * The predicate holds exactly on a direct model hit, or when the key has
   * truthy arguments whose read models overlap the mutated models.
   */
  lemma MatchesIff(p: InvalidationPredicate, analysis: QueryAnalysis, key: seq<Value>)
    ensures Matches(p, analysis, key) <==>
      || Includes(p.mutatedModels, At(key, 1))
      || (Truthy(At(key, 3)) &&
          exists m :: m in p.mutatedModels && m in analysis.getReadModels(At(key, 1), At(key, 3)))
  {
  }

  /**
   * More mutated models never un-invalidate a query: over-approximating the
   * mutated set only adds invalidations.
   */
  lemma MoreMutatedModelsInvalidateMore(p: InvalidationPredicate, q: InvalidationPredicate,
                                        analysis: QueryAnalysis, key: seq<Value>)
    requires forall m :: m in p.mutatedModels ==> m in q.mutatedModels
    requires Matches(p, analysis, key)
    ensures Matches(q, analysis, key)
  {
  }

  /** A query on a mutated model is invalidated whatever its arguments. */
  lemma DirectHit(p: InvalidationPredicate, analysis: QueryAnalysis,
                  model: string, operation: string, args: Value, options: Option<QueryFlags>)
    requires model in p.mutatedModels
    ensures Matches(p, analysis, GetKey(model, operation, args, options))
  {
  }

  /**
   * A query on an unmutated model with falsy arguments is never invalidated:
   * its read models are not even looked at.
   */
  lemma FalsyArgsNoNestedRead(p: InvalidationPredicate, analysis: QueryAnalysis,
                              model: string, operation: string, args: Value, options: Option<QueryFlags>)
    requires model !in p.mutatedModels && !Truthy(args)
    ensures !Matches(p, analysis, GetKey(model, operation, args, options))
  {
  }

  /**
   * The predicate never looks at the first element of a key: replacing it by
   * any value, for any key, leaves the verdict unchanged.
   */
  lemma PrefixIgnored(p: InvalidationPredicate, analysis: QueryAnalysis, key: seq<Value>, v: Value)
    requires |key| > 0
    ensures Matches(p, analysis, key) == Matches(p, analysis, [v] + key[1..])
  {
  }

  /**
   * In particular a key from another namespace
   * whose second element names a mutated model is matched too.
   */
  lemma PrefixNotChecked(analysis: QueryAnalysis)
    ensures var key := [Str("other"), Str("User")];
      !IsZenStackKey(key) && Matches(InvalidationPredicate(["User"]), analysis, key)
  {
  }
}
