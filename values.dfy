/**
 * JavaScript values as the cache-consistency code sees them: query arguments,
 * cached data, errors and key elements are all `unknown` in the source, and the
 * code only inspects them through truthiness, strict equality and optional
 * property access.
 */
module JsValues {

  datatype Option<+T> = None | Some(value: T)

  /** A JSON-like JavaScript value. Numbers are reals (no NaN, no -0). */
  datatype Value =
    | Undefined
    | Null
    | Bool(b: bool)
    | Num(n: real)
    | Str(s: string)
    | Arr(elems: seq<Value>)
    | Obj(fields: map<string, Value>)

  /** JavaScript truthiness: `if (v)` takes the branch exactly when this holds. */
  predicate Truthy(v: Value) {
    match v
    case Undefined => false
    case Null => false
    case Bool(b) => b
    case Num(n) => n != 0.0
    case Str(s) => s != ""
    case Arr(_) => true
    case Obj(_) => true
  }

  /**
   * Optional property access `v?.name`: a missing property, or a receiver that is
   * not an object, yields `undefined`.
   */
  function Prop(v: Value, name: string): Value {
    if v.Obj? && name in v.fields then v.fields[name] else Undefined
  }

  /** Array destructuring `const [a, b, ...] = xs`: a position past the end is `undefined`. */
  function At(xs: seq<Value>, i: nat): Value {
    if i < |xs| then xs[i] else Undefined
  }

  /**
   * `models.includes(v)` for an array of model names: strict equality, so a value
   * that is not a string is never included.
   */
  predicate Includes(models: seq<string>, v: Value) {
    v.Str? && v.s in models
  }
}
