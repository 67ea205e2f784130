/** JavaScript values, as far as the Scalar visualization inspects them. */
module JsValues {

  datatype Option<T> = None | Some(value: T)

  /** The value of an expression that either yields a value or throws. */
  datatype Result<T, E> = Success(value: T) | Failure(error: E)

  /** The outcome of a statement that either completes or throws. */
  datatype Outcome<E> = Pass | Fail(error: E)

  /** A JavaScript value. Arrays, objects and functions that the component
      only passes along are `Compound`; numbers are reals (floating point is
      not modelled). */
  datatype Value =
    | Undefined
    | Null
    | Bool(b: bool)
    | Num(x: real)
    | Str(s: string)
    | Compound(tag: nat)

  /** A plain JavaScript object: its own enumerable properties. The spread
      `{...o, k: v}` is the map update `o[k := v]`. */
  type Object = map<string, Value>

  /** The property read `o[k]`, which gives `undefined` for a missing key. */
  function Get(o: Object, k: string): Value {
    if k in o then o[k] else Undefined
  }

  /** JavaScript truthiness (NaN, which is falsy, is not modelled). */
  predicate Truthy(v: Value) {
    match v
    case Undefined => false
    case Null => false
    case Bool(b) => b
    case Num(x) => x != 0.0
    case Str(s) => s != ""
    case Compound(_) => true
  }

  /** The loose comparison `v == undefined`, true for `undefined` and `null`. */
  predicate IsNullish(v: Value) {
    v.Undefined? || v.Null?
  }

  /** Truthiness of an optional string setting (absent is `undefined`). */
  predicate TruthyString(a: Option<string>) {
    a.Some? && a.value != ""
  }

  /** The string an optional setting contributes when concatenated, where
      an absent or empty setting contributes nothing. */
  function StringOr(a: Option<string>): (s: string)
    ensures TruthyString(a) <==> s != ""
  {
    if a.Some? then a.value else ""
  }
}
