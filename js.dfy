/**
 * JavaScript values as the request handlers and components see them: an
 * optional value, a decoded JSON value, truthiness, and the two defaulting
 * operators `||` and `??` whose difference the handlers depend on.
 */
module Js {

  /** A value that may be absent (`undefined`/`null` in the source). */
  datatype Option<+T> = None | Some(value: T) {
    function GetOr(default: T): T {
      match this
      case Some(v) => v
      case None => default
    }
  }

  /**
   * A property of a decoded JSON request body. `Undefined` is a property that
   * is not present; `Composite` is any object or array (always truthy).
   * Numbers are integers here (see README, "Left out").
   */
  datatype Value = Undefined | Null | Bool(b: bool) | Num(n: int) | Str(s: string) | Composite

  /** ECMAScript ToBoolean: false, 0, "", null and undefined are falsy. */
  predicate Truthy(v: Value) {
    match v
    case Undefined => false
    case Null => false
    case Bool(b) => b
    case Num(n) => n != 0
    case Str(s) => s != ""
    case Composite => true
  }

  /** `undefined` or `null`: the only values `??` replaces. */
  predicate Nullish(v: Value) {
    v.Undefined? || v.Null?
  }

  /** `v || d` */
  function Or(v: Value, d: Value): Value {
    if Truthy(v) then v else d
  }

  /** `v ?? d` */
  function Coalesce(v: Value, d: Value): Value {
    if Nullish(v) then d else v
  }

  /** A string property is truthy exactly when it is present and non-empty. */
  predicate TruthyString(s: Option<string>) {
    s.Some? && s.value != ""
  }

  /**
   * `||` and `??` agree except on the falsy values that are not nullish
   * (`false`, `0`, `""`): there `||` takes the default and `??` keeps the value.
   */
  lemma OrDiffersFromCoalesce(v: Value, d: Value)
    ensures Or(v, d) != Coalesce(v, d) <==> !Truthy(v) && !Nullish(v) && v != d
    ensures Nullish(v) ==> Or(v, d) == Coalesce(v, d) == d
    ensures Truthy(v) ==> Or(v, d) == Coalesce(v, d) == v
  {
  }
}
