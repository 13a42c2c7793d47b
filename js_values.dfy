/** Failure-compatible wrappers: an optional value and an error-or-value result. */
module Wrappers {
  datatype Option<+T> = None | Some(value: T)

  datatype Result<+R, +E> = Success(value: R) | Failure(error: E)
}

/**
 * The JavaScript values the two core components handle, reduced to what they
 * look at: nil-ness (`undefined`, `null`), truthiness and identity.
 * An object, array or function is `Obj(id)`; two of them are `===` exactly when
 * their ids are equal, so value equality on `Js` stands for JavaScript's `===`.
 */
module JsValues {
  datatype Js = Undefined | Null | Bool(b: bool) | Str(s: string) | Obj(id: nat)

  /** JavaScript truthiness. Numbers are not modelled: every `Obj` is truthy. */
  predicate Truthy(v: Js) {
    match v
    case Undefined => false
    case Null => false
    case Bool(b) => b
    case Str(s) => s != ""
    case Obj(_) => true
  }

  /** Ramda's `isNil`: `null` or `undefined`. */
  predicate IsNil(v: Js) {
    v.Undefined? || v.Null?
  }

  /** Property read `o[k]` on a plain object: `undefined` when the key is absent. */
  function Get(o: map<string, Js>, k: string): Js {
    if k in o then o[k] else Undefined
  }
}
