/** Option and Result: the stock failure-compatible datatypes, used for the
    source's `undefined` values and for the `throw` of its unit-checked operators. */
module Wrappers {

  datatype Option<+T> = None | Some(value: T) {

    /** `x || fallback` / `x ?? fallback` on an optional value */
    function GetOr(default: T): T {
      match this
      case Some(v) => v
      case None => default
    }
  }

  /** The one error kind the operators raise: `new Error('invalid form variable unit')` */
  datatype Error = InvalidUnit

  datatype Result<+R> = Ok(value: R) | Err(error: Error) {

    predicate IsFailure() {
      Err?
    }

    function PropagateFailure<U>(): Result<U>
      requires Err?
    {
      Err(error)
    }

    function Extract(): R
      requires Ok?
    {
      value
    }
  }
}
