/** Values that stand in for JavaScript's `undefined`/`null` and for a thrown error. */
module Wrappers {

  /** `None` is a JavaScript `undefined` or `null`; `Some(v)` a present value. */
  datatype Option<+T> = None | Some(value: T) {
    function GetOr(default: T): T {
      match this
      case Some(v) => v
      case None => default
    }
  }

  /** The only error the modelled code can raise: a property read on `undefined`. */
  datatype JsError = TypeError

  /** The outcome of an operation that either returns a value or throws. */
  datatype Result<+T> = Ok(value: T) | Failure(error: JsError)
}
