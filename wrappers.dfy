/** Option and Result values used for JavaScript's `undefined` and for thrown errors. */
module Wrappers {

  datatype Option<+T> = None | Some(value: T) {
    /** `x ?? fallback` and the `{...defaults, ...options}` spread for one field */
    function GetOr(fallback: T): T {
      match this
      case Some(v) => v
      case None => fallback
    }
  }

  /** A returned value or the message of a thrown `Error` */
  datatype Result<+T, +E> = Success(value: T) | Failure(error: E)
}
