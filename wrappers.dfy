/** Option and Result: the absent value (JavaScript's null or undefined) and a
    success-or-error outcome (the `{ success, data, error }` records of the
    cipher service). */
module Wrappers {

  datatype Option<+T> = None | Some(value: T) {
    function GetOr(default: T): T {
      match this
      case Some(v) => v
      case None => default
    }
  }

  datatype Result<+T, +E> = Success(value: T) | Failure(error: E)
}
