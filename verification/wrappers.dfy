/** Option, Result and Outcome: the shapes of Go's `(value, error)`, `error` and nil-able pointers. */
module Wrappers {
  /** A Go pointer or an optional value: `None` is nil. */
  datatype Option<T> = None | Some(value: T)
  {
    function GetOr(default: T): T
    {
      match this
      case None => default
      case Some(v) => v
    }
  }

  /** A Go `(T, error)` pair in which exactly one side is meaningful. */
  datatype Result<T> = Ok(value: T) | Err(error: string)

  /** A Go call that returns only an `error`: `Pass` is a nil error. */
  datatype Outcome = Pass | Fail(error: string)
}
