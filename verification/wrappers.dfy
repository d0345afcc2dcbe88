/** Option and Result: the absent value (`null`/`undefined`) and the
    outcome of a call that may throw or come back with an `error`. */
module Wrappers {

  /** A value that may be missing, like a nullable field. */
  datatype Option<+T> = None | Some(value: T) {

    /** The value, or `default` when it is missing (the `??` operator). */
    function GetOr(default: T): T {
      match this
      case Some(v) => v
      case None => default
    }
  }

  /** Either a value or an error message: a remote reply `{ data, error }`
      or an operation that rethrows. */
  datatype Result<+T> = Ok(value: T) | Err(message: string) {

    predicate IsFailure() {
      Err?
    }

    function PropagateFailure<U>(): Result<U>
      requires Err?
    {
      Err(message)
    }

    function Extract(): T
      requires Ok?
    {
      value
    }
  }
}
