/** Failure-compatible wrappers used throughout the model: the source's
    `Optional[...]` values and its raised exceptions. */
module Wrappers {

  datatype Option<+T> = None | Some(value: T)

  /** A value or the error the source would have raised. */
  datatype Result<+T, +E> = Ok(value: T) | Err(error: E) {
    predicate IsFailure() { Err? }

    function PropagateFailure<U>(): Result<U, E>
      requires Err?
    {
      Err(error)
    }

    function Extract(): T
      requires Ok?
    {
      value
    }
  }

  /** The outcome of an operation that returns nothing but may raise. */
  datatype Outcome<+E> = Pass | Fail(error: E)
}
