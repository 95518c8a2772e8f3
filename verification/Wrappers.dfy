/** Optional values and results that carry the source's error returns. */
module Wrappers {
  datatype Option<+T> = None | Some(value: T)

  /** A failure-compatible result, usable with `:-`. */
  datatype Result<+T, +E> = Ok(value: T) | Err(error: E) {
    predicate IsFailure() { Err? }

    function PropagateFailure<U>(): Result<U, E>
      requires Err?
    {
      Err(error)
    }

    function Extract(): T
      requires Ok?
    {
      value
    }
  }
}
