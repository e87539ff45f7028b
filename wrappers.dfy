/** Optional values and results with an error path, shared by the other modules. */
module Wrappers {

  /** A value that may be absent; Python's implicit `None` return. */
  datatype Option<+T> = None | Some(value: T)

  /** A value, or the exception the source would raise instead of returning it.
      The three members let `:-` pass an exception on to the caller. */
  datatype Result<+T, +E> = Ok(value: T) | Err(error: E)
  {
    predicate IsFailure()
    {
      Err?
    }

    function PropagateFailure<U>(): Result<U, E>
      requires Err?
    {
      Err(error)
    }

    function Extract(): T
      requires Ok?
    {
      value
    }
  }
}
