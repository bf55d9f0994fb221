/** Failure-compatible result types shared by the whole model. */
module Wrappers {

  datatype Option<+T> = None | Some(value: T)

  /** Either a computed value or the reason the build was aborted. */
  datatype Result<+T, +E> = Ok(value: T) | Err(error: E) {

    predicate IsFailure() {
      Err?
    }

    function PropagateFailure<U>(): Result<U, E>
      requires Err?
    {
      Err(error)
    }

    function Extract(): T
      requires Ok?
    {
      value
    }
  }
}
