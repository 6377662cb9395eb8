/** Failure-compatible result types shared by the flow modules. */
module Wrappers {

  /** An optional value: a dictionary entry that may be absent. */
  datatype Option<+T> = None | Some(value: T)

  /** Either a computed value or the error the computation raised. */
  datatype Result<+T, +E> = Ok(value: T) | Err(error: E) {

    predicate IsFailure() {
      Err?
    }

    function PropagateFailure<U>(): Result<U, E>
      requires Err?
    {
      Err(error)
    }

    function Extract(): T
      requires Ok?
    {
      value
    }
  }
}
