/** The two result shapes the model needs: an optional value, and a value or an exception. */
module Wrappers {
  datatype Option<+T> = None | Some(value: T)

  /** A normal return, or the exception the C++ code throws at this point. */
  datatype Result<+T, +E> = Ok(value: T) | Err(error: E) {
    predicate IsFailure() {
      Err?
    }

    function PropagateFailure<U>(): Result<U, E>
      requires Err?
    {
      Err(error)
    }

    function Extract(): T
      requires Ok?
    {
      value
    }
  }
}
