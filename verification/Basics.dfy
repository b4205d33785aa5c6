/** The optional values and error results shared by every module. */
module Basics {

  datatype Option<+T> = None | Some(value: T)

  /** A Python exception is the error case of a result. */
  datatype Result<+T, +E> = Ok(value: T) | Err(error: E) {
    predicate IsFailure() { Err? }

    function PropagateFailure<U>(): Result<U, E>
      requires Err?
    {
      Err(error)
    }

    function Extract(): T
      requires Ok?
    {
      value
    }
  }
}
