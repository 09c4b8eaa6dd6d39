/** Option for absent values and Result for the exceptions the chart code raises. */
module Wrappers {

  datatype Option<+T> = None | Some(value: T)

  /** A value, or the error that Python would have raised instead. Usable with `:-`. */
  datatype Result<+T, +E> = Ok(value: T) | Err(error: E) {

    predicate IsFailure() {
      Err?
    }

    function PropagateFailure<U>(): Result<U, E>
      requires Err?
    {
      Err(error)
    }

    function Extract(): T
      requires Ok?
    {
      value
    }
  }
}
