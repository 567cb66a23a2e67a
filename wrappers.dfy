/** Option, Result and Outcome: the model's stand-ins for C# nullable references and exceptions. */
module Wrappers {

  /** A value that may be absent; `None` models a C# `null`. */
  datatype Option<+T> = None | Some(value: T)

  /** A computation that either returns a value or throws; usable with `:-`. */
  datatype Result<+T, +E> = Ok(value: T) | Err(error: E) {
    predicate IsFailure() {
      Err?
    }

    function PropagateFailure<U>(): Result<U, E>
      requires Err?
    {
      Err(error)
    }

    function Extract(): T
      requires Ok?
    {
      value
    }
  }

  /** A statement that either completes normally or throws. */
  datatype Outcome<+E> = Pass | Fail(error: E)
}
