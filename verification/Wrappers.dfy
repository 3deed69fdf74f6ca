// Success, failure and optional values, as the Rust code's Option and Result.
module Wrappers {
  datatype Option<+T> = None | Some(value: T)

  // A failure-compatible type: `:-` returns early on Err.
  datatype Result<+T, +E> = Ok(value: T) | Err(error: E) {
    predicate IsFailure() {
      Err?
    }

    function PropagateFailure<U>(): Result<U, E>
      requires Err?
    {
      Err(error)
    }

    function Extract(): T
      requires Ok?
    {
      value
    }
  }
}
