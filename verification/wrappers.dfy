/** Option and Result, the two failure-carrying shapes the deploy tool's
    functions return (`Option<&[Step]>`, `anyhow::Result<T>`). */
module Wrappers {

  datatype Option<+T> = None | Some(value: T)

  /** An `anyhow::Result`: the error is its display text. `:-` plays the
      part of Rust's `?`. */
  datatype Result<+T> = Ok(value: T) | Err(msg: string)
  {
    predicate IsFailure() {
      Err?
    }

    function PropagateFailure<U>(): Result<U>
      requires Err?
    {
      Err(msg)
    }

    function Extract(): T
      requires Ok?
    {
      value
    }
  }
}
