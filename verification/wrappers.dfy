/** Failure-compatible wrappers shared by every layer of the model: the
    optional value of Rust's `Option`, the `Result` every parser and builder
    returns, and the pass/fail `Outcome` a builder validator returns. */
module Wrappers {

  datatype Option<+T> = None | Some(value: T) {

    predicate IsFailure() {
      None?
    }

    function PropagateFailure<U>(): Option<U>
      requires None?
    {
      None
    }

    function Extract(): T
      requires Some?
    {
      value
    }

    /** `unwrap_or`: the payload, or `default` when absent. */
    function GetOr(default: T): T {
      match this
      case Some(v) => v
      case None => default
    }
  }

  datatype Result<+R, +E> = Ok(value: R) | Err(error: E) {

    predicate IsFailure() {
      Err?
    }

    function PropagateFailure<U>(): Result<U, E>
      requires Err?
    {
      Err(error)
    }

    function Extract(): R
      requires Ok?
    {
      value
    }

    /** `Result::ok`: drops the error. */
    function ToOption(): Option<R> {
      match this
      case Ok(v) => Some(v)
      case Err(_) => None
    }
  }

  /** What a builder's `validate` returns: `Ok(())` or `Err(message)`. */
  datatype Outcome<+E> = Pass | Fail(error: E)
}
