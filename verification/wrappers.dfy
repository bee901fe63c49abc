/** Failure-compatible Option and Result, usable with `:-`. */
module Wrappers {

  /** An optional value; the model of Rust's `Option`. */
  datatype Option<+T> = None | Some(value: T) {

    predicate IsFailure() {
      None?
    }

    function PropagateFailure<U>(): Option<U>
      requires None?
    {
      None
    }

    function Extract(): T
      requires Some?
    {
      value
    }
  }

  /** Either a value or an error; the model of Rust's `Result`. */
  datatype Result<+T, +E> = Success(value: T) | Failure(error: E) {

    predicate IsFailure() {
      Failure?
    }

    function PropagateFailure<U>(): Result<U, E>
      requires Failure?
    {
      Failure(error)
    }

    function Extract(): T
      requires Success?
    {
      value
    }
  }

  /** `Option::map`. */
  function MapOption<T, U>(v: Option<T>, f: T -> U): Option<U>
  {
    match v
    case None => None
    case Some(x) => Some(f(x))
  }
}
