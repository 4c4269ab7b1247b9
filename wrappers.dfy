/** Rust's `Option` and `Result`, failure-compatible so that `:-` plays the
    part of the `?` operator. */
module Wrappers {

  datatype Option<+T> = None | Some(value: T) {

    /** `Option::context` / `ok_or`: a missing value becomes the given error. */
    function OkOr<E>(error: E): (r: Result<T, E>)
      ensures r.Ok? <==> Some?
      ensures Some? ==> r.value == value
      ensures None? ==> r.error == error
    {
      match this
      case Some(v) => Ok(v)
      case None => Err(error)
    }
  }

  datatype Result<+T, +E> = Ok(value: T) | Err(error: E) {

    predicate IsFailure() {
      Err?
    }

    function PropagateFailure<U>(): Result<U, E>
      requires Err?
    {
      Err(error)
    }

    function Extract(): T
      requires Ok?
    {
      value
    }
  }
}
