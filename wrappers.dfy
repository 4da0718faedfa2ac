/** Optional values and fallible results, shared by the other modules. */
module Wrappers {

  /** An optional value: Rust's `Option<T>`. */
  datatype Option<+T> = None | Some(value: T) {

    /** The carried value, or `default` when there is none (Rust's `unwrap_or`). */
    function GetOr(default: T): (r: T)
      ensures Some? ==> r == value
      ensures None? ==> r == default
    {
      match this
      case Some(v) => v
      case None => default
    }
  }

  /** Either a value or an error: what a Rust `panic!` becomes in this model. */
  datatype Result<+T, +E> = Success(value: T) | Failure(error: E)
}
