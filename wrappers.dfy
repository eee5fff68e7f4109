/** Option and Result: the optional values and fallible results that the
    proxies pass around (Rust's `Option` and `io::Result`). */
module Wrappers {

  datatype Option<+T> = None | Some(value: T) {
    /** `unwrap_or`: the wrapped value, or `default` when there is none. */
    function GetOr(default: T): T {
      match this
      case Some(v) => v
      case None => default
    }
  }

  datatype Result<+R, +E> = Success(value: R) | Failure(error: E) {
    /** `unwrap_or_default`-style access: the success value, or `default`. */
    function GetOr(default: R): R {
      match this
      case Success(v) => v
      case Failure(_) => default
    }
  }
}
