/** The two failure-carrying datatypes the engine uses: Rust's Option and Result. */
module Wrappers {

  datatype Option<+T> = None | Some(value: T) {

    /** Option::unwrap_or */
    function GetOr(default: T): T {
      match this
      case Some(v) => v
      case None => default
    }
  }

  datatype Result<+T, +E> = Ok(value: T) | Err(error: E)
}
