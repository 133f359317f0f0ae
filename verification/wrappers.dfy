/** Option and Result values shared by the modules of this model. */
module Wrappers {

  /** Rust's `Option<T>`, TypeScript's `T | null`. */
  datatype Option<+T> = None | Some(value: T) {

    /** `Option::or`: this value if present, otherwise the alternative. */
    function Or(other: Option<T>): (r: Option<T>)
      ensures Some? ==> r == this
      ensures None? ==> r == other
    {
      if Some? then this else other
    }

    /** `Option::unwrap_or`: the present value, otherwise the default. */
    function UnwrapOr(default: T): (r: T)
      ensures Some? ==> r == value
      ensures None? ==> r == default
    {
      match this
      case Some(v) => v
      case None => default
    }
  }

  /** Rust's `Result<T, E>`. */
  datatype Result<+T, +E> = Ok(value: T) | Err(error: E)
}
