/** The two failure-compatible result types used throughout the model. */
module Wrappers {

  /** A nullable column or an absent row. */
  datatype Option<+T> = None | Some(value: T) {

    /** SQL's COALESCE(this, default). */
    function GetOr(default: T): T {
      match this
      case Some(v) => v
      case None => default
    }
  }

  /** A Go (value, error) pair: exactly one of the two is meaningful. */
  datatype Result<+T, +E> = Ok(value: T) | Err(error: E)
}
