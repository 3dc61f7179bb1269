/** Optional values and results with an error, as the routers and routes return them. */
module Wrappers {

  /** A value that may be absent: JavaScript's `null` / `undefined`. */
  datatype Option<+T> = None | Some(value: T) {
    function GetOr(default: T): T {
      match this
      case Some(v) => v
      case None => default
    }

    /** This value when present, else `other` (JavaScript's `a ?? b` on optional values). */
    function Or(other: Option<T>): Option<T> {
      if Some? then this else other
    }
  }

  /** The outcome of an operation that may throw or return an error. */
  datatype Result<+T, +E> = Ok(value: T) | Err(error: E)
}
