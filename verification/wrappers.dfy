/**
 * The optional value used wherever the source has a `T | undefined`, and
 * the outcome of a call that may throw.
 */
module Wrappers {

  datatype Option<+T> = None | Some(value: T) {

    /** The wrapped value, or `default` when there is none. */
    function GetOr(default: T): (r: T)
      ensures Some? ==> r == value
      ensures None? ==> r == default
    {
      match this
      case Some(v) => v
      case None => default
    }
  }

  /** A call that either returns a value or throws an `Error` with a message. */
  datatype Attempt<+T> = Ok(value: T) | Thrown(error: string)
}
