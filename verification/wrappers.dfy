/** The Option datatype used for PHP's nullable values. */
module Wrappers {

  /** `None` plays the part of PHP's `null`. */
  datatype Option<+T> = None | Some(value: T) {

    /** Returns the value in Some, or the given default for None. */
    function GetOr(default: T): T {
      match this
      case Some(v) => v
      case None => default
    }
  }
}
