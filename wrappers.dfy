/** The optional value used wherever the client relies on PHP's `null`. */
module Wrappers {

  /** `None` stands for PHP `null` (or an unset property); `Some(v)` for a set value. */
  datatype Option<+T> = None | Some(value: T) {

    /** The value, or `default` when there is none. */
    function GetOr(default: T): (r: T) {
      match this
      case Some(v) => v
      case None => default
    }
  }
}
