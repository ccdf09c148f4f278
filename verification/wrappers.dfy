/** Optional value used wherever the services fall back to a default. */
module Wrappers {

  /** `None` stands for an absent value: an unset environment variable, a failed
      file read, a regex that did not match, or the number NaN. */
  datatype Option<+T> = None | Some(value: T) {

    /** Returns the encapsulated value, or `default` when there is none. */
    function GetOr(default: T): (r: T)
      ensures Some? ==> r == value
      ensures None? ==> r == default
    {
      match this
      case Some(v) => v
      case None => default
    }
  }
}
