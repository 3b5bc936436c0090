/** Optional values: a reference that may be null in the plugin becomes an Option. */
module Wrappers {

  datatype Option<+T> = None | Some(value: T) {

    /** The value if present, otherwise `default` (C#'s `h?.Value ?? default`). */
    function GetOr(default: T): (r: T)
      ensures Some? ==> r == value
      ensures None? ==> r == default
    {
      match this
      case Some(v) => v
      case None => default
    }

    /** This option if present, otherwise `other`: the first present one of the two. */
    function Or(other: Option<T>): (r: Option<T>)
      ensures Some? ==> r == this
      ensures None? ==> r == other
    {
      match this
      case Some(_) => this
      case None => other
    }
  }
}
