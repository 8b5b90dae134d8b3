/** A value that may be absent: a JSON field that is missing or null, a
    module variable that has not been set yet. */
module Optional {

  datatype Option<+T> = None | Some(value: T) {

    /** The value, or `default` when there is none (a JavaScript default parameter). */
    function GetOr(default: T): (r: T)
      ensures Some? ==> r == value
      ensures None? ==> r == default
    {
      match this
      case Some(v) => v
      case None => default
    }
  }
}
