/** Values shared by the back end and the front end: a nullable value. */
module Common {

  /** A value that may be absent: C#'s `null` / `T?`, JavaScript's `null`
      or `undefined`. */
  datatype Option<+T> = None | Some(value: T) {

    /** The value, or `default` when absent (C#'s `??`, a default parameter). */
    function GetOr(default: T): T {
      match this
      case Some(v) => v
      case None => default
    }
  }
}
