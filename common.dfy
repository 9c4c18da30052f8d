/**
 * Result types shared by the modules of this model. PHP reports failures by
 * throwing; here every operation that can throw returns one of these instead.
 */
module Common {

  /** A value that may be absent: an unset array key or a NULL column. */
  datatype Option<+T> = None | Some(value: T) {
    /** `$x ?? $default` */
    function GetOr(default: T): T {
      match this
      case Some(v) => v
      case None => default
    }
  }

  /** The outcome of a PHP call that either returns a value or throws. */
  datatype Result<+T, +E> = Success(value: T) | Failure(error: E)

  /** The outcome of a PHP call that returns nothing or throws. */
  datatype Outcome<+E> = Pass | Fail(error: E)

  /** Date-time text as `date('Y-m-d H:i:s')` produces it; the clock is a parameter. */
  type Timestamp = string
}
