/** Optional values and error-carrying results shared by every module. */
module Wrappers {

  /** `None` stands for JavaScript's `null`/`undefined` (and for a NaN cell in a timetable). */
  datatype Option<+T> = None | Some(value: T) {
    function GetOr(default: T): T {
      match this
      case Some(v) => v
      case None => default
    }
  }

  /** A thrown error becomes `Failure`. */
  datatype Result<+R, +E> = Success(value: R) | Failure(error: E)
}
