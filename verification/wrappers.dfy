/** Optional values and results with an error message, the two shapes the
    weather app's values take when a JavaScript field may be missing or a
    step may throw, and the `Math.min` both list caps use. */
module Wrappers {

  /** A value that may be absent (`undefined` / `null` in the source). */
  datatype Option<+T> = None | Some(value: T) {

    /** The value, or `default` when it is absent. */
    function GetOr(default: T): T {
      match this
      case Some(v) => v
      case None => default
    }
  }

  /** A computation that either produced a value or threw an `Error` whose
      message is kept, since the route handler dispatches on that text. */
  datatype Result<+R> = Success(value: R) | Failure(message: string) {

    predicate IsFailure() {
      Failure?
    }

    function PropagateFailure<U>(): Result<U>
      requires Failure?
    {
      Failure(message)
    }

    function Extract(): R
      requires Success?
    {
      value
    }
  }

  /** The smaller of two integers, the bound `slice(0, 3)` stops at. */
  function Min(a: int, b: int): int {
    if a <= b then a else b
  }
}
