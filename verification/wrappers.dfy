/** Option and the error outcomes the scenario code can raise. */
module Wrappers {

  datatype Option<+T> = None | Some(value: T) {
    function GetOr(default: T): T {
      match this
      case Some(v) => v
      case None => default
    }
  }

  /** A value, or the error the call ended with instead. */
  datatype Result<+T> = Success(value: T) | Failure(error: Error)

  /** What a PHP call ends with when it does not return normally.
      - `Code(n)`: an extension exception carrying the numeric code `n`;
      - `TypeError`: a value of the wrong type passed to an `int` parameter
        under `declare(strict_types=1)` (or a `false` passed as a length);
      - `Uncaught(kind)`: a host exception the calling code does not catch. */
  datatype Error = Code(code: int) | TypeError | Uncaught(kind: string)
}
