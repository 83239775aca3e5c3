/** Values shared by every part of the model: Java's null, how a call ends,
    the service layer's `Result`, and `java.util.concurrent.TimeUnit`. */
module Common {

  /** A Java reference that may be null. */
  datatype Option<+T> = None | Some(value: T)

  /** How a Java call ends: it returns a value or throws. `StillWaiting` is
      only produced by the busy-wait loops: the retry budget the model gives
      them ran out while another holder kept the lock (the Java code would
      keep sleeping and retrying). */
  datatype Outcome<+T> = Return(value: T) | Throw | StillWaiting

  /** `com.hmdp.dto.Result`: `Result.ok(data)` or `Result.fail(errorMsg)`. */
  datatype Result<+D> = Ok(data: D) | Fail(errorMsg: string)

  datatype TimeUnit = Nanoseconds | Microseconds | Milliseconds | Seconds | Minutes | Hours | Days

  /** Java's `/` on longs: the quotient truncated toward zero. */
  function JavaDiv(a: int, b: int): (q: int)
    requires b > 0
    ensures a >= 0 ==> q >= 0 && q * b <= a < q * b + b
    ensures a <= 0 ==> q <= 0 && q * b - b < a <= q * b
  {
    if a >= 0 then a / b else -((-a) / b)
  }

  /** `unit.toSeconds(duration)`: finer units are truncated toward zero,
      coarser ones multiplied. */
  function ToSeconds(duration: int, unit: TimeUnit): int
  {
    match unit
    case Nanoseconds => JavaDiv(duration, 1000000000)
    case Microseconds => JavaDiv(duration, 1000000)
    case Milliseconds => JavaDiv(duration, 1000)
    case Seconds => duration
    case Minutes => duration * 60
    case Hours => duration * 3600
    case Days => duration * 86400
  }

  /** A time-to-live as the code passes it to Redis: `(timeout, unit)`. */
  datatype Ttl = Ttl(amount: int, unit: TimeUnit)
}
