/** Small helper datatypes shared by the model: an optional value, a result
    that carries either a value or an error, and the Ruby exceptions the
    model covers. */
module Wrappers {

  datatype Option<+T> = None | Some(value: T)

  datatype Result<+T, +E> = Ok(value: T) | Err(error: E)

  /** The Ruby exceptions raised in the modelled paths, with their messages. */
  datatype Error =
    | ArgumentError(message: string)
    | RangeError(message: string)
    | ZeroDivisionError(message: string)

  /** Raised by the constructor when a bound is not Numeric. */
  const InvalidRange: Error := ArgumentError("Invalid range specified")

  /** Raised by Range#first on a range without a beginning (`nil..5`). */
  const BeginlessRange: Error := RangeError("cannot get the first element of beginless range")

  /** Raised by Range#last on a range without an end (`1..nil`). */
  const EndlessRange: Error := RangeError("cannot get the last element of endless range")

  /** Raised by Kernel#sleep for a negative duration. */
  const NegativeSleep: Error := ArgumentError("time interval must not be negative")

  /** Raised by Integer#% when the divisor is zero. */
  const DividedByZero: Error := ZeroDivisionError("divided by 0")
}
