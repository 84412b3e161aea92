/** The exceptions the tuple types throw, as values. */
module Failures {

  /** `std::out_of_range` from a checked `operator[]`, and the
      `std::runtime_error` thrown by a division whose divisor is zero. */
  datatype Error = OutOfRange | DivideByZero

  /** The result of an operation that either returns a value or throws. */
  datatype Result<T> = Ok(value: T) | Err(error: Error)

  /** The outcome of an operation that returns nothing or throws. */
  datatype Outcome = Pass | Fail(error: Error)
}
