/** The two exception kinds the library throws, and the result types that stand
    for "returns a value or throws" in the model. */
module Wrappers {

  datatype Error =
    | DimensionalityException
    | ActivationFunctionException

  /** A value, or the exception the Java method would throw instead. */
  datatype Result<+T> = Ok(value: T) | Err(error: Error)

  /** The outcome of a method that returns nothing in Java. */
  datatype Outcome = Pass | Fail(error: Error)
}
