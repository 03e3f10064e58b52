/** The ways the transform in wavelets/cwt.py can stop, and the wrappers that carry them. */
module Errors {

  datatype Error =
    | UnknownScaling     // a scaling mode other than "log" or "linear"
    | ZeroDivision       // a Python division by zero, or numpy.arange with a zero step
    | LogDomain          // Cwt._log2 of a non-positive number: int() of -inf or NaN raises
    | NegativeDimension  // numpy.zeros with a negative length
    | EmptyIndex         // om[0] on an empty array in the Haar response
    | NonFinite          // a step whose IEEE result is infinite or NaN (see README)

  datatype Result<+T> = Success(value: T) | Failure(error: Error)

  datatype Option<+T> = None | Some(value: T)
}
