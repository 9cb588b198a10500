/**
 * The exceptions the library throws, as values, and one failure the model
 * reports where the library does not throw (`Singular`).
 */
module Outcomes {

  /** Why an operation gave up instead of returning a value. */
  datatype Error =
    | EmptyMatrix       // Size on a matrix without rows (Elements.First() throws)
    | NotSquare         // check_square_matrix and the Trace guard
    | ShapeMismatch     // "Can not multiply cols != rows"
    | NotThreeD         // Cross on a vector whose length is not 3
    | IndexOutOfRange   // a list index past the end
    | Singular          // Invert at determinant 0: the library returns infinities and NaN, the model reports this

  /** Success with a value, or the error that was thrown; usable with `:-`. */
  datatype Result<+T> = Success(value: T) | Failure(error: Error) {

    predicate IsFailure() {
      Failure?
    }

    function PropagateFailure<U>(): Result<U>
      requires Failure?
    {
      Failure(error)
    }

    function Extract(): T
      requires Success?
    {
      value
    }
  }
}
