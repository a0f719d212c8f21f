/**
  Error results shared by every module.

  The library reports every invalid call by printing a message and terminating the
  process. In this model each such guard returns a `Failure` carrying the kind of
  error instead, so that callers (and proofs) can see exactly when it happens.
 */
module Wrappers {

  /** The distinct guards of the library, one constructor per message it prints. */
  datatype Error =
    | DimensionMismatch   // "Invalid dimensions for matrix multiplication" / "... for conversion"
    | NotSquare           // determinant, minor, cofactor or adjoint of a non-square matrix
    | NoSubmatrix         // "Sub matrix does not exist for this Matrix"
    | InvalidGradient     // an optimizer update with a gradient of the wrong length
    | InvalidInput        // logistic regression asked to predict on the wrong feature width
    | NoOutputLayer       // training a network whose last layer is not an output layer

  datatype Result<+T> = Success(value: T) | Failure(error: Error)

  datatype Option<+T> = None | Some(value: T)
}
