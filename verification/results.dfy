/** Failure-compatible results for the perceptron model.

  The Java code signals every misuse by throwing (an `MLPException`, or a
  runtime exception raised by an array access); here each such throw becomes a
  `Failure` carrying the kind of error. */
module Results {

  /** The kinds of failure the modelled code can raise. */
  datatype Error =
    | DimensionMismatch     // two vectors or matrices whose lengths must agree do not
    | UnsupportedOperation  // the softmax derivative was requested
    | InvalidParameter      // a split fraction outside [0, 1]
    | IndexOutOfBounds      // an array access past the end (an empty matrix, a short row)

  datatype Result<+T> = Success(value: T) | Failure(error: Error) {

    predicate IsFailure() {
      Failure?
    }

    function PropagateFailure<U>(): Result<U>
      requires Failure?
    {
      Failure(error)
    }

    function Extract(): T
      requires Success?
    {
      value
    }
  }

  datatype Option<+T> = None | Some(value: T)

  /** A Java `double` quotient: dividing by a zero row count yields NaN rather
      than an exception, so averages over no rows are `NaN`. */
  datatype Quotient = NaN | Value(v: real)
}
