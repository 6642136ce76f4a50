/** The two shapes a computation of the model can come back in. A lookup of a
    benchmark by name yields `Some` or `None`; a row that csvlib.py would
    reject (an IndexError, a ValueError, the `exit(1)` of the classifier)
    yields `Failure` carrying the reason, and the `:-` operator hands that
    failure on to the caller unchanged. */
module Results {

  datatype Option<+T> = None | Some(value: T)

  datatype Result<+T, +E> = Success(value: T) | Failure(error: E) {

    /** `:-` stops at a failure ... */
    predicate IsFailure() {
      Failure?
    }

    /** ... re-typing it for the enclosing computation ... */
    function PropagateFailure<U>(): Result<U, E>
      requires Failure?
    {
      Failure(error)
    }

    /** ... and otherwise continues with the carried value. */
    function Extract(): T
      requires Success?
    {
      value
    }
  }
}
