/** Failure-carrying return values: the model's stand-in for Python's
    `None` results and raised exceptions. */
module Results {

  datatype Option<+T> = None | Some(value: T)

  /** Failure-compatible, so `:-` propagates an `Err` the way an exception
      propagates out of a Python function. */
  datatype Result<+T, +E> = Ok(value: T) | Err(error: E) {

    predicate IsFailure() {
      Err?
    }

    function PropagateFailure<U>(): Result<U, E>
      requires Err?
    {
      Err(error)
    }

    function Extract(): T
      requires Ok?
    {
      value
    }
  }
}
