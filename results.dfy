/** Failure-carrying return values, standing in for the exceptions the Python code raises. */
module Results {

  /** Either a value or the error that was raised instead. */
  datatype Result<+T, +E> = Success(value: T) | Failure(error: E)

  /** Success without a value (a Python procedure returning None), or the error raised. */
  datatype Outcome<+E> = Pass | Fail(error: E)

  datatype Option<+T> = None | Some(value: T)
}
