/** Small failure-carrying datatypes shared by the model's modules. */
module Results {

  /** A value that may be absent; `None` is Python's `None`. */
  datatype Option<+T> = None | Some(value: T)

  /** A value, or the error a Python function would have raised instead. */
  datatype Result<+T, +E> = Ok(value: T) | Err(error: E)

  /** The result of a call made for its effect: it returned, or it raised. */
  datatype Outcome<+E> = Pass | Fail(error: E)
}
