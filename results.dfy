/** Option and Result values shared by every module of the model. */
module Results {

  /** A value that may be absent: a missing dictionary key, Python's None. */
  datatype Option<+T> = None | Some(value: T)

  /** The outcome of an operation that either yields a value or stops with a message
      (Python's SystemExit with its argument). */
  datatype Result<+R, +E> = Success(value: R) | Failure(error: E)

  /** Python truthiness of an optional string: None and "" are false. */
  predicate Truthy(s: Option<string>)
  {
    s.Some? && s.value != ""
  }
}
