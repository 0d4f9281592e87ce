/** Small value types shared by every module of the model. */
module Common {

  /** An optional value. */
  datatype Option<+T> = None | Some(value: T)

  /** The outcome of a computation that may raise. */
  datatype Result<+T, +E> = Success(value: T) | Failure(error: E)

  /**
   * One field of a decoded JSON object, as the code that reads it sees it:
   * absent from the object (JavaScript `undefined`, a Python `KeyError`),
   * present with the value `null`, or present with a value.
   */
  datatype Field<+T> = Missing | Null | Present(value: T)
}
