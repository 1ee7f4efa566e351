/** Small failure-carrying datatypes shared by the client and server models. */
module Common {

  /** A value that may be absent: JavaScript's `null`/`undefined`, Python's `None`. */
  datatype Option<+T> = None | Some(value: T)

  /** The outcome of a step that either yields a value or fails with a message. */
  datatype Result<+T> = Success(value: T) | Failure(message: string)
}
