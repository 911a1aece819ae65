/** Shared result types of the attach procedure. */
module Results {

  /** An optional value; models Python's `None` versus an object. */
  datatype Option<+T> = None | Some(value: T)

  /** The errors the attach procedure can run into. The source dereferences
      `selected_cell` without checking it; here that crash is this error. */
  datatype AttachError = NoCellSelected

  /** A value, or the error that prevented it. */
  datatype Result<+T> = Success(value: T) | Failure(error: AttachError)

  /** The outcome of an operation that returns nothing on success. */
  datatype Outcome = Pass | Fail(error: AttachError)
}
