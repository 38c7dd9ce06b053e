/** Failure-carrying values shared by the backend and the client model. */
module Wrappers {

  /** A value that may be absent: JavaScript `null`, a missing JSON key, Python `None`. */
  datatype Option<+T> = None | Some(value: T)

  /** Either a value or the error the code returns instead of it. */
  datatype Result<+R, +E> = Success(value: R) | Failure(error: E)
}
