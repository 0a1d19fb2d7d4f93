/** Option and Result values shared by the session model. */
module Wrappers {

  /** A value that may be absent: the session's `null` credential, a missing payload field. */
  datatype Option<+T> = None | Some(value: T)

  /** What a promise settles to: a resolved value or the message of the error it rejects with. */
  datatype Result<+T, +E> = Success(value: T) | Failure(error: E)
}
