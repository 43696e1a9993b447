/** The error classes the services raise, and the result shapes of their calls.
    An awaited call either resolves (Ok / Pass) or rejects with one of these errors. */
module Exceptions {

  datatype Option<+T> = None | Some(value: T)

  /** InvariantError, NotFoundError and AuthorizationError are the application's own client
      errors; TypeError is the JavaScript runtime error raised by reading a property of
      `undefined`. */
  datatype ErrorKind = InvariantError | NotFoundError | AuthorizationError | TypeError

  datatype Error = Error(kind: ErrorKind, message: string)

  /** An awaited call that returns a value. */
  datatype Result<+T> = Ok(value: T) | Err(error: Error)

  /** An awaited call that returns nothing. */
  datatype Outcome = Pass | Fail(error: Error)
}

/** What a route handler hands back to the HTTP layer on success. */
module Responses {
  import opened Exceptions

  datatype Reply = Reply(code: int, message: string, collaborationId: Option<string>)
}
