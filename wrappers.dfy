/** Shared option, result and HTTP-reply datatypes. */
module Wrappers {

  /** A value that may be absent: JavaScript's `undefined`/`null`. */
  datatype Option<+T> = None | Some(value: T)

  /** The outcome of an operation that can throw: a value or the message of the exception. */
  datatype Result<+T> = Success(value: T) | Failure(error: string)

  /** An HTTP reply of a route handler: a JSON body, or an error status with its `error` message. */
  datatype Reply<+T> = Ok(body: T) | Fail(code: nat, error: string)
}
