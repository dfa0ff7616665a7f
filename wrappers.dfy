/** Small sum types shared by the whole model: optional values, results with
    an error message, the outcome of one upstream HTTP request and the
    outcome of one task awaited through a settle-all join. */
module Wrappers {

  datatype Option<+T> = None | Some(value: T)

  /** A computation that either produced a value or failed with a message. */
  datatype Result<+T> = Ok(value: T) | Err(error: string)

  /** What one upstream request delivered: a decoded body, or nothing usable
      (network error, non-2xx status, undecodable or unexpected body). */
  datatype Response<+T> = Reply(body: T) | Fail

  /** The settled state of one task awaited by a settle-all join. */
  datatype Settled<+T> = Fulfilled(value: T) | Rejected
}
