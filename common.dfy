/** Small value wrappers shared by every module: an optional value (JavaScript's
    `null` or a present value), a result carrying an error message, and the
    outcome of a write request sent to the remote data service. */
module Common {

  datatype Option<+T> = None | Some(value: T)

  /** A computation that either produced a value or failed with a user-visible message. */
  datatype Result<+T> = Ok(value: T) | Err(error: string)

  /** What the remote service answered to an insert, update or delete: the
      `{ error }` field of its response, with the error's `message`. */
  datatype Outcome = Done | Failed(message: string)
}
