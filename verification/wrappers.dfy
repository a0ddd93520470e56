/** Go-style result types shared by the model. */
module Wrappers {

  datatype Option<+T> = None | Some(value: T)

  /** A Go `(value, error)` pair: exactly one of the two is meaningful. */
  datatype Result<+T> = Ok(value: T) | Err(error: Error)

  /** The errors the rescheduler produces or passes on. `Upstream` stands for an
      error returned by a Garoon or Slack client call, `Failed` for one the
      rescheduler builds itself with a fixed message, and `Wrapped` for
      `fmt.Errorf("<context>: %s", cause)`. */
  datatype Error =
    | Upstream(reason: string)
    | Failed(message: string)
    | Wrapped(context: string, cause: Error)
}
