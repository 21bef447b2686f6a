/** Failure-carrying values shared by every stage of the module. */
module Wrappers {

  /** A Go pointer or optional field: None stands for nil. */
  datatype Option<+T> = None | Some(value: T)

  /** An error as returned through the stages: either the engine's own
      failure, or an error wrapped with a short contextual message
      (the shape `errors.Wrap(cause, message)` gives it). */
  datatype Error =
    | EngineError(reason: string)
    | Wrapped(message: string, cause: Error)

  /** A value or the error that prevented it. */
  datatype Result<+T> = Ok(value: T) | Err(error: Error)
}
