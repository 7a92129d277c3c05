/** What a call that may throw hands back. */
module Outcomes {
  /** The exception types the modelled code raises or lets through. */
  datatype Exception =
    | InvalidArgument
    | RuntimeError
    | InDoubtError
    | BrokenConnection

  datatype Result<+T> = Ok(value: T) | Throws(exception: Exception)

  datatype Option<+T> = None | Some(value: T)
}
