/** Failure-carrying results used throughout the model. The Go program returns
    an `error` value next to its result; here that becomes a `Result` whose
    failure carries the error's text. */
module Wrappers {

  datatype Option<+T> = None | Some(value: T)

  datatype Result<+T> = Ok(value: T) | Err(error: string)
}
