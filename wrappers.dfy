/** Result types shared by the model: the Go code returns `error` values and, on some
    inputs, panics; both become explicit outcomes here. */
module Wrappers {

  datatype Option<+T> = None | Some(value: T)

  /** The errors the modelled code can produce. `Panic` stands for a Go runtime panic
      (an index or slice out of range) that the source does not guard against. */
  datatype Error =
    | Failure(message: string)
    | DataLoss(message: string)
    | Panic(message: string)

  datatype Result<+T> = Ok(value: T) | Err(error: Error)

  /** A Go `error` return with no accompanying value: `nil` is `Pass`. */
  datatype Outcome = Pass | Fail(error: Error)
}
