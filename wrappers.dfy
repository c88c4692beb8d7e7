/** Error values as Go returns them: an opaque error carrying its message.
    `Result` stands for Go's `(value, error)` pair. */
module Wrappers {

  /** An error as Go's `error` interface exposes it: its `Error()` text. */
  datatype Error = Error(message: string)

  /** The success value, or the error that a Go function returned instead of it. */
  datatype Result<+T> = Ok(value: T) | Err(error: Error)
}
