/** Failure-carrying values used across the model: Go's nil-able values and
    `(value, error)` returns. An error is represented by its message, the
    string its `Error()` method yields. */
module Results {

  datatype Option<+T> = None | Some(value: T)

  /** A Go `(T, error)` return: either a value and a nil error, or an error. */
  datatype Result<+T> = Ok(value: T) | Err(msg: string)

  /** The message of `errors.Wrap(cause, context)` (and of `errors.Wrapf`)
      from github.com/pkg/errors for a non-nil cause. */
  function Wrap(context: string, cause: string): string
  {
    context + ": " + cause
  }
}
