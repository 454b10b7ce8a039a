/** Option and Result values used for the Go (value, error) pairs of the model. */
module Wrappers {

  /** A value that may be absent (a nil reference, a missing map entry, a failed read). */
  datatype Option<+T> = None | Some(value: T)

  /** The outcome of a Go call returning (T, error): Ok carries the value, Err the error text. */
  datatype Result<+T> = Ok(value: T) | Err(error: string)

  /** The text of fmt.Errorf("<context>: %w", err). */
  function Wrap(context: string, err: string): string {
    context + ": " + err
  }
}
