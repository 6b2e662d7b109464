/** Option and Result, the two error-carrying shapes the Go code expresses
    with nil pointers and (value, error) pairs. */
module Wrappers {

  datatype Option<+T> = None | Some(value: T)

  datatype Result<+T, +E> = Ok(value: T) | Err(error: E)

  /** How a Go call ended: it returned, or it panicked with a value (shown
      as the text that fmt's %v verb gives it). */
  datatype Completion = Returned | Panicked(value: string)
}
