/** Option and Result: the model's stand-ins for Go's nil pointers and panics. */
module Wrappers {

  datatype Option<+T> = None | Some(value: T)

  /** `Err(msg)` is a Go run-time panic (failed type assertion, index out of
      range, nil dereference or an explicit `panic`); `msg` names which. */
  datatype Result<+T> = Ok(value: T) | Err(msg: string)
}
