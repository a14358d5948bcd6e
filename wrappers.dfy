/** Small failure-carrying datatypes shared by the model. Go errors are modelled
    by the text that `err.Error()` returns. */
module Wrappers {

  /** An optional value (a nil pointer, a missing map entry). */
  datatype Option<+T> = None | Some(value: T)

  /** A Go `(T, error)` return: either a value or an error text. */
  datatype Result<+T> = Ok(value: T) | Err(error: string)

  /** A Go call that returns only `error`: nil, or an error text. */
  datatype Outcome = Pass | Fail(error: string)
}
