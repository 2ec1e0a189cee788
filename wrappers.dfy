/** Option and Result, the error-return shapes used throughout the model. */
module Wrappers {
  datatype Option<T> = None | Some(value: T)
  {
    predicate IsSome() { this.Some? }
  }

  /** A Go `(value, error)` pair: either a value or an error message. */
  datatype Result<T> = Ok(value: T) | Err(error: string)
  {
    predicate IsOk() { this.Ok? }
  }

  /** A Go call that returns only an `error`. */
  datatype Outcome = Pass | Fail(error: string)
  {
    predicate IsPass() { this.Pass? }
  }
}
