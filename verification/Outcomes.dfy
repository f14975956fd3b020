/** Results of calls that can fail, and of Go code that can also panic. */
module Outcomes {
  datatype Option<+T> = None | Some(value: T)

  /** `Panic` is a Go run-time panic: the call does not return. */
  datatype Outcome<+T> = Ok(value: T) | Error | Panic
}
