/** The Python exceptions the modelled code can raise, and the result of an
    operation that either returns a value or raises one of them. */
module Outcomes {

  datatype Option<+T> = None | Some(value: T)

  /** The built-in exception classes that reach the callers of the core. */
  datatype Exception =
    | ValueError         // int() of a malformed string, a date with a year outside 1..9999
    | OverflowError      // date arithmetic that leaves date.min..date.max
    | ZeroDivisionError  // float division by zero
    | IndexError         // indexing an empty list

  datatype Result<+T> = Ok(value: T) | Raise(exc: Exception)
}
