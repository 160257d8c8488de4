/** Failure-carrying values shared by every module: the Python exceptions the
    modelled code can raise become the `Err` / `Raised` cases. */
module Wrappers {

  datatype Option<+T> = None | Some(value: T)

  /** The Python exceptions that the modelled operations raise. */
  datatype PyError =
    | AssertionError(message: string)
    | IndexError
    | TypeError
    | ZeroDivisionError
    | AttributeError

  /** The value of an expression that either evaluates or raises. */
  datatype Result<+T> = Ok(value: T) | Err(error: PyError)

  /** The completion of a statement that returns nothing or raises. */
  datatype Outcome = Done | Raised(error: PyError)
}
