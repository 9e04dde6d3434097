/** The exceptions the modelled Python code raises, and the values an
    operation hands back to its caller: a raised exception is an ordinary
    value here, so each error path can be stated and proved. */
module Outcomes {

  /** `ValueError` keeps the literal message the source passes to it;
      `InsufficientFundsError` is the bank's own exception class. */
  datatype Error = ValueError(message: string) | InsufficientFundsError

  /** The outcome of an operation that returns nothing (`None`) or raises. */
  datatype Status = Done | Raised(error: Error)

  /** The outcome of an operation that returns a value or raises. */
  datatype Result<+T> = Ok(value: T) | Err(error: Error)

  /** Python's `X | None`. */
  datatype Option<+T> = None | Some(value: T)
}
