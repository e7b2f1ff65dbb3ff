/** Values shared by every part of the model: an optional value, a result
    carrying a Python exception class, and the exception classes the modelled
    code raises or catches. */
module Common {

  datatype Option<+T> = None | Some(value: T)

  /** The Python exception classes that occur in the modelled code. */
  datatype Exc =
    | IndexError
    | ValueError
    | TypeError
    | AttributeError
    | OverflowError
    | KeyError
    | UnboundLocalError

  /** A computation that either returns a value or raises an exception. */
  datatype Result<+T> = Ok(value: T) | Err(exc: Exc)

  /** The outcome of calling code that returns nothing useful: it returns
      normally or raises. */
  datatype Outcome = Returned | Raised(exc: Exc)

  /** `config.STATUS` of optinum/common/config.py: `NOTSET`, `RUNNING`,
      `DONE` and `ERROR`. */
  datatype Status = NotSet | Running | Done | Error
}
