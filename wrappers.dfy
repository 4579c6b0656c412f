/** Failure-carrying values shared by every module of the model.
    Python exceptions become `Err` values; the exception class is kept as the
    constructor of `Error` and the message text as `msg`. */
module Wrappers {

  datatype Option<T> = None | Some(value: T)

  /** The Python exception classes the matchers raise or let through. */
  datatype Error =
    | ValueError(msg: string)
    | RuntimeError(msg: string)
    | TypeError(msg: string)
    | IndexError(msg: string)

  datatype Result<T> = Ok(value: T) | Err(error: Error)

  /** What `f"...{e}"` prints for a caught exception `e`. */
  function Describe(e: Error): string
  {
    match e
    case ValueError(m) => m
    case RuntimeError(m) => m
    case TypeError(m) => m
    case IndexError(m) => m
  }

  /** A text argument as a Python caller may pass it: a string, `None`, or the
      empty list that `dict.get(key, [])` yields for a missing key. */
  datatype PyText = Str(s: string) | NoneValue | EmptyList
  {
    /** Python's `not x`: `None`, `""` and `[]` are falsy. */
    predicate Falsy()
    {
      NoneValue? || EmptyList? || (Str? && s == "")
    }
  }
}
