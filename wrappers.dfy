/** Plain value-or-error datatypes: `Option` for Python's `None`-or-value, `Result` for a value or a
    raised exception, `Outcome` for a check that either passes or raises. */
module Wrappers {

  datatype Option<+T> = None | Some(value: T)

  datatype Result<+R, +E> = Success(value: R) | Failure(error: E)

  datatype Outcome<+E> = Pass | Fail(error: E)
}
