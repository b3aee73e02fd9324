/** How an operation of the program ends: normally, by raising one of
  * Python's built-in exceptions, or never (a loop that nothing can leave).
  */
module Outcomes {
  datatype Status =
    | Completed
    | RaisesValueError
    | RaisesIndexError
    | NeverReturns
    | RaisesTypeError
    | RaisesKeyError

  datatype Option<T> = None | Some(value: T)

  /** A value, or the exception raised instead of returning one. */
  datatype Result<T> = Success(value: T) | Failure(error: Status)
}
