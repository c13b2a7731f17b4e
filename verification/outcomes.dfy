/** Null references and thrown exceptions, as values. */
module Outcomes {

  /** A reference that may be null: `None` stands for C#'s `null`. */
  datatype Option<+T> = None | Some(value: T)

  /** The argument exceptions this layer throws. */
  datatype Error =
    | ArgumentNull(paramName: string)   // ArgumentNullException(paramName)
    | Argument(message: string)         // ArgumentException(message)

  /** A call that either returns a value or throws. */
  datatype Result<+R> = Success(value: R) | Failure(error: Error)
}
