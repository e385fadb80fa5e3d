/** Failure-carrying datatypes used throughout the model: `Option` for Python's
    `None`-or-value returns and `Result` for a call that may raise. */
module Wrappers {

  datatype Option<+T> = None | Some(value: T)

  /** `Failure` stands for a raised exception; `Success` for a normal return. */
  datatype Result<+T, +E> = Success(value: T) | Failure(error: E)
}
