/** Failure-carrying datatypes shared by the model: `Option` stands for a
    Python value that may be `None`, `Result` for a call that either returns
    or raises. */
module Wrappers {

  datatype Option<+T> = None | Some(value: T)

  datatype Result<+R, +E> = Success(value: R) | Failure(error: E)

}
