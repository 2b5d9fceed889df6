/** Small failure-carrying datatypes shared by the whole model. */
module Wrappers {

  /** Python's `None` or a present value. */
  datatype Option<+T> = None | Some(value: T)

  /** The outcome of a call that either returns a value or raises an
      exception; `message` is `str(e)` of the raised exception. */
  datatype Outcome<+T> = Success(value: T) | Failure(message: string)
}
