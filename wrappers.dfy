/** Option and Result, used for the optional arguments and the raised
    exceptions of the modelled Python code. */
module Wrappers {

  datatype Option<+T> = None | Some(value: T)

  /** `Failure` stands for a raised exception, `Success` for a returned value. */
  datatype Result<+R, +E> = Success(value: R) | Failure(error: E)
}
