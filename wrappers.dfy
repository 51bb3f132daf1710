/** Option and Result, the two shapes the recognizer's Python code uses for
    "maybe absent" values and for "returned normally or raised". */
module Wrappers {

  datatype Option<+T> = None | Some(value: T)

  datatype Result<+R, +E> = Success(value: R) | Failure(error: E)
}
