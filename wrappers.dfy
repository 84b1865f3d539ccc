/** Option and Result, the two failure-carrying shapes the model needs:
    `undefined` in the scripts becomes None, and a Lua `error(...)` that
    aborts a script becomes Failure(message). */
module Wrappers {

  datatype Option<+T> = None | Some(value: T)

  datatype Result<+R, +E> = Success(value: R) | Failure(error: E)
}
