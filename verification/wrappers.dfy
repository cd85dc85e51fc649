/** Failure-carrying datatypes shared by the pipeline modules.
    `Option` stands for a pandas value that may be NaN (an undefined
    rolling statistic); `Result` for a request that validation may reject. */
module Wrappers {

  datatype Option<+T> = None | Some(value: T)

  datatype Result<+R, +E> = Success(value: R) | Failure(error: E)

}
