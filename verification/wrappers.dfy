/** Option and Result, the two failure-carrying shapes the model needs:
    `Option` for SQL `NULL` columns and "no row found", `Result` for the
    HTTP error responses of the campaign router. */
module Wrappers {

  datatype Option<+T> = None | Some(value: T)

  datatype Result<+R, +E> = Success(value: R) | Failure(error: E)
}
