/** Failure-carrying values shared by every module: a missing value and an
    operation that either produces a value or fails with an error. */
module Base {

  datatype Option<+T> = None | Some(value: T)

  datatype Result<+T, +E> = Ok(value: T) | Err(error: E)
}
