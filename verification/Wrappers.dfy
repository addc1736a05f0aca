/** Values that may be missing, and results of operations that may fail. */
module Wrappers {

  datatype Option<T> = None | Some(value: T)

  datatype Result<T> = Ok(value: T) | Error
}
