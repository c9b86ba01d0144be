/** Stock optional value, standing in for C#'s nullable references. */
module Wrappers {

  datatype Option<T> = None | Some(value: T)
}
