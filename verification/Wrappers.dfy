/** A value that may be missing: a NULL pointer, or a result that is not there. */
module Wrappers {
  datatype Option<T> = None | Some(value: T)
}
