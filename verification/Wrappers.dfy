/** Option, used for the source's nil pointers, nil slices and error returns. */
module Wrappers {
  datatype Option<+T> = None | Some(value: T)
}
