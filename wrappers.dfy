/** An optional value: a validator slot that may be empty, a response field
    that may not have been written yet. */
module Wrappers {
  datatype Option<+T> = None | Some(value: T)
}
