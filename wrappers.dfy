/** The optional value used wherever the source returns `(value, error)` or a nil-able pointer. */
module Wrappers {

  datatype Option<+T> = None | Some(value: T)
}
