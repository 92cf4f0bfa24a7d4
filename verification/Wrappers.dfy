/** Values that may be absent: Python's `Optional`. */
module Wrappers {

  datatype Option<+T> = None | Some(value: T)
}
