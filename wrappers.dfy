/** The usual optional value: Python's `None` or a value. */
module Wrappers {

  datatype Option<+T> = None | Some(value: T)
}
