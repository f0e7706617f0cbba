/** The optional value used for Python's `None` and for lookups that can fail. */
module Wrappers {

  datatype Option<+T> = None | Some(value: T)
}
