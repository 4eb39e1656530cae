/** The optional value used for Python's `Optional[...]` and `None` returns. */
module Wrappers {
  datatype Option<+T> = None | Some(value: T)
}
