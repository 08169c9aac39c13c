/** The optional value used for Python's `None`-or-value arguments and dictionary lookups. */
module Wrappers {
  datatype Option<+T> = None | Some(value: T)
}
