/** Python's `None`-or-value, used wherever the source stores or returns an optional value. */
module Wrappers {

  datatype Option<+T> = None | Some(value: T)
}
