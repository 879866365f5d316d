/** An optional value, for the results of `dict.get`. */
module Wrappers {

  /** A value that may be absent; Python's `dict.get` returning `None`. */
  datatype Option<+T> = None | Some(value: T)
}
