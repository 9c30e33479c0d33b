/** The optional values that the source writes as `T | null | undefined`. */
module Wrappers {
  datatype Option<+T> = None | Some(value: T)
}
