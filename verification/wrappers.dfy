/** Go's `nil`-or-value convention, as an option datatype. */
module Wrappers {

  /** `None` stands for Go's `nil` error; `Some(e)` for a returned error `e`. */
  datatype Option<+T> = None | Some(value: T)
}
