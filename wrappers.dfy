/** Go's `nil`-or-value, shared by the other modules. */
module Wrappers {

  /** `None` stands for Go's `nil` (no error, no function bound). */
  datatype Option<+T> = None | Some(value: T)
}
