/** The optional value used for Ruby's `nil`-or-value fields. */
module Wrappers {

  datatype Option<+T> = None | Some(value: T)
}
