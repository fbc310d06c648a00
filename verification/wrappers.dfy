/** The optional value the store uses where Swift returns `nil`. */
module Wrappers {

  datatype Option<+T> = None | Some(value: T)
}
