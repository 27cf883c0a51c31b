/** Option, for the values JavaScript writes as `null`. */
module Wrappers {
  datatype Option<+T> = None | Some(value: T)
}
