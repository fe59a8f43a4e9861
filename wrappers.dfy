/** The conventional optional value, standing for JavaScript's `null`. */
module Wrappers {
  datatype Option<+T> = None | Some(value: T)
}
