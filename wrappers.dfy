/** `undefined` in the page code: an absent value, or a present one. */
module Wrappers {
  datatype Option<+T> = None | Some(value: T)
}
