/** An optional value: JavaScript's `undefined` (an absent attribute, a missing
    storage key) is `None`. */
module Wrappers {
  datatype Option<+T> = None | Some(value: T)
}
