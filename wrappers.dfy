/** Option, for lookups that may find nothing (a JavaScript `undefined`). */
module Wrappers {
  datatype Option<+T> = None | Some(value: T)
}
