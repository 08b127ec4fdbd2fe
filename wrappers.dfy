/** Option: a value that may be missing (JavaScript's `undefined`/`null`). */
module Wrappers {
  datatype Option<+T> = None | Some(value: T)
}
