/** A value that may be absent: `undefined` in the service's JavaScript. */
module Wrappers {
  datatype Option<+T> = None | Some(value: T)
}
