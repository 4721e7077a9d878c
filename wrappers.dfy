/** A value that may be absent: JavaScript's `undefined` for a field or prop that is not set. */
module Wrappers {

  datatype Option<+T> = None | Some(value: T)
}
