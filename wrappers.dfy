/** A value that may be absent: a `null` or an `undefined` of the page script. */
module Wrappers {

  datatype Option<+T> = None | Some(value: T)
}
