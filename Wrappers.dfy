/** A value that may be absent: a JavaScript `null` (or `undefined`) stands for `None`. */
module Wrappers {

  datatype Option<+T> = None | Some(value: T)
}
