/** The optional value used for JavaScript's `null`/`undefined` and for blank cells. */
module Wrappers {

  datatype Option<+T> = None | Some(value: T)
}
