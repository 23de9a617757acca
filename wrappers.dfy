/** The optional-value wrapper used for fields a record may lack. */
module Wrappers {

  /** A value that may be absent (JavaScript's `undefined` / `null`). */
  datatype Option<+T> = None | Some(value: T)
}
