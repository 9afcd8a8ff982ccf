/** Small value wrappers shared by the other modules. */
module Wrappers {

  /** A value that may be absent (JavaScript `undefined` for a lookup or a search). */
  datatype Option<+T> = None | Some(value: T)
}
