/** Option type for the error paths of the engine (a missing quote, an unparsable escape). */
module Wrappers {
  datatype Option<+T> = None | Some(value: T)
}
