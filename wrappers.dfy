/** The optional value used for absent keys, undefined fields and failed parses. */
module Wrappers {

  datatype Option<+T> = None | Some(value: T)
}
