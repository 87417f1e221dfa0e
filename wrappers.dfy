/** The optional-value datatype used for absent message fields, session fields and configuration. */
module Wrappers {
  datatype Option<+T> = None | Some(value: T)
}
