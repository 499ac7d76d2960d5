/** The optional value the lookups and parsers of the dialogue return. */
module Wrappers {
  datatype Option<+T> = None | Some(value: T)
}
