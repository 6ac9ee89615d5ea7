/** The optional-value datatype used by the matcher and by the parser's `consume`. */
module Wrappers {
  datatype Option<T> = None | Some(value: T)
}
