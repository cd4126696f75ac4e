/** The optional-value datatype used for parse results and map lookups. */
module Wrappers {

  datatype Option<+T> = None | Some(value: T)
}
