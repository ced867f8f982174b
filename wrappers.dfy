// Optional values, for the AST's nullable child references.
module Wrappers {

  datatype Option<+T> = None | Some(value: T)

}
