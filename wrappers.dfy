/** The optional value returned by `getDiagram()` and stored for the parent link. */
module Wrappers {

  datatype Option<+T> = None | Some(value: T)
}
