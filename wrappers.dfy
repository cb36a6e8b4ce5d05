/** The optional value used for the editor's nullable state (`null` in the component). */
module Wrappers {
  datatype Option<+T> = None | Some(value: T)
}
