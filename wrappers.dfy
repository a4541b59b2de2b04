/** The `undefined`-or-value shape that the extension's optional inputs take. */
module Wrappers {
  datatype Option<+T> = None | Some(value: T)
}
