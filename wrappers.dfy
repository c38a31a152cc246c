/** The optional value of a TypeScript expression that may be `undefined`. */
module Wrappers {
  datatype Option<+T> = None | Some(value: T)
}
