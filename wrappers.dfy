/** The Option datatype the model uses for JavaScript values that may be
    `null` or `undefined`. */
module Wrappers {
  datatype Option<+T> = None | Some(value: T)
}
