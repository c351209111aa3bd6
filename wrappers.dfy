/** The optional-value type used throughout the model. */
module Wrappers {

  /** A value that may be absent: `undefined`, `null` or a falsy id in the source. */
  datatype Option<+T> = None | Some(value: T)
}
