/** An optional value, used across the model. */
module Wrappers {

  /** A value that may be absent; in the model of JavaScript reads, `None` is `undefined`. */
  datatype Option<+T> = None | Some(value: T)
}
