/** The usual optional value, used where a JavaScript read can yield `undefined`. */
module Wrappers {

  datatype Option<+T> = None | Some(value: T)
}
