/** Option, standing for the values the client treats as possibly `null` or `undefined`. */
module Wrappers {

  datatype Option<+T> = None | Some(value: T)
}
