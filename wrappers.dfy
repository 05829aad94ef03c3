/** The optional result of a lookup: `None` plays the part of `null`. */
module Wrappers {

  datatype Option<+T> = None | Some(value: T)

}
