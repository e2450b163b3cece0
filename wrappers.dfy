/** The optional value the page uses in place of `null`. */
module Wrappers {

  datatype Option<+T> = None | Some(value: T)
}
