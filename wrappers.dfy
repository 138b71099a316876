/** Python's `None` beside a value of some type, as an option. */
module Wrappers {

  datatype Option<+T> = None | Some(value: T)

}
