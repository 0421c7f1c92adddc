/** Option type used for the flag register (Python `None` or an int) and for lookups that may fail. */
module Wrappers {
  datatype Option<+T> = None | Some(value: T)
}
