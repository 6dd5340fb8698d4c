/** The optional value used for detectors that report "absent" or a value. */
module Wrappers {
  datatype Option<+T> = None | Some(value: T)
}
