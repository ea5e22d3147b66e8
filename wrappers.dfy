/** The optional value used for the result of parsing a sensor payload. */
module Wrappers {

  /** `None` stands for a payload that does not parse as a number. */
  datatype Option<+T> = None | Some(value: T)
}
