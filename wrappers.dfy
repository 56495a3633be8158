/** The optional value used for lookups, decoding and error returns throughout the model. */
module Wrappers {

  /** `None` stands for "nothing" (a missing row, an undecodable message, a nil error). */
  datatype Option<+T> = None | Some(value: T)
}
