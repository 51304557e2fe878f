/** The optional-value datatype used for lookups that can fail. */
module Wrappers {

  /** `None` stands for "no value": a Go panic or a nil result in the modelled code. */
  datatype Option<+T> = None | Some(value: T)
}
