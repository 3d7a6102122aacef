/** The optional-value datatype used throughout the model. */
module Wrappers {

  /** `Some(v)` or nothing; stands for Go's nil slices and "not found" results. */
  datatype Option<+T> = None | Some(value: T)
}
