/** Small shared vocabulary: an optional value and the opaque error type. */
module Wrappers {

  /** A value that may be absent; stands for Go's nil results and nil errors. */
  datatype Option<+T> = None | Some(value: T)

  /** Go's `error`: opaque to this model, so just its message. */
  type Error = string
}
