/** The optional value used for the engine's "absent" operand and operator. */
module Wrappers {
  datatype Option<+T> = None | Some(value: T)
}
