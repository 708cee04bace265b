/** Types shared by the byte-level modules. */
module Basics {
  type byte = x: int | 0 <= x < 256

  datatype Option<T> = None | Some(value: T)
}
