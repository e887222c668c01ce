/** Types shared by every module: octets, octet strings and optional values. */
module Basics {

  type Byte = x: int | 0 <= x < 256

  type Bytes = seq<Byte>

  datatype Option<+T> = None | Some(value: T)
}
