// The bytes media is made of.
module Octets {
  type Byte = x: int | 0 <= x < 256
  type Bytes = seq<Byte>
}
