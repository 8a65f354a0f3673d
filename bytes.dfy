/** Octets, the unit of Node's `Buffer`. */
module Bytes {
  type byte = x: int | 0 <= x < 256
}
