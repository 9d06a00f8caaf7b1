/** Octet strings: the representation of bodies and of the raw query string. */
module Octets {

  newtype byte = x: int | 0 <= x < 256

  type Octets = seq<byte>
}
