/** The sketch's `byte`: an unsigned 8-bit number. Arithmetic on it is written
    out with an explicit modulus where the sketch relies on wrap-around; bit
    operations are done on `bv8`. */
module Bytes {
  newtype byte = x: int | 0 <= x < 256
}
