/** Option and Result values used in place of Java's null and thrown exceptions. */
module Wrappers {

  datatype Option<+T> = None | Some(value: T)

  datatype Result<+T, +E> = Success(value: T) | Failure(error: E)

  /** The Java runtime exceptions the modelled code throws or lets escape. */
  datatype JavaException =
    | NullPointerException
    | IllegalArgumentException
    | NumberFormatException

  /** The bytes of the model: Java's signed `byte`, stored as its unsigned value 0..255. */
  newtype byte = b: int | 0 <= b < 0x100

  /** Java's `(byte) x` narrowing cast, seen as an unsigned value. */
  function ByteOf(x: int): (b: byte)
    ensures (b as int - x) % 0x100 == 0
  {
    (x % 0x100) as byte
  }

  /** The signed value Java sees for a byte (two's complement). */
  function Signed(b: byte): (v: int)
    ensures -0x80 <= v < 0x80
    ensures (v - b as int) % 0x100 == 0
  {
    if b < 0x80 then b as int else b as int - 0x100
  }
}
