/** Values shared by every part of the model: optional values, results with an error
    side (the source's thrown exceptions), bytes and opaque single-precision samples. */
module Base {

  datatype Option<+T> = None | Some(value: T)

  /** `Err` stands for an exception the source throws; its payload is the message. */
  datatype Result<+T, +E> = Ok(value: T) | Err(error: E)

  newtype byte = x: int | 0 <= x < 256

  /** One IEEE-754 single-precision value, kept as its four bytes in memory order.
      Audio samples and style vectors are only moved around, never computed on,
      so nothing here interprets the bits. */
  datatype Float32 = Float32(b0: byte, b1: byte, b2: byte, b3: byte)

  function Min(a: int, b: int): int { if a <= b then a else b }

  function Max(a: int, b: int): int { if a >= b then a else b }
}
