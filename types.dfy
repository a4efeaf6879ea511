/** Shared vocabulary: an optional value and the C `int` of the target platforms. */
module Types {

  datatype Option<+T> = None | Some(value: T)

  const IntMin: int := -0x8000_0000
  const IntMax: int := 0x7FFF_FFFF

  /** A C `int`: 32-bit two's complement. */
  type Int32 = x: int | -0x8000_0000 <= x <= 0x7FFF_FFFF
}
