/** Fixed-width integers of the OpenGL API and C++ unsigned arithmetic. */
module GLTypes {

  const UINT32_MODULUS: int := 0x1_0000_0000

  /** GLuint: an unsigned 32-bit object name, also the width of `unsigned int` counters. */
  newtype u32 = x: int | 0 <= x < 0x1_0000_0000

  /** GLint: a signed 32-bit value, as returned by glGetUniformLocation. */
  newtype i32 = x: int | -0x8000_0000 <= x < 0x8000_0000

  /** GLuint64: an unsigned 64-bit timer value. */
  newtype u64 = x: int | 0 <= x < 0x1_0000_0000_0000_0000

  /** `x++` on a C++ `unsigned int`: one more, wrapping to 0 past 2^32 - 1. */
  function Increment(x: u32): (r: u32)
    ensures x as int < UINT32_MODULUS - 1 ==> r as int == x as int + 1
    ensures x as int == UINT32_MODULUS - 1 ==> r == 0
  {
    ((x as int + 1) % UINT32_MODULUS) as u32
  }
}
