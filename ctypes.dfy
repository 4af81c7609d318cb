/** The fixed-width integer types that cross the boundary between the Rust wrapper and the C loader. */
module CTypes {

  /** Rust `i32`, which is also `libc::c_int` on every target the simulator builds for. */
  newtype i32 = x: int | -0x8000_0000 <= x < 0x8000_0000

  /** Rust `u8`: the assert tally and the bytes of key material. */
  newtype u8 = x: int | 0 <= x < 0x100

  /** Rust `u32` (`libc::c_uint`). */
  newtype u32 = x: int | 0 <= x < 0x1_0000_0000

  /** Rust's `as u32` applied to a `usize` length: keeps the low 32 bits. */
  function TruncU32(n: nat): (r: u32)
    ensures n < 0x1_0000_0000 ==> r as int == n
    ensures (n - r as int) % 0x1_0000_0000 == 0
  {
    (n % 0x1_0000_0000) as u32
  }
}
