/**
 * Fixed-width C integer types and the conversions between them.
 *
 * Dafny integers are unbounded; the C code narrows values with casts such as
 * `(int16_t)` and `(uint8_t)` and lets unsigned counters wrap around. Each such
 * conversion is written out here as modular arithmetic on two's-complement
 * representations, which is what the targets of this engine do.
 */
module CTypes {

  datatype Option<+T> = None | Some(value: T)

  const TWO_8: int := 0x100
  const TWO_16: int := 0x1_0000
  const TWO_32: int := 0x1_0000_0000
  const TWO_64: int := 0x1_0000_0000_0000_0000

  type uint8 = x: int | 0 <= x < TWO_8
  type uint16 = x: int | 0 <= x < TWO_16
  type uint32 = x: int | 0 <= x < TWO_32
  type uint64 = x: int | 0 <= x < TWO_64
  type int16 = x: int | -0x8000 <= x < 0x8000
  type int32 = x: int | -0x8000_0000 <= x < 0x8000_0000

  /** `(uint8_t)x`: the unique byte congruent to x modulo 2^8. */
  function ToUInt8(x: int): (r: uint8)
    ensures (x - r) % TWO_8 == 0
    ensures 0 <= x < TWO_8 ==> r == x
  {
    x % TWO_8
  }

  /** `(uint16_t)x`: the unique 16-bit unsigned value congruent to x modulo 2^16. */
  function ToUInt16(x: int): (r: uint16)
    ensures (x - r) % TWO_16 == 0
    ensures 0 <= x < TWO_16 ==> r == x
  {
    x % TWO_16
  }

  /** `(uint32_t)x`, and the wrap-around of a `uint32_t` increment. */
  function ToUInt32(x: int): (r: uint32)
    ensures (x - r) % TWO_32 == 0
    ensures 0 <= x < TWO_32 ==> r == x
  {
    x % TWO_32
  }

  /** The wrap-around of `uint64_t` and `size_t` arithmetic (64-bit targets). */
  function ToUInt64(x: int): (r: uint64)
    ensures (x - r) % TWO_64 == 0
    ensures 0 <= x < TWO_64 ==> r == x
  {
    x % TWO_64
  }

  /** `(int16_t)x` on a two's-complement target. */
  function ToInt16(x: int): (r: int16)
    ensures (x - r) % TWO_16 == 0
    ensures -0x8000 <= x < 0x8000 ==> r == x
  {
    (x + 0x8000) % TWO_16 - 0x8000
  }

  /** `(int)x` for a `size_t` x on a two's-complement target with 32-bit `int`. */
  function ToInt32(x: int): (r: int32)
    ensures (x - r) % TWO_32 == 0
    ensures -0x8000_0000 <= x < 0x8000_0000 ==> r == x
  {
    (x + 0x8000_0000) % TWO_32 - 0x8000_0000
  }

  /** An unsigned counter incremented `n` times from zero holds `n` modulo the
      width: the step `ToUInt32(c + 1)` preserves `c == n % 2^32`. */
  lemma {:induction false} UInt32Increment(c: uint32, n: nat)
    requires c == n % TWO_32
    ensures ToUInt32(c + 1) == (n + 1) % TWO_32
  {
    if c + 1 == TWO_32 {
      assert (n + 1) % TWO_32 == 0;
    } else {
      assert ToUInt32(c + 1) == c + 1;
    }
  }
}
