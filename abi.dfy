/** Fixed-width integers of the kernel ABI and the Rust `as` casts between them.
    Every width is a bit-vector, so `+`, `-` and `<<` wrap as in a release build. A signed
    type is the same bit pattern read in two's complement: `i32` and `u32` share `bv32`, and
    a cast between them changes nothing but the reading. */
module Abi {

  type u8 = bv8
  type u16 = bv16
  type u32 = bv32
  type u64 = bv64
  /** A 32-bit signed integer, stored as its two's-complement bit pattern. */
  type i32 = bv32
  /** A 64-bit signed integer, stored as its two's-complement bit pattern. */
  type i64 = bv64
  /** The 64-bit target's `usize`. */
  type usize = bv64

  /** An address as the kernel sees it: a 64-bit value, 0 meaning null. */
  type Addr = u64

  const NULL: Addr := 0

  /** The address of a live Rust reference, which is never null. */
  type Ref = a: Addr | a != NULL witness 1

  datatype Option<T> = None | Some(value: T)

  datatype Result<T, E> = Ok(value: T) | Err(error: E)

  /** The value of a call that may panic. */
  datatype Outcome<T> = Returned(value: T) | Panicked(message: string)

  /** A `u32` index used as a position in a sequence or array of slots. */
  function Pos(i: u32): nat
  {
    i as int
  }

  /** Every index up to `m` is a position below `n`. */
  ghost predicate Fits(n: nat, m: u32)
  {
    forall i: u32 :: i <= m ==> Pos(i) < n
  }

  /** The sign bit of an `i32` is set: the value is below zero. */
  predicate Negative(x: i32)
  {
    x & 0x8000_0000 != 0
  }

  /** `x as u64` for `x: i32`: sign extension. */
  function I32ToU64(x: i32): u64
  {
    if Negative(x) then (x as bv64) | 0xFFFF_FFFF_0000_0000 else x as bv64
  }

  lemma ZeroExtendHalves(x: u32)
    ensures (x as bv64) & 0xFFFF_FFFF == x as bv64 && (x as bv64) >> 32 == 0
  {
  }

  lemma FillHigh(w: u64)
    requires w >> 32 == 0
    ensures (w | 0xFFFF_FFFF_0000_0000) & 0xFFFF_FFFF == w
    ensures (w | 0xFFFF_FFFF_0000_0000) >> 32 == 0xFFFF_FFFF
  {
  }

  /** Sign extension keeps the low 32 bits and fills the high 32 bits with copies of the sign
      bit: all ones for a negative value, all zeros otherwise. */
  lemma I32ToU64SignExtends(x: i32)
    ensures I32ToU64(x) & 0xFFFF_FFFF == x as bv64
    ensures I32ToU64(x) >> 32 == if Negative(x) then 0xFFFF_FFFF else 0
  {
    ZeroExtendHalves(x);
    if Negative(x) {
      FillHigh(x as bv64);
    }
  }

  /** `x as u64` for `x: u32`: zero extension. */
  function U32ToU64(x: u32): u64
  {
    x as bv64
  }

  /** `x as u32` for `x: u8`: zero extension. */
  function U8ToU32(x: u8): u32
  {
    x as bv32
  }

  /** `x as u64` (or `as uintptr_t`) for `x: u8`: zero extension. */
  function U8ToU64(x: u8): u64
  {
    x as bv64
  }

  /** `x as u16` for `x: u32` (or `i32`): keeps the low 16 bits. */
  function U32ToU16(x: u32): u16
  {
    (x & 0xFFFF) as bv16
  }

  /** `x as u8` for `x: u32`: keeps the low 8 bits. */
  function U32ToU8(x: u32): u8
  {
    (x & 0xFF) as bv8
  }

  /** `x as u32` for `x: u64` (or a `usize` length): keeps the low 32 bits. */
  function U64ToU32(x: u64): u32
  {
    (x & 0xFFFF_FFFF) as bv32
  }

  /** `x as u16` for `x: i32` keeps the low half, so two values that differ only above bit 15
      store the same buffer index. */
  lemma U32ToU16Low(x: u32, y: u32)
    requires x & 0xFFFF == y & 0xFFFF
    ensures U32ToU16(x) == U32ToU16(y)
  {
  }

  /** Byte order of the host that owns a submission record. */
  datatype Endian = Little | Big

  /** The four bytes of `x` in memory, lowest address first, on a host of byte order `e`. */
  function Bytes32(x: u32, e: Endian): seq<u8>
  {
    var b0, b1, b2, b3 := (x & 0xFF) as bv8, ((x >> 8) & 0xFF) as bv8,
                          ((x >> 16) & 0xFF) as bv8, ((x >> 24) & 0xFF) as bv8;
    if e == Little then [b0, b1, b2, b3] else [b3, b2, b1, b0]
  }

  function Swap32(x: u32): u32
  {
    ((x & 0xFF) << 24) | ((x & 0xFF00) << 8) | ((x >> 8) & 0xFF00) | ((x >> 24) & 0xFF)
  }

  /** `x.to_le()`: the identity on a little-endian host, a byte swap on a big-endian one. */
  function ToLe32(x: u32, host: Endian): u32
  {
    if host == Little then x else Swap32(x)
  }

  /** Whatever the host, the value `to_le` produces lies in memory as the little-endian bytes
      of its argument, which is how the kernel reads a poll mask. */
  lemma ToLe32StoresLittleEndian(x: u32, host: Endian)
    ensures Bytes32(ToLe32(x, host), host) == Bytes32(x, Little)
  {
  }

  /** Writes `v` into the first two bytes (lowest addresses) of a 4-byte field holding `u`,
      leaving the other two bytes as they were. */
  function WriteFirstHalf(u: u32, v: u16, host: Endian): u32
  {
    if host == Little then (u & 0xFFFF_0000) | (v as bv32)
    else (u & 0x0000_FFFF) | ((v as bv32) << 16)
  }

  /** The first two bytes of the field then hold `v` in the host's order, the last two are kept. */
  lemma WriteFirstHalfBytes(u: u32, v: u16, host: Endian)
    ensures var b, was := Bytes32(WriteFirstHalf(u, v, host), host), Bytes32(u, host);
            b[2..] == was[2..] &&
            (host == Little ==> b[0] == (v & 0xFF) as bv8 && b[1] == (v >> 8) as bv8) &&
            (host == Big ==> b[0] == (v >> 8) as bv8 && b[1] == (v & 0xFF) as bv8)
  {
  }

  /** A `u32` counter read as the number it holds. Ring counters are subtracted and compared, and
      their wrap-around at 2^32 is written out with `Wrap`. */
  type Counter = x: int | 0 <= x < 0x1_0000_0000

  /** Release-build `u32` arithmetic: the result modulo 2^32. */
  function Wrap(x: int): Counter
  {
    x % 0x1_0000_0000
  }

  /** One of the 32 powers of two a `u32` can hold. */
  predicate IsPowerOfTwo(n: int)
  {
    n == 0x1 || n == 0x2 || n == 0x4 || n == 0x8 ||
    n == 0x10 || n == 0x20 || n == 0x40 || n == 0x80 ||
    n == 0x100 || n == 0x200 || n == 0x400 || n == 0x800 ||
    n == 0x1000 || n == 0x2000 || n == 0x4000 || n == 0x8000 ||
    n == 0x10000 || n == 0x20000 || n == 0x40000 || n == 0x80000 ||
    n == 0x100000 || n == 0x200000 || n == 0x400000 || n == 0x800000 ||
    n == 0x1000000 || n == 0x2000000 || n == 0x4000000 || n == 0x8000000 ||
    n == 0x10000000 || n == 0x20000000 || n == 0x40000000 || n == 0x80000000
  }

  /** A masked index never exceeds the mask. */
  lemma MaskBound(x: u32, mask: u32)
    ensures x & mask <= mask
  {
  }
}
