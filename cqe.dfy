/** The completion record `IoUringCqe` and its flag word `CqeFlags` of the safe rewrite. */
module CqeCore {
  import opened Abi
  import opened Consts

  /** The flag word of a completion. The `const _ = !0` declaration makes every bit a known
      flag, so the word keeps undefined bits as well. */
  type CqeFlags = u32

  const Buffer: CqeFlags := 1
  const More: CqeFlags := 1 << 1
  const SockNonEmpty: CqeFlags := 1 << 2
  const Notification: CqeFlags := 1 << 3


  /** Every bit of `other` is set in `f`. */
  predicate Contains(f: CqeFlags, other: CqeFlags)
  {
    f & other == other
  }

  /** `from_bits_retain`. */
  function FromBitsRetain(bits: u32): CqeFlags
  {
    bits
  }

  /** `get_buffer_id`: the id of the provided buffer the kernel picked, which it writes into the
      upper 16 bits when it sets `Buffer`. */
  function GetBufferId(f: CqeFlags): (r: Option<u16>)
    ensures r.Some? <==> f & 1 == 1
  {
    if Contains(f, Buffer) then Some(U32ToU16(f >> 16)) else None
  }

  /** A completion as the kernel writes it. With `IORING_SETUP_CQE32` the slot is twice as wide;
      the extra 16 bytes are not part of this record. */
  datatype IoUringCqe = IoUringCqe(userData: u64, res: i32, flags: u32)

  /** `get_data`: the stored `user_data`. */
  function GetData(c: IoUringCqe): (r: u64)
    ensures r == c.userData
  {
    c.userData
  }

  /** `flags`: the stored flag word with every bit retained, defined flags or not. */
  function Flags(c: IoUringCqe): (r: CqeFlags)
    ensures r == c.flags
  {
    FromBitsRetain(c.flags)
  }

  /** `result`: the stored `res`. */
  function Result(c: IoUringCqe): (r: i32)
    ensures r == c.res
  {
    c.res
  }

  /** The flag word the kernel writes for a completion that used provided buffer `bid`:
      the id in the upper half, the other flags in the lower half. */
  function KernelFlags(bid: u16, low: u16): u32
  {
    ((bid as bv32) << 16) | (low as bv32)
  }

  /** `get_buffer_id` recovers the id the kernel stored whenever `Buffer` is among the low flags,
      and reports none otherwise. */
  lemma BufferIdRoundTrip(bid: u16, low: u16)
    ensures GetBufferId(KernelFlags(bid, low)) == if low & 1 == 1 then Some(bid) else None
  {
    var w := KernelFlags(bid, low);
    assert w >> 16 == bid as bv32;
    assert w & 1 == (low as bv32) & 1;
  }

  /** The buffer id depends on bit 0 and bits 16..31 only: changing any of bits 1..15 leaves it
      as it was. */
  lemma BufferIdIgnoresMiddleBits(a: u32, b: u32)
    requires a & 1 == b & 1 && a >> 16 == b >> 16
    ensures GetBufferId(a) == GetBufferId(b)
  {
  }

  /** The four flags are the single bits 1, 2, 4 and 8, and they are the kernel's `IORING_CQE_F_*`
      bits. */
  lemma FlagConstants()
    ensures Buffer == 1 && More == 2 && SockNonEmpty == 4 && Notification == 8
    ensures Buffer == IORING_CQE_F_BUFFER && More == IORING_CQE_F_MORE
    ensures SockNonEmpty == IORING_CQE_F_SOCK_NONEMPTY && Notification == IORING_CQE_F_NOTIF
  {
  }
}
