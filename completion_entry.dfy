/** `CompletionEntry` of the high-level crate: a view of one completion whose `flags()` accepts only
    the four flag bits the crate defines. */
module CompletionEntry {
  import opened Abi
  import opened Consts
  import CqeCore
  import LiburingSysPrep

  /** The crate's own `CqeFlags`: a bitflags word without the catch-all, so only the four defined
      bits are known. */
  type CqeFlags = u32

  const Buffer: CqeFlags := IORING_CQE_F_BUFFER
  const More: CqeFlags := IORING_CQE_F_MORE
  const SockNonEmpty: CqeFlags := IORING_CQE_F_SOCK_NONEMPTY
  const Notification: CqeFlags := IORING_CQE_F_NOTIF

  /** The union of the defined flags. */
  const KNOWN: u32 := Buffer | More | SockNonEmpty | Notification

  /** `from_bits`: `None` as soon as one bit outside the defined flags is set. */
  function FromBits(bits: u32): Option<CqeFlags>
  {
    if bits & !KNOWN == 0 then Some(bits) else None
  }

  /** `Option::expect`. */
  function Expect<T>(o: Option<T>, message: string): Outcome<T>
  {
    if o.Some? then Returned(o.value) else Panicked(message)
  }

  /** A borrowed completion. */
  datatype CompletionEntry = CompletionEntry(inner: CqeCore.IoUringCqe)

  /** `new`: a view of the given completion. */
  function New(cqe: CqeCore.IoUringCqe): (r: CompletionEntry)
    ensures r.inner == cqe
  {
    CompletionEntry(cqe)
  }

  /** `get_user_data`, through the binding's `io_uring_cqe_get_data64`: the completion's
      `user_data`. */
  function GetUserData(e: CompletionEntry): (r: u64)
    ensures r == e.inner.userData
  {
    LiburingSysPrep.IoUringCqeGetData64(e.inner)
  }

  /** `flags`: the raw word when it holds only defined flags, and the `expect` panic with the
      crate's message otherwise. */
  function Flags(e: CompletionEntry): (r: Outcome<CqeFlags>)
    ensures r.Returned? <==> e.inner.flags & !KNOWN == 0
    ensures r.Returned? ==> r.value == e.inner.flags
    ensures r.Panicked? ==> r.message == "Supported flags are defined"
  {
    Expect(FromBits(e.inner.flags), "Supported flags are defined")
  }

  /** `result`: the completion's `res`. */
  function Result(e: CompletionEntry): (r: i32)
    ensures r == e.inner.res
  {
    e.inner.res
  }

  /** The known flags are exactly the bits 1, 2, 4 and 8. */
  lemma KnownIsLowNibble()
    ensures KNOWN == 0xF
  {
  }

  /** `flags()` returns the raw word exactly when every set bit is one of the four defined flags,
      and panics otherwise. */
  lemma FlagsReturnsRawBitsOrPanics(e: CompletionEntry)
    ensures Flags(e).Returned? <==> e.inner.flags & 0xFFFF_FFF0 == 0
    ensures Flags(e).Returned? ==> Flags(e).value == e.inner.flags
    ensures Flags(e).Panicked? ==> Flags(e).message == "Supported flags are defined"
  {
    KnownIsLowNibble();
  }

  /** A completion that carries a provided-buffer id (bit 0 with a non-zero id in bits 16..31)
      makes `flags()` panic, although the safe rewrite's `get_buffer_id` reads that id. */
  lemma BufferIdPanics(e: CompletionEntry)
    requires e.inner.flags & 1 == 1 && e.inner.flags >> 16 != 0
    ensures Flags(e).Panicked?
    ensures CqeCore.GetBufferId(CqeCore.Flags(e.inner)).Some?
  {
    FlagsReturnsRawBitsOrPanics(e);
  }
}
