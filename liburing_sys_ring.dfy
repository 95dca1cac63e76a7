/** The ring helpers of the pointer-taking binding. Its loads go through `io_uring_read_once` and
    `io_uring_smp_load_acquire`, which read the word as it is; its release stores go through
    `io_uring_smp_store_release`, which stores the address of a local into a fresh `AtomicPtr`
    and so never writes the word it was given. Every advance that uses it is therefore a no-op,
    while the plain `+=` of `buf_ring_cq_advance_internal` does move the buffer tail. */
module LiburingSysRing {
  import opened Abi
  import opened Consts
  import opened Ring
  import CqeCore
  import RaskSysRing

  /** `io_uring_read_once`: the value the word holds. */
  function IoUringReadOnce<T>(p: Cell<T>): (r: T)
    reads p
    ensures r == p.value
  {
    p.value
  }

  /** `io_uring_smp_load_acquire`: the value the word holds. */
  function IoUringSmpLoadAcquire<T>(p: Cell<T>): (r: T)
    reads p
    ensures r == p.value
  {
    p.value
  }

  /** `io_uring_smp_store_release`: `v` is copied into a local, and the address of that local is
      stored into an `AtomicPtr` made from `p`; the word `p` is left as it was. */
  method IoUringSmpStoreRelease<T>(p: Cell<T>, v: T)
    ensures unchanged(p)
  {
    var local := new Cell<T>(v);
    var atomic := new AtomicPtr<T>.From(p);
    atomic.Store(local);
  }

  /** `io_uring_cq_advance`: computes `*khead + nr` and hands it to the no-op store, so `khead`
      stays where it was whatever `nr` is. */
  method IoUringCqAdvance(ring: IoUring, nr: Counter)
    ensures unchanged(ring.cq.khead)
  {
    if nr > 0 {
      var cq := ring.cq;
      IoUringSmpStoreRelease(cq.khead, Wrap(cq.khead.value + nr));
    }
  }

  /** `io_uring_cqe_seen`: nothing for a null entry, otherwise the (no-op) advance by one. */
  method IoUringCqeSeen(ring: IoUring, cqe: Addr)
    ensures unchanged(ring.cq.khead)
  {
    if cqe != NULL {
      IoUringCqAdvance(ring, 1);
    }
  }

  /** `io_uring_sq_ready`: a volatile read of `khead`, replaced by an acquire load without SQPOLL;
      both read the same word, so the count is the other binding's. */
  function IoUringSqReady(ring: IoUring): (r: Counter)
    reads ring.sq, ring.sq.khead
    ensures r == RaskSysRing.IoUringSqReady(ring)
  {
    var khead := if ring.flags & IORING_SETUP_SQPOLL == 0
                 then IoUringSmpLoadAcquire<Counter>(ring.sq.khead)
                 else ring.sq.khead.value;
    Ready(ring.sq.sqeTail, khead)
  }

  /** `io_uring_sq_space_left`: the other binding's count of free slots. */
  function IoUringSqSpaceLeft(ring: IoUring): (r: Counter)
    reads ring.sq, ring.sq.khead
    ensures r == RaskSysRing.IoUringSqSpaceLeft(ring)
  {
    Wrap(ring.sq.ringEntries - IoUringSqReady(ring))
  }

  /** `io_uring_sqring_wait`: 0 at once without an SQ thread or with a free slot; otherwise the
      result `wait` of the library's `__io_uring_sqring_wait`, as in the other binding. */
  function IoUringSqringWait(ring: IoUring, wait: i32): (r: i32)
    reads ring.sq, ring.sq.khead
    ensures r == RaskSysRing.IoUringSqringWait(ring, wait)
  {
    if ring.flags & IORING_SETUP_SQPOLL == 0 || IoUringSqSpaceLeft(ring) > 0 then 0 else wait
  }

  /** `io_uring_cq_ready`: the acquire load of `ktail` reads the word the other binding reads. */
  function IoUringCqReady(ring: IoUring): (r: Counter)
    reads ring.cq.ktail, ring.cq.khead
    ensures r == RaskSysRing.IoUringCqReady(ring.cq)
  {
    Ready(IoUringSmpLoadAcquire<Counter>(ring.cq.ktail), ring.cq.khead.value)
  }

  /** `io_uring_cq_has_overflown`: the volatile read of `kflags` gives the other binding's test. */
  function IoUringCqHasOverflown(ring: IoUring): (r: bool)
    reads ring.sq.kflags
    ensures r == RaskSysRing.IoUringCqHasOverflown(ring.sq)
  {
    IoUringReadOnce<u32>(ring.sq.kflags) & IORING_SQ_CQ_OVERFLOW != 0
  }

  /** `io_uring_get_sqe`: the pointer to the next free submission entry (here its slot), or null
      (`None`) when `ring_entries` are outstanding. The success test, the slot and the tail update
      are those of the other binding. */
  method IoUringGetSqe(ring: IoUring) returns (sqe: Option<u32>)
    requires SlotsFit(|ring.sq.sqes|, ring.sq.ringMask, SqeShift(ring.flags))
    modifies ring.sq`sqeTail
    ensures HasRoom(old(ring.sq.sqeTail), ring.sq.khead.value, ring.sq.ringEntries) ==>
              sqe == Some(Slot(old(ring.sq.sqeTail), ring.sq.ringMask, SqeShift(ring.flags))) &&
              ring.sq.sqeTail == Wrap(old(ring.sq.sqeTail) + 1)
    ensures !HasRoom(old(ring.sq.sqeTail), ring.sq.khead.value, ring.sq.ringEntries) ==>
              sqe == None && ring.sq.sqeTail == old(ring.sq.sqeTail)
    ensures sqe.Some? ==> Pos(sqe.value) < |ring.sq.sqes|
  {
    var sq := ring.sq;
    var next := Wrap(sq.sqeTail + 1);
    var shift := SqeShift(ring.flags);
    var head := if ring.flags & IORING_SETUP_SQPOLL == 0 then IoUringReadOnce<Counter>(sq.khead)
                else IoUringSmpLoadAcquire<Counter>(sq.khead);
    if Wrap(next as int - head as int) <= sq.ringEntries {
      var index := Slot(sq.sqeTail, sq.ringMask, shift);
      SlotInRange(sq.sqeTail, sq.ringMask, shift, |sq.sqes|);
      sq.sqeTail := next;
      return Some(index);
    }
    return None;
  }

  /** `io_uring_peek_cqe_internal` when the acquire loads of `ktail` observe `tails` in turn. A
      sentinel is followed by `io_uring_cq_advance(ring, 1)`, which does not move `khead`, so the
      loop is the reference `PeekLoop` exactly as in the other binding. */
  method IoUringPeekCqeInternal(ring: IoUring, tails: seq<Counter>) returns (r: PeekOutcome)
    requires SlotsFit(|ring.cq.cqes|, ring.cq.ringMask, CqeShift(ring.flags))
    ensures r == PeekRing(ring, tails)
  {
    var err: i32 := 0;
    var mask := ring.cq.ringMask;
    var shift := CqeShift(ring.flags);
    ghost var slot, entry := HeadSlot(ring), HeadEntry(ring);
    var i := 0;
    while i < |tails|
      invariant i <= |tails| && err == 0
      invariant slot == HeadSlot(ring) && entry == HeadEntry(ring)
      invariant PeekLoop(tails, ring.cq.khead.value, slot, entry, ring.features) ==
                PeekLoop(tails[i..], ring.cq.khead.value, slot, entry, ring.features)
      decreases |tails| - i
    {
      var tail := tails[i];
      var head := ring.cq.khead.value;
      var available := Ready(tail, head);
      if available == 0 {
        return Peeked(None, err, available);
      }
      var index := Slot(head, mask, shift);
      SlotInRange(head, mask, shift, |ring.cq.cqes|);
      var cqe := ring.cq.cqes[Pos(index)];
      if ring.features & IORING_FEAT_EXT_ARG == 0 && cqe.userData == LIBURING_UDATA_TIMEOUT {
        if Negative(cqe.res) {
          err := cqe.res;
        }
        IoUringCqAdvance(ring, 1);
        if err == 0 {
          i := i + 1;
          continue;
        }
        return Peeked(None, err, available);
      }
      return Peeked(Some(index), err, available);
    }
    return Spinning;
  }

  /** `io_uring_peek_cqe`: as in the other binding, the test is on the out-pointer `cqe_ptr`. */
  method IoUringPeekCqe(ring: IoUring, tails: seq<Counter>, cqePtrIsNull: bool)
    returns (call: PeekCall)
    requires SlotsFit(|ring.cq.cqes|, ring.cq.ringMask, CqeShift(ring.flags))
    ensures call == AfterPeek(PeekRing(ring, tails), cqePtrIsNull, 0)
  {
    var r := IoUringPeekCqeInternal(ring, tails);
    if r.Spinning? {
      return Hangs;
    }
    if cqePtrIsNull {
      // the peek's `*cqe_ptr = cqe`
      return WritesThroughNull;
    }
    if r.err == 0 && !cqePtrIsNull {
      return Immediate(r.cqe);
    }
    return WaitCqeNr(0);
  }

  /** `io_uring_wait_cqe`. */
  method IoUringWaitCqe(ring: IoUring, tails: seq<Counter>, cqePtrIsNull: bool)
    returns (call: PeekCall)
    requires SlotsFit(|ring.cq.cqes|, ring.cq.ringMask, CqeShift(ring.flags))
    ensures call == AfterPeek(PeekRing(ring, tails), cqePtrIsNull, 1)
  {
    var r := IoUringPeekCqeInternal(ring, tails);
    if r.Spinning? {
      return Hangs;
    }
    if cqePtrIsNull {
      // the peek's `*cqe_ptr = cqe`
      return WritesThroughNull;
    }
    if r.err == 0 && !cqePtrIsNull {
      return Immediate(r.cqe);
    }
    return WaitCqeNr(1);
  }

  /** `io_uring_opcode_supported`: the same test, and the same read through the zero-length
      `(*p).ops.1`, as the other binding. */
  function IoUringOpcodeSupported(probe: IoUringProbe, op: i32): (r: Outcome<i32>)
    ensures r == RaskSysRing.IoUringOpcodeSupported(probe, op)
  {
    RaskSysRing.ProbeLookup(probe.lastOp, INCOMPLETE_ARRAY_ELEMENTS, op)
  }

  /** `io_uring_buf_ring_mask`: the same mask as the other binding. */
  function IoUringBufRingMask(ringEntries: u32): (r: i32)
    ensures r == RaskSysRing.IoUringBufRingMask(ringEntries)
  {
    ringEntries - 1
  }

  /** `io_uring_buf_ring_init`. */
  method IoUringBufRingInit(br: IoUringBufRing)
    modifies br.tail
    ensures br.tail.value == 0
  {
    br.tail.value := 0;
  }

  /** `io_uring_buf_ring_add` as written: the slot is indexed in `bufs.as_mut()`, the zero-length
      array of the generated binding, so the bounds check fails for every tail, offset and mask,
      and the writes of address, length and id that follow it are never reached. */
  method IoUringBufRingAdd(br: IoUringBufRing, addr: Addr, len: u32, bid: u16, mask: i32,
                           bufOffset: i32)
    returns (r: Outcome<()>)
    ensures r.Panicked?
  {
    var index := I32ToU64(BufSlot(br.tail.value, mask, bufOffset));
    r := BoundsCheck(|UNION_FIELD_BUFS|, index);
  }

  /** `io_uring_buf_ring_add` as liburing has it: the slot write of the other binding. */
  method IoUringBufRingAddIntended(br: IoUringBufRing, addr: Addr, len: u32, bid: u16, mask: i32,
                           bufOffset: i32)
    requires !Negative(mask) && Fits(|br.bufs|, mask)
    modifies br
    ensures var slot := Pos(BufSlot(old(br.tail.value), mask, bufOffset));
            slot < |old(br.bufs)| &&
            br.bufs == old(br.bufs)[slot := IoUringBuf(addr, len, bid, old(br.bufs)[slot].resv)]
  {
    var index := BufSlot(br.tail.value, mask, bufOffset);
    BufSlotBound(br.tail.value, mask, bufOffset);
    var slot := Pos(index);
    assert slot < |br.bufs|;
    var buf := br.bufs[slot];
    br.bufs := br.bufs[slot := buf.(addr := addr, len := len, bid := bid)];
  }

  /** `io_uring_buf_ring_advance`: the new tail goes to the no-op store, so the kernel is never
      shown the added buffers. */
  method IoUringBufRingAdvance(br: IoUringBufRing, count: i32)
    ensures unchanged(br.tail)
  {
    var newTail := br.tail.value + U32ToU16(count);
    IoUringSmpStoreRelease(br.tail, newTail);
  }

  /** `io_uring_buf_ring_cq_advance_internal`: the plain `+=` moves the buffer tail by
      `bufCount`; the completion advance is the no-op one. */
  method IoUringBufRingCqAdvanceInternal(ring: IoUring, br: IoUringBufRing, cqCount: i32,
                                         bufCount: i32)
    requires br.tail as object != ring.cq.khead as object
    modifies br.tail
    ensures br.tail.value == old(br.tail.value) + U32ToU16(bufCount)
    ensures unchanged(ring.cq.khead)
  {
    br.tail.value := br.tail.value + U32ToU16(bufCount);
    IoUringCqAdvance(ring, Pos(cqCount));
  }

  /** `io_uring_buf_ring_cq_advance`: the buffer tail moves by `count`, the completion head
      stays. */
  method IoUringBufRingCqAdvance(ring: IoUring, br: IoUringBufRing, count: i32)
    requires br.tail as object != ring.cq.khead as object
    modifies br.tail
    ensures br.tail.value == old(br.tail.value) + U32ToU16(count)
    ensures unchanged(ring.cq.khead)
  {
    IoUringBufRingCqAdvanceInternal(ring, br, count, count);
  }
}
