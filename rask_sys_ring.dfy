/** The ring helpers of the reference-taking binding: slot acquisition, the ready counts, the
    completion-head advance, the peek loop, the opcode probe and the provided-buffer ring. Loads
    and stores of the shared words are plain reads and writes of their cells, whatever ordering
    the source asks for. */
module RaskSysRing {
  import opened Abi
  import opened Consts
  import opened Ring
  import CqeCore

  /** `io_uring_get_sqe`: the slot of the next free submission entry, or `None` when
      `ring_entries` are outstanding; only `sqe_tail` changes, and only on success. */
  method IoUringGetSqe(ring: IoUring) returns (sqe: Option<u32>)
    requires SlotsFit(|ring.sq.sqes|, ring.sq.ringMask, SqeShift(ring.flags))
    modifies ring.sq`sqeTail
    ensures HasRoom(old(ring.sq.sqeTail), ring.sq.khead.value, ring.sq.ringEntries) ==>
              sqe == Some(Slot(old(ring.sq.sqeTail), ring.sq.ringMask, SqeShift(ring.flags))) &&
              ring.sq.sqeTail == Wrap(old(ring.sq.sqeTail) + 1)
    ensures !HasRoom(old(ring.sq.sqeTail), ring.sq.khead.value, ring.sq.ringEntries) ==>
              sqe == None && ring.sq.sqeTail == old(ring.sq.sqeTail)
    ensures sqe.Some? ==> Pos(sqe.value) < |ring.sq.sqes|
  {
    var sq := ring.sq;
    var next := Wrap(sq.sqeTail + 1);
    var shift := SqeShift(ring.flags);
    var head;
    if ring.flags & IORING_SETUP_SQPOLL == 0 {
      head := sq.khead.value;
    } else {
      head := sq.khead.value;
    }
    if Wrap(next as int - head as int) <= sq.ringEntries {
      var index := Slot(sq.sqeTail, sq.ringMask, shift);
      SlotInRange(sq.sqeTail, sq.ringMask, shift, |sq.sqes|);
      sq.sqeTail := next;
      return Some(index);
    }
    return None;
  }

  /** `io_uring_sq_ready`: entries handed out by `get_sqe` that the kernel has not consumed. The
      SQPOLL branch loads the same word. */
  function IoUringSqReady(ring: IoUring): (r: Counter)
    reads ring.sq, ring.sq.khead
    ensures Wrap(ring.sq.khead.value + r) == ring.sq.sqeTail
  {
    var khead := ring.sq.khead.value;
    Ready(ring.sq.sqeTail, khead)
  }

  /** `io_uring_sq_space_left`: with at most `ring_entries` outstanding, the free slots and the
      ready entries add up to the ring size. */
  function IoUringSqSpaceLeft(ring: IoUring): (r: Counter)
    reads ring.sq, ring.sq.khead
    ensures IoUringSqReady(ring) <= ring.sq.ringEntries ==>
              r + IoUringSqReady(ring) == ring.sq.ringEntries
  {
    Wrap(ring.sq.ringEntries - IoUringSqReady(ring))
  }

  /** With at most `ring_entries` outstanding, `io_uring_get_sqe` finds room exactly when
      `io_uring_sq_space_left` is positive, and the slot it takes is one more ready entry and one
      free slot fewer. */
  lemma SpaceLeftDecidesGetSqe(ring: IoUring)
    requires IsPowerOfTwo(ring.sq.ringEntries) && IoUringSqReady(ring) <= ring.sq.ringEntries
    ensures HasRoom(ring.sq.sqeTail, ring.sq.khead.value, ring.sq.ringEntries) <==>
            IoUringSqSpaceLeft(ring) > 0
    ensures HasRoom(ring.sq.sqeTail, ring.sq.khead.value, ring.sq.ringEntries) ==>
              Ready(Wrap(ring.sq.sqeTail + 1), ring.sq.khead.value) == IoUringSqReady(ring) + 1 &&
              SpaceLeft(ring.sq.ringEntries, Wrap(ring.sq.sqeTail + 1), ring.sq.khead.value) ==
              IoUringSqSpaceLeft(ring) - 1
  {
    var tail, head, entries := ring.sq.sqeTail, ring.sq.khead.value, ring.sq.ringEntries;
    assert IoUringSqReady(ring) == Ready(tail, head);
    assert IoUringSqSpaceLeft(ring) == SpaceLeft(entries, tail, head);
    RoomIffSpaceLeft(tail, head, entries);
  }

  /** `io_uring_sqring_wait`: 0 at once without an SQ thread or with a free slot; otherwise the
      result `wait` of the library's `__io_uring_sqring_wait`. */
  function IoUringSqringWait(ring: IoUring, wait: i32): (r: i32)
    reads ring.sq, ring.sq.khead
    ensures ring.flags & IORING_SETUP_SQPOLL == 0 ==> r == 0
    ensures IoUringSqSpaceLeft(ring) > 0 ==> r == 0
    ensures r != 0 ==> r == wait && IoUringSqSpaceLeft(ring) == 0
  {
    if ring.flags & IORING_SETUP_SQPOLL == 0 || IoUringSqSpaceLeft(ring) > 0 then 0 else wait
  }

  /** `io_uring_cq_ready`: completions the kernel has posted and the library not consumed, the
      distance from `khead` to `ktail` modulo 2^32. */
  function IoUringCqReady(cq: IoUringCq): (r: Counter)
    reads cq.ktail, cq.khead
    ensures Wrap(cq.khead.value + r) == cq.ktail.value
  {
    Ready(cq.ktail.value, cq.khead.value)
  }

  /** `io_uring_cq_advance`: `khead` moves on by `seen` (modulo 2^32), and is not written when
      `seen` is 0. Consuming at most the ready completions leaves exactly `seen` fewer ready. */
  method IoUringCqAdvance(cq: IoUringCq, seen: Counter)
    requires cq.khead != cq.ktail
    modifies cq.khead
    ensures seen == 0 ==> unchanged(cq.khead)
    ensures cq.khead.value == Wrap(old(cq.khead.value) + seen)
    ensures seen <= old(IoUringCqReady(cq)) ==> IoUringCqReady(cq) == old(IoUringCqReady(cq)) - seen
  {
    if seen > 0 {
      var head := Wrap(cq.khead.value + seen);
      if seen <= IoUringCqReady(cq) {
        AdvanceConsumes(cq.ktail.value, cq.khead.value, seen);
      }
      cq.khead.value := head;
    }
  }

  /** `io_uring_cqe_seen`: consumes exactly one completion, whichever entry is passed. */
  method IoUringCqeSeen(cq: IoUringCq, cqe: CqeCore.IoUringCqe)
    requires cq.khead != cq.ktail
    modifies cq.khead
    ensures cq.khead.value == Wrap(old(cq.khead.value) + 1)
    ensures old(IoUringCqReady(cq)) > 0 ==> IoUringCqReady(cq) == old(IoUringCqReady(cq)) - 1
  {
    IoUringCqAdvance(cq, 1);
  }

  /** `io_uring_cq_has_overflown`: the overflow bit of the submission ring's flag word. */
  function IoUringCqHasOverflown(sq: IoUringSq): (r: bool)
    reads sq.kflags
    ensures r <==> (sq.kflags.value >> 1) & 1 == 1
  {
    sq.kflags.value & IORING_SQ_CQ_OVERFLOW != 0
  }

  /** `io_uring_peek_cqe_internal` when the acquire loads of `ktail` observe `tails` in turn: the
      loop of the reference `PeekLoop`, which never writes `khead` (its advance is commented out),
      so a sentinel with a non-negative result is examined again and again. */
  method IoUringPeekCqeInternal(ring: IoUring, tails: seq<Counter>) returns (r: PeekOutcome)
    requires SlotsFit(|ring.cq.cqes|, ring.cq.ringMask, CqeShift(ring.flags))
    ensures r == PeekRing(ring, tails)
  {
    var err: i32 := 0;
    var mask := ring.cq.ringMask;
    var shift := CqeShift(ring.flags);
    ghost var slot, entry := HeadSlot(ring), HeadEntry(ring);
    var i := 0;
    while i < |tails|
      invariant i <= |tails| && err == 0
      invariant PeekLoop(tails, ring.cq.khead.value, slot, entry, ring.features) ==
                PeekLoop(tails[i..], ring.cq.khead.value, slot, entry, ring.features)
      decreases |tails| - i
    {
      var tail := tails[i];
      var head := ring.cq.khead.value;
      var available := Ready(tail, head);
      if available == 0 {
        return Peeked(None, err, available);
      }
      var index := Slot(head, mask, shift);
      SlotInRange(head, mask, shift, |ring.cq.cqes|);
      var cqe := ring.cq.cqes[Pos(index)];
      if ring.features & IORING_FEAT_EXT_ARG == 0 && cqe.userData == LIBURING_UDATA_TIMEOUT {
        if Negative(cqe.res) {
          err := cqe.res;
        }
        if err == 0 {
          i := i + 1;
          continue;
        }
        return Peeked(None, err, available);
      }
      return Peeked(Some(index), err, available);
    }
    return Spinning;
  }

  /** `io_uring_peek_cqe`: the peek, whose store into `*cqe_ptr` is undefined for a null
      out-pointer; then the waiting call with `wait_nr` 0 unless the peek returned 0 and
      `cqe_ptr` is not null. */
  method IoUringPeekCqe(ring: IoUring, tails: seq<Counter>, cqePtrIsNull: bool)
    returns (call: PeekCall)
    requires SlotsFit(|ring.cq.cqes|, ring.cq.ringMask, CqeShift(ring.flags))
    ensures call == AfterPeek(PeekRing(ring, tails), cqePtrIsNull, 0)
  {
    var r := IoUringPeekCqeInternal(ring, tails);
    if r.Spinning? {
      return Hangs;
    }
    if cqePtrIsNull {
      // the peek's `*cqe_ptr = cqe`
      return WritesThroughNull;
    }
    if r.err == 0 && !cqePtrIsNull {
      return Immediate(r.cqe);
    }
    return WaitCqeNr(0);
  }

  /** `io_uring_wait_cqe`: as `io_uring_peek_cqe`, waiting for one completion. */
  method IoUringWaitCqe(ring: IoUring, tails: seq<Counter>, cqePtrIsNull: bool)
    returns (call: PeekCall)
    requires SlotsFit(|ring.cq.cqes|, ring.cq.ringMask, CqeShift(ring.flags))
    ensures call == AfterPeek(PeekRing(ring, tails), cqePtrIsNull, 1)
  {
    var r := IoUringPeekCqeInternal(ring, tails);
    if r.Spinning? {
      return Hangs;
    }
    if cqePtrIsNull {
      // the peek's `*cqe_ptr = cqe`
      return WritesThroughNull;
    }
    if r.err == 0 && !cqePtrIsNull {
      return Immediate(r.cqe);
    }
    return WaitCqeNr(1);
  }

  /** The lookup of `io_uring_opcode_supported` in `entries`: 0 for an opcode whose low byte lies
      above `last_op`; otherwise the supported bit of the entry indexed by the opcode
      sign-extended to `usize`, and the bounds-check panic when that index is outside
      `entries`. */
  function ProbeLookup(lastOp: u8, entries: seq<IoUringProbeOp>, op: i32): Outcome<i32>
  {
    if U32ToU8(op) > lastOp then Returned(0)
    else
      var index := I32ToU64(op) as int;
      if index >= |entries| then Panicked("index out of bounds")
      else Returned((entries[index].flags & U32ToU16(IO_URING_OP_SUPPORTED)) as bv32)
  }

  /** `io_uring_opcode_supported` as written: the entry is read through `probe.ops.1`, the
      zero-length array of the generated binding, so every opcode whose low byte is at most
      `last_op` panics, and no opcode is ever reported as supported. */
  function IoUringOpcodeSupported(probe: IoUringProbe, op: i32): (r: Outcome<i32>)
    ensures r.Panicked? <==> U32ToU8(op) <= probe.lastOp
    ensures r.Returned? ==> r.value == 0
  {
    ProbeLookup(probe.lastOp, INCOMPLETE_ARRAY_ELEMENTS, op)
  }

  /** `io_uring_opcode_supported` as liburing has it, reading the entries the kernel wrote after
      the header: 0 above `last_op`; otherwise 1 exactly when the opcode's entry has the
      supported bit, and a panic exactly when the index is outside the entries. */
  function IoUringOpcodeSupportedIntended(probe: IoUringProbe, op: i32): (r: Outcome<i32>)
    ensures U32ToU8(op) > probe.lastOp ==> r == Returned(0)
    ensures r.Returned? ==> r.value == 0 || r.value == 1
    ensures r == Returned(1) <==>
              U32ToU8(op) <= probe.lastOp && I32ToU64(op) as int < |probe.ops| &&
              probe.ops[I32ToU64(op) as int].flags & 1 == 1
    ensures r.Panicked? <==> U32ToU8(op) <= probe.lastOp && I32ToU64(op) as int >= |probe.ops|
  {
    ProbeLookup(probe.lastOp, probe.ops, op)
  }

  /** An opcode the kernel reports as supported makes the binding's `opcode_supported` panic,
      where the intended lookup answers 1. */
  lemma OpcodeSupportedPanicsOnSupportedOpcode(probe: IoUringProbe, op: i32)
    requires U32ToU8(op) <= probe.lastOp && I32ToU64(op) as int < |probe.ops|
    requires probe.ops[I32ToU64(op) as int].flags & 1 == 1
    ensures IoUringOpcodeSupported(probe, op).Panicked?
    ensures IoUringOpcodeSupportedIntended(probe, op) == Returned(1)
  {
  }

  /** The instance: a probe whose `last_op` is 49 and whose first entry has the supported bit. */
  lemma OpcodeZeroPanics()
    ensures var probe := IoUringProbe(49, 1, [IoUringProbeOp(0, 0, 1, 0)]);
            IoUringOpcodeSupported(probe, 0).Panicked? &&
            IoUringOpcodeSupportedIntended(probe, 0) == Returned(1)
  {
    var probe := IoUringProbe(49, 1, [IoUringProbeOp(0, 0, 1, 0)]);
    assert U32ToU8(0) == 0 && I32ToU64(0) == 0;
    OpcodeSupportedPanicsOnSupportedOpcode(probe, 0);
  }

  /** `io_uring_buf_ring_mask`: one below the ring size, and -1 for a ring of size 0. */
  function IoUringBufRingMask(ringEntries: u32): (r: i32)
    ensures ringEntries != 0 ==> r < ringEntries && r + 1 == ringEntries
    ensures ringEntries == 0 ==> Negative(r) && r + 1 == 0
  {
    ringEntries - 1
  }

  /** For a power-of-two ring size the mask is non-negative and every masked index lies below the
      size. */
  lemma BufRingMaskSelectsASlot(ringEntries: u32, x: i32)
    requires ringEntries != 0 && ringEntries & (ringEntries - 1) == 0
    ensures !Negative(IoUringBufRingMask(ringEntries))
    ensures x & IoUringBufRingMask(ringEntries) < ringEntries
  {
  }

  /** `io_uring_buf_ring_init`: the tail restarts at 0; the buffers stay as they are. */
  method IoUringBufRingInit(br: IoUringBufRing)
    modifies br.tail
    ensures br.tail.value == 0
  {
    br.tail.value := 0;
  }

  /** `io_uring_buf_ring_add` as written: the slot is indexed in `bufs.as_mut()`, the zero-length
      array of the generated binding, so the bounds check fails for every tail, offset and mask,
      and the writes of address, length and id that follow it are never reached. */
  method IoUringBufRingAdd(br: IoUringBufRing, addr: Addr, len: u32, bid: u16, mask: i32,
                           bufOffset: i32)
    returns (r: Outcome<()>)
    ensures r.Panicked?
  {
    var index := I32ToU64(BufSlot(br.tail.value, mask, bufOffset));
    r := BoundsCheck(|UNION_FIELD_BUFS|, index);
  }

  /** `io_uring_buf_ring_add` as liburing has it, indexing the slots the kernel reads: writes
      address, length and id into the slot `offset` past the tail, keeps that slot's `resv`,
      every other slot and the tail. */
  method IoUringBufRingAddIntended(br: IoUringBufRing, addr: Addr, len: u32, bid: u16, mask: i32,
                           bufOffset: i32)
    requires !Negative(mask) && Fits(|br.bufs|, mask)
    modifies br
    ensures var slot := Pos(BufSlot(old(br.tail.value), mask, bufOffset));
            slot < |old(br.bufs)| &&
            br.bufs == old(br.bufs)[slot := IoUringBuf(addr, len, bid, old(br.bufs)[slot].resv)]
  {
    var index := BufSlot(br.tail.value, mask, bufOffset);
    BufSlotBound(br.tail.value, mask, bufOffset);
    var slot := Pos(index);
    assert slot < |br.bufs|;
    var buf := br.bufs[slot];
    br.bufs := br.bufs[slot := buf.(addr := addr, len := len, bid := bid)];
  }

  /** `io_uring_buf_ring_advance`: publishes `count` more buffers, the tail wrapping at 2^16. */
  method IoUringBufRingAdvance(br: IoUringBufRing, count: i32)
    modifies br.tail
    ensures br.tail.value == old(br.tail.value) + U32ToU16(count)
  {
    var newTail := br.tail.value + U32ToU16(count);
    br.tail.value := newTail;
  }

  /** `io_uring_buf_ring_cq_advance_internal`: publishes `bufCount` buffers and consumes
      `cqCount` completions. */
  method IoUringBufRingCqAdvanceInternal(cq: IoUringCq, br: IoUringBufRing, cqCount: i32,
                                         bufCount: i32)
    requires cq.khead != cq.ktail && br.tail as object != cq.khead as object
    modifies br.tail, cq.khead
    ensures br.tail.value == old(br.tail.value) + U32ToU16(bufCount)
    ensures cq.khead.value == Wrap(old(cq.khead.value) + Pos(cqCount))
  {
    br.tail.value := br.tail.value + U32ToU16(bufCount);
    IoUringCqAdvance(cq, Pos(cqCount));
  }

  /** `io_uring_buf_ring_cq_advance`: `count` buffers published and `count` completions
      consumed. */
  method IoUringBufRingCqAdvance(cq: IoUringCq, br: IoUringBufRing, count: i32)
    requires cq.khead != cq.ktail && br.tail as object != cq.khead as object
    modifies br.tail, cq.khead
    ensures br.tail.value == old(br.tail.value) + U32ToU16(count)
    ensures cq.khead.value == Wrap(old(cq.khead.value) + Pos(count))
  {
    IoUringBufRingCqAdvanceInternal(cq, br, count, count);
  }
}
