/** The ring structures shared by the safe rewrite's `IoUring` and by the bindgen `io_uring` of both
    bindings: a submission ring and a completion ring, with the words the kernel shares held in
    cells, and the reference definitions of the ring index arithmetic. */
module Ring {
  import opened Abi
  import opened Consts
  import SqeCore
  import CqeCore

  /** A memory word shared with the kernel and reached through a reference or a raw pointer. The
      kernel is the environment: it may assign `value` between any two calls of the library. */
  class Cell<T> {
    var value: T

    constructor (value: T)
      ensures this.value == value
    {
      this.value := value;
    }
  }

  /** `AtomicPtr<T>`: a word holding the address of a `T`. A store replaces the address it holds and
      leaves the word it pointed to as it was. */
  class AtomicPtr<T> {
    var target: Cell<T>

    /** `AtomicPtr::from(p)`. */
    constructor From(p: Cell<T>)
      ensures target == p
    {
      target := p;
    }

    method Store(p: Cell<T>)
      modifies this
      ensures target == p
    {
      target := p;
    }
  }

  /** The submission ring (`IoUringSq` of the safe rewrite, `io_uring_sq` of the bindings). The
      slots are a fixed sequence of records of length `N`; `sqe_head` and `sqe_tail` are the
      library's own counters. */
  class IoUringSq {
    const khead: Cell<Counter>
    const ktail: Cell<Counter>
    const kflags: Cell<u32>
    const kdropped: Cell<Counter>
    const sqes: seq<SqeCore.IoUringSqe>
    var sqeHead: Counter
    var sqeTail: Counter
    const ringMask: u32
    const ringEntries: Counter

    constructor (khead: Cell<Counter>, ktail: Cell<Counter>, kflags: Cell<u32>,
                 kdropped: Cell<Counter>, sqes: seq<SqeCore.IoUringSqe>, sqeTail: Counter,
                 ringMask: u32, ringEntries: Counter)
      ensures this.khead == khead && this.ktail == ktail && this.kflags == kflags
      ensures this.kdropped == kdropped && this.sqes == sqes
      ensures this.sqeHead == sqeTail && this.sqeTail == sqeTail
      ensures this.ringMask == ringMask && this.ringEntries == ringEntries
    {
      this.khead := khead;
      this.ktail := ktail;
      this.kflags := kflags;
      this.kdropped := kdropped;
      this.sqes := sqes;
      this.sqeHead := sqeTail;
      this.sqeTail := sqeTail;
      this.ringMask := ringMask;
      this.ringEntries := ringEntries;
    }
  }

  /** The completion ring (`IoUringCq`, `io_uring_cq`). The kernel writes the slots `cqes` and
      moves `ktail`; the library moves `khead`. */
  class IoUringCq {
    const khead: Cell<Counter>
    const ktail: Cell<Counter>
    const kflags: Cell<u32>
    const koverflow: Cell<Counter>
    var cqes: seq<CqeCore.IoUringCqe>
    const ringMask: u32
    const ringEntries: Counter

    constructor (khead: Cell<Counter>, ktail: Cell<Counter>, kflags: Cell<u32>,
                 koverflow: Cell<Counter>, cqes: seq<CqeCore.IoUringCqe>, ringMask: u32,
                 ringEntries: Counter)
      ensures this.khead == khead && this.ktail == ktail && this.kflags == kflags
      ensures this.koverflow == koverflow && this.cqes == cqes
      ensures this.ringMask == ringMask && this.ringEntries == ringEntries
    {
      this.khead := khead;
      this.ktail := ktail;
      this.kflags := kflags;
      this.koverflow := koverflow;
      this.cqes := cqes;
      this.ringMask := ringMask;
      this.ringEntries := ringEntries;
    }
  }

  /** The ring handle (`IoUring<N>` of the safe rewrite, `io_uring` of the bindings). */
  class IoUring {
    const sq: IoUringSq
    const cq: IoUringCq
    const flags: u32
    const ringFd: i32
    const features: u32

    constructor (sq: IoUringSq, cq: IoUringCq, flags: u32, ringFd: i32, features: u32)
      ensures this.sq == sq && this.cq == cq && this.flags == flags
      ensures this.ringFd == ringFd && this.features == features
    {
      this.sq := sq;
      this.cq := cq;
      this.flags := flags;
      this.ringFd := ringFd;
      this.features := features;
    }

    /** `IoUring::get_sqe` of the safe rewrite: the index of the next free slot, or `None` when
        `ring_entries` entries are already outstanding. Only `sqe_tail` changes. The slot index
        must lie inside `sqes`, or the indexing would panic. */
    method GetSqe() returns (slot: Option<u32>)
      requires SlotsFit(|sq.sqes|, sq.ringMask, SqeShift(flags))
      modifies sq`sqeTail
      ensures HasRoom(old(sq.sqeTail), sq.khead.value, sq.ringEntries) ==>
                slot == Some(Slot(old(sq.sqeTail), sq.ringMask, SqeShift(flags))) &&
                sq.sqeTail == Wrap(old(sq.sqeTail) + 1)
      ensures !HasRoom(old(sq.sqeTail), sq.khead.value, sq.ringEntries) ==>
                slot == None && sq.sqeTail == old(sq.sqeTail)
      ensures slot.Some? ==> Pos(slot.value) < |sq.sqes|
    {
      var next := Wrap(sq.sqeTail + 1);
      var shift := SqeShift(flags);
      // The relaxed load (no SQPOLL) and the acquire load (SQPOLL) read the same word.
      var head := sq.khead.value;
      if Wrap(next as int - head as int) <= sq.ringEntries {
        var tail := sq.sqeTail;
        var index := Slot(tail, sq.ringMask, shift);
        SlotInRange(tail, sq.ringMask, shift, |sq.sqes|);
        var sqe := sq.sqes[Pos(index)];
        sq.sqeTail := next;
        return Some(index);
      }
      return None;
    }
  }

  /** Four one-record slots fit a ring of four entries. */
  lemma FourSlotsFit()
    ensures SlotsFit(4, 3, 0)
  {
    forall i: u32 | i <= 3 << 0
      ensures Pos(i) < 4
    {
      assert i == 0 || i == 1 || i == 2 || i == 3;
    }
  }

  /** The slots of the entries 0 to 4 of a ring of four single-width entries. */
  lemma FourRingSlots()
    ensures Slot(0, 3, 0) == 0 && Slot(1, 3, 0) == 1 && Slot(2, 3, 0) == 2
    ensures Slot(3, 3, 0) == 3 && Slot(4, 3, 0) == 0
  {
  }

  /** A ring of four single-width entries with every counter at 0 and no setup flags. */
  method NewFourEntryRing() returns (ring: IoUring)
    ensures fresh(ring.sq) && fresh(ring.sq.khead)
    ensures ring.flags == 0 && |ring.sq.sqes| == 4 && ring.sq.ringMask == 3
    ensures ring.sq.ringEntries == 4 && ring.sq.sqeTail == 0 && ring.sq.khead.value == 0
  {
    var khead := new Cell<Counter>(0);
    var ktail := new Cell<Counter>(0);
    var kflags := new Cell<u32>(0);
    var kdropped := new Cell<Counter>(0);
    var s0 := new SqeCore.IoUringSqe(Little);
    var s1 := new SqeCore.IoUringSqe(Little);
    var s2 := new SqeCore.IoUringSqe(Little);
    var s3 := new SqeCore.IoUringSqe(Little);
    var sq := new IoUringSq(khead, ktail, kflags, kdropped, [s0, s1, s2, s3], 0, 3, 4);
    var cqhead := new Cell<Counter>(0);
    var cqtail := new Cell<Counter>(0);
    var cqflags := new Cell<u32>(0);
    var overflow := new Cell<Counter>(0);
    var cq := new IoUringCq(cqhead, cqtail, cqflags, overflow, [], 3, 4);
    ring := new IoUring(sq, cq, 0, 3, 0);
  }

  /** A ring of four entries with both counters at 0: four requests get slots 0 to 3, the fifth
      finds the ring full, and once the kernel has consumed the four the next request gets slot 0
      again. */
  method GetSqeScenario() returns (slots: seq<Option<u32>>)
    ensures slots == [Some(0), Some(1), Some(2), Some(3), None, Some(0)]
  {
    var ring := NewFourEntryRing();
    FourSlotsFit();
    FourRingSlots();
    assert SqeShift(0) == 0;
    var a := ring.GetSqe();
    var b := ring.GetSqe();
    var c := ring.GetSqe();
    var d := ring.GetSqe();
    assert d == Some(3) && ring.sq.sqeTail == 4;
    var full := ring.GetSqe();
    ring.sq.khead.value := 4;
    var again := ring.GetSqe();
    slots := [a, b, c, d, full, again];
  }

  /** The `shift` applied to a slot index: 0, or 1 for double-width entries. */
  type Shift = s: u32 | s <= 1

  /** `shift` for the submission slots: 1 exactly when the ring was set up with 128-byte entries. */
  function SqeShift(flags: u32): Shift
  {
    if flags & IORING_SETUP_SQE128 > 0 then 1 else 0
  }

  /** `shift` for the completion slots: 1 exactly when the ring was set up with 32-byte entries. */
  function CqeShift(flags: u32): Shift
  {
    if flags & IORING_SETUP_CQE32 > 0 then 1 else 0
  }

  /** The slot of the entry numbered `counter`: masked into the ring, doubled for double-width
      entries. */
  function Slot(counter: Counter, mask: u32, shift: Shift): u32
  {
    ((counter as bv32) & mask) << shift
  }

  /** Entries between a head and a tail counter. */
  function Ready(tail: Counter, head: Counter): Counter
  {
    Wrap(tail - head)
  }

  /** Free submission slots. */
  function SpaceLeft(entries: Counter, tail: Counter, head: Counter): Counter
  {
    Wrap(entries - Ready(tail, head))
  }

  /** The test of `get_sqe`: one more entry keeps at most `entries` outstanding. */
  predicate HasRoom(tail: Counter, head: Counter, entries: Counter)
  {
    Wrap(Wrap(tail + 1) - head) <= entries
  }

  /** Every slot index the mask and shift can produce lies below `n`. */
  ghost predicate SlotsFit(n: nat, mask: u32, shift: Shift)
  {
    mask < 0x8000_0000 && Fits(n, mask << shift)
  }

  /** A slot index never exceeds the mask shifted the same way. */
  lemma SlotBound(x: u32, mask: u32, shift: Shift)
    requires mask < 0x8000_0000
    ensures (x & mask) << shift <= mask << shift
  {
    MaskBound(x, mask);
  }

  /** Under `SlotsFit`, every slot index is a position in the slot sequence. */
  lemma SlotInRange(counter: Counter, mask: u32, shift: Shift, n: nat)
    requires SlotsFit(n, mask, shift)
    ensures Pos(Slot(counter, mask, shift)) < n
  {
    SlotBound(counter as bv32, mask, shift);
  }

  /** With at most `entries` entries outstanding, `get_sqe` finds room exactly when `space_left` is
      positive; a success then keeps at most `entries` outstanding and leaves one free slot
      fewer. */
  lemma RoomIffSpaceLeft(tail: Counter, head: Counter, entries: Counter)
    requires IsPowerOfTwo(entries) && Ready(tail, head) <= entries
    ensures HasRoom(tail, head, entries) <==> SpaceLeft(entries, tail, head) > 0
    ensures HasRoom(tail, head, entries) ==>
              Ready(Wrap(tail + 1), head) == Ready(tail, head) + 1 <= entries &&
              SpaceLeft(entries, Wrap(tail + 1), head) == SpaceLeft(entries, tail, head) - 1
  {
    PowerOfTwoBounds(entries);
    RoomCounting(tail, head, entries);
  }

  /** A power of two is positive and at most 2^31. */
  lemma PowerOfTwoBounds(n: int)
    requires IsPowerOfTwo(n)
    ensures 0 < n <= 0x8000_0000
  {
  }

  /** `RoomIffSpaceLeft` for any ring size from 1 to 2^31. */
  lemma RoomCounting(tail: Counter, head: Counter, entries: Counter)
    requires 0 < entries <= 0x8000_0000 && Ready(tail, head) <= entries
    ensures HasRoom(tail, head, entries) <==> SpaceLeft(entries, tail, head) > 0
    ensures HasRoom(tail, head, entries) ==>
              Ready(Wrap(tail + 1), head) == Ready(tail, head) + 1 <= entries &&
              SpaceLeft(entries, Wrap(tail + 1), head) == SpaceLeft(entries, tail, head) - 1
  {
  }

  /** Moving the head on by `n` of the ready entries leaves exactly `n` fewer ready. */
  lemma AdvanceConsumes(tail: Counter, head: Counter, n: Counter)
    requires n <= Ready(tail, head)
    ensures Ready(tail, Wrap(head + n)) == Ready(tail, head) - n
  {
  }

  /** What one call of `peek_cqe_internal` ends with: the slot written to `*cqe_ptr` (`None` for
      null), the returned error and the count written to `*nr_available`; or `Spinning` when the
      loop had not left after the observations given. */
  datatype PeekOutcome = Peeked(cqe: Option<u32>, err: i32, available: Counter) | Spinning

  /** The completion the loop skips: the timeout sentinel of kernels without
      `IORING_FEAT_EXT_ARG`. */
  predicate IsSentinel(c: CqeCore.IoUringCqe, features: u32)
  {
    features & IORING_FEAT_EXT_ARG == 0 && c.userData == LIBURING_UDATA_TIMEOUT
  }

  /** The peek loop when the acquire loads of `ktail` observe `tails` in turn. The head, the slot
      at the head and the completion in it stay fixed: nothing in the loop consumes an entry. */
  function PeekLoop(tails: seq<Counter>, head: Counter, slot: u32, c: CqeCore.IoUringCqe,
                    features: u32): PeekOutcome
    decreases |tails|
  {
    if |tails| == 0 then Spinning
    else if Ready(tails[0], head) == 0 then Peeked(None, 0, 0)
    else if !IsSentinel(c, features) then Peeked(Some(slot), 0, Ready(tails[0], head))
    else if Negative(c.res) then Peeked(None, c.res, Ready(tails[0], head))
    else PeekLoop(tails[1..], head, slot, c, features)
  }

  /** The slot at the completion head of `ring`. */
  function HeadSlot(ring: IoUring): u32
    reads ring.cq.khead
  {
    Slot(ring.cq.khead.value, ring.cq.ringMask, CqeShift(ring.flags))
  }

  /** The completion in the slot at the head. */
  function HeadEntry(ring: IoUring): CqeCore.IoUringCqe
    requires SlotsFit(|ring.cq.cqes|, ring.cq.ringMask, CqeShift(ring.flags))
    reads ring.cq, ring.cq.khead
  {
    SlotInRange(ring.cq.khead.value, ring.cq.ringMask, CqeShift(ring.flags), |ring.cq.cqes|);
    ring.cq.cqes[Pos(HeadSlot(ring))]
  }

  /** The peek loop over the completion ring of `ring` as it stands. */
  function PeekRing(ring: IoUring, tails: seq<Counter>): PeekOutcome
    requires SlotsFit(|ring.cq.cqes|, ring.cq.ringMask, CqeShift(ring.flags))
    reads ring.cq, ring.cq.khead
  {
    PeekLoop(tails, ring.cq.khead.value, HeadSlot(ring), HeadEntry(ring), ring.features)
  }

  /** A result of the loop reports an entry only when it is the head slot, the ring is not empty
      and the entry is no sentinel; a non-zero error only as the negative result of a sentinel,
      with no entry; and an empty ring only with no entry and no error. */
  lemma {:induction false} PeekReportsOnlyTheHead(tails: seq<Counter>, head: Counter, slot: u32,
                                                    c: CqeCore.IoUringCqe, features: u32)
    ensures var r := PeekLoop(tails, head, slot, c, features);
            r.Peeked? ==>
              (r.cqe.Some? ==> r.cqe.value == slot && !IsSentinel(c, features) &&
                               r.err == 0 && r.available != 0) &&
              (r.err != 0 ==> r.cqe.None? && IsSentinel(c, features) && Negative(c.res) &&
                              r.err == c.res) &&
              (r.available == 0 ==> r.cqe.None? && r.err == 0)
    decreases |tails|
  {
    if |tails| > 0 && Ready(tails[0], head) != 0 && IsSentinel(c, features) && !Negative(c.res) {
      PeekReportsOnlyTheHead(tails[1..], head, slot, c, features);
    }
  }

  /** A sentinel with a non-negative result stays at the head: the loop ends, with an empty ring,
      exactly when some later observation of `ktail` equals the head, and spins otherwise. */
  lemma {:induction false} SentinelWaitsForEmptyRing(tails: seq<Counter>, head: Counter, slot: u32,
                                                      c: CqeCore.IoUringCqe, features: u32)
    requires IsSentinel(c, features) && !Negative(c.res)
    ensures PeekLoop(tails, head, slot, c, features) ==
              if exists k :: 0 <= k < |tails| && tails[k] == head then Peeked(None, 0, 0)
              else Spinning
    decreases |tails|
  {
    if |tails| > 0 && tails[0] != head {
      SentinelWaitsForEmptyRing(tails[1..], head, slot, c, features);
      if exists k :: 0 <= k < |tails| && tails[k] == head {
        var k :| 0 <= k < |tails| && tails[k] == head;
        assert tails[1..][k - 1] == head;
      }
      if exists k :: 0 <= k < |tails[1..]| && tails[1..][k] == head {
        var k :| 0 <= k < |tails[1..]| && tails[1..][k] == head;
        assert tails[k + 1] == head;
      }
    }
  }

  /** How `peek_cqe` and `wait_cqe` end: returning 0 with the entry the peek left; delegating to
      `__io_uring_get_cqe(ring, cqe_ptr, submit, wait_nr, null)`, whose result is the call's; not
      returning because the peek loop spins; or storing the peeked entry through a null
      `cqe_ptr`, which is undefined behaviour. */
  datatype PeekCall =
    | Immediate(cqe: Option<u32>)
    | Delegated(submit: u32, waitNr: u32)
    | Hangs
    | WritesThroughNull

  /** `io_uring_wait_cqe_nr`: a call of the library's `__io_uring_get_cqe` with nothing to
      submit. */
  function WaitCqeNr(waitNr: u32): PeekCall
  {
    Delegated(0, waitNr)
  }

  /** The tail of `peek_cqe` and `wait_cqe` as written. A peek that leaves its loop has already
      stored its entry into `*cqe_ptr`, so a null out-pointer never reaches the test after it;
      for a non-null one the test on `cqe_ptr` always holds, and a zero result returns at once,
      whatever entry the peek left in `*cqe_ptr`. */
  function AfterPeek(r: PeekOutcome, cqePtrIsNull: bool, waitNr: u32): PeekCall
  {
    match r
    case Spinning => Hangs
    case Peeked(cqe, err, _) =>
      if cqePtrIsNull then WritesThroughNull
      else if err == 0 then Immediate(cqe)
      else WaitCqeNr(waitNr)
  }

  /** The tail of `peek_cqe` and `wait_cqe` as liburing has it, for a non-null out-pointer: the
      call returns at once only when the peek found an entry. */
  function AfterPeekIntended(r: PeekOutcome, waitNr: u32): PeekCall
  {
    match r
    case Spinning => Hangs
    case Peeked(cqe, err, _) => if err == 0 && cqe.Some? then Immediate(cqe) else WaitCqeNr(waitNr)
  }

  /** As written, `wait_cqe` on an empty ring returns 0 without an entry and never waits, because
      the test is on the out-pointer and not on the entry it received. */
  lemma WaitCqeOnEmptyRingReturnsNoEntry(tails: seq<Counter>, head: Counter, slot: u32,
                                         c: CqeCore.IoUringCqe, features: u32)
    requires |tails| > 0 && tails[0] == head
    ensures AfterPeek(PeekLoop(tails, head, slot, c, features), false, 1) == Immediate(None)
  {
  }

  /** With the test on the entry, an immediate return always carries the head entry, and an empty
      ring is handed to the waiting call with the requested count. */
  lemma IntendedWaitReturnsAnEntry(tails: seq<Counter>, head: Counter, slot: u32,
                                   c: CqeCore.IoUringCqe, features: u32, waitNr: u32)
    ensures var call := AfterPeekIntended(PeekLoop(tails, head, slot, c, features), waitNr);
            (call.Immediate? ==> call.cqe == Some(slot) && !IsSentinel(c, features)) &&
            (|tails| > 0 && tails[0] == head ==> call == Delegated(0, waitNr))
  {
    var r := PeekLoop(tails, head, slot, c, features);
    assert r.Peeked? && r.cqe.Some? ==> r.cqe.value == slot && !IsSentinel(c, features) by {
      PeekReportsOnlyTheHead(tails, head, slot, c, features);
    }
    assert |tails| > 0 && tails[0] == head ==> r == Peeked(None, 0, 0);
  }

  /** With at most `entries` outstanding, the ready entries and the free slots add up to the ring
      size. */
  lemma ReadyAndSpaceLeftFillTheRing(tail: Counter, head: Counter, entries: Counter)
    requires Ready(tail, head) <= entries
    ensures Ready(tail, head) + SpaceLeft(entries, tail, head) == entries
  {
  }

  /** One entry of the probe the kernel fills in (`io_uring_probe_op`). */
  datatype IoUringProbeOp = IoUringProbeOp(op: u8, resv: u8, flags: u16, resv2: u32)

  /** `io_uring_probe`: the highest opcode the kernel knows and the per-opcode entries. The
      entries are the trailing array of the record, of whatever length it was allocated with. */
  datatype IoUringProbe = IoUringProbe(lastOp: u8, opsLen: u8, ops: seq<IoUringProbeOp>)

  /** What the field `.1` of `io_uring_probe.ops` holds. The C flexible array `ops[]` becomes
      bindgen's `__IncompleteArrayField<io_uring_probe_op>`, a pair of a `PhantomData` and a
      `[io_uring_probe_op; 0]`; the entries the kernel writes after the header are reachable only
      through its `as_ptr` or `as_slice`, never through `.1`, which has no element. */
  const INCOMPLETE_ARRAY_ELEMENTS: seq<IoUringProbeOp> := []

  /** One provided buffer (`io_uring_buf`). */
  datatype IoUringBuf = IoUringBuf(addr: u64, len: u32, bid: u16, resv: u16)

  /** A provided-buffer ring (`io_uring_buf_ring`): the buffer slots and the tail the library
      publishes to the kernel, a 16-bit word the kernel reads. */
  class IoUringBufRing {
    const tail: Cell<u16>
    var bufs: seq<IoUringBuf>

    constructor (tail: Cell<u16>, bufs: seq<IoUringBuf>)
      ensures this.tail == tail && this.bufs == bufs
    {
      this.tail := tail;
      this.bufs := bufs;
    }
  }

  /** What `bufs.as_mut()` gives. The header's `struct io_uring_buf bufs[0]` shares a union with
      the ring header; bindgen turns that member into `__BindgenUnionField<[io_uring_buf; 0]>`,
      whose `as_mut` is a reference to a zero-length array. The slots the kernel reads lie past
      it and no index of it reaches them. */
  const UNION_FIELD_BUFS: seq<IoUringBuf> := []

  /** Rust's bounds check of a `usize` index into an array of `len` elements. */
  function BoundsCheck(len: nat, index: u64): Outcome<()>
  {
    if len < 0x1_0000_0000_0000_0000 && index < len as u64 then Returned(())
    else Panicked("index out of bounds")
  }

  /** The slot `buf_ring_add` writes: the tail widened to `i32`, moved on by `offset`, masked. */
  function BufSlot(tail: u16, mask: i32, offset: i32): i32
  {
    ((tail as bv32) + offset) & mask
  }

  /** A non-negative mask keeps the slot non-negative and no larger than the mask. */
  lemma BufSlotBound(tail: u16, mask: i32, offset: i32)
    requires !Negative(mask)
    ensures !Negative(BufSlot(tail, mask, offset)) && BufSlot(tail, mask, offset) <= mask
  {
    MaskBound((tail as bv32) + offset, mask);
  }
}
