/** `IoUring` of the idiomatic wrapper crate: the bindgen ring and two counters, the entries
    handed out but not yet submitted and the entries the kernel accepted. The system calls
    (`io_uring_queue_init`, `io_uring_enter`) enter as their returned integers. */
module Liburing {
  import opened Abi
  import opened Ring
  import LiburingSysRing

  /** `io::Error`: built from a raw OS error code, or from the thread's last OS error. */
  datatype IoError = RawOsError(code: i32) | LastOsError

  /** `SQFullError`: the submission ring had no free entry. */
  datatype SqFullError = SqFullError

  class IoUring {
    const inner: Ring.IoUring
    var unsubmitted: Counter
    var inFlight: Counter

    constructor FromRing(inner: Ring.IoUring)
      ensures this.inner == inner && unsubmitted == 0 && inFlight == 0
    {
      this.inner := inner;
      unsubmitted := 0;
      inFlight := 0;
    }

    /** `IoUring::new`: `initResult` is what `io_uring_queue_init` returned after setting up
        `ring`. A negative result becomes the OS error of its negation; otherwise both counters
        start at 0. */
    static method New(entries: u32, ring: Ring.IoUring, initResult: i32)
      returns (r: Result<IoUring, IoError>)
      ensures Negative(initResult) <==> r.Err?
      ensures r.Err? ==> r.error == RawOsError(0 - initResult)
      ensures r.Ok? ==> fresh(r.value) && r.value.inner == ring &&
                        r.value.unsubmitted == 0 && r.value.inFlight == 0
    {
      if Negative(initResult) {
        return Err(RawOsError(0 - initResult));
      }
      var u := new IoUring.FromRing(ring);
      return Ok(u);
    }

    /** `IoUring::get_sqe`: the entry `io_uring_get_sqe` hands out (its slot), counted as
        unsubmitted; `SQFullError` with the counters untouched when the ring is full. */
    method GetSqe() returns (r: Result<u32, SqFullError>)
      requires SlotsFit(|inner.sq.sqes|, inner.sq.ringMask, SqeShift(inner.flags))
      modifies this, inner.sq`sqeTail
      ensures HasRoom(old(inner.sq.sqeTail), inner.sq.khead.value, inner.sq.ringEntries) ==>
                r == Ok(Slot(old(inner.sq.sqeTail), inner.sq.ringMask, SqeShift(inner.flags))) &&
                unsubmitted == Wrap(old(unsubmitted) + 1) &&
                inner.sq.sqeTail == Wrap(old(inner.sq.sqeTail) + 1)
      ensures !HasRoom(old(inner.sq.sqeTail), inner.sq.khead.value, inner.sq.ringEntries) ==>
                r == Err(SqFullError) && unsubmitted == old(unsubmitted) &&
                inner.sq.sqeTail == old(inner.sq.sqeTail)
      ensures inFlight == old(inFlight)
    {
      var entry := LiburingSysRing.IoUringGetSqe(inner);
      if entry.None? {
        return Err(SqFullError);
      }
      unsubmitted := Wrap(unsubmitted + 1);
      return Ok(entry.value);
    }

    /** `IoUring::enter_and_wait`: one `io_uring_enter(ring_fd as u32, unsubmitted, wait_for, 0,
        null)`, whose result is `enter` of those arguments. A negative result is the last OS error
        and changes nothing; otherwise the accepted entries move from unsubmitted to in flight. */
    method EnterAndWait(waitFor: Counter, enter: (u32, Counter, Counter, u32) -> i32)
      returns (r: Result<Counter, IoError>)
      modifies this
      ensures var accepted := enter(inner.ringFd, old(unsubmitted), waitFor, 0);
              (Negative(accepted) ==> r == Err(LastOsError) && unchanged(this)) &&
              (!Negative(accepted) ==>
                 r == Ok(Pos(accepted)) &&
                 unsubmitted == Wrap(old(unsubmitted) - Pos(accepted)) &&
                 inFlight == Wrap(old(inFlight) + Pos(accepted)))
    {
      var accepted := enter(inner.ringFd, unsubmitted, waitFor, 0);
      if Negative(accepted) {
        return Err(LastOsError);
      }
      var count := Pos(accepted);
      unsubmitted := Wrap(unsubmitted - count);
      inFlight := Wrap(inFlight + count);
      return Ok(count);
    }

    /** `IoUring::enter`: `enter_and_wait(0)`. */
    method Enter(enter: (u32, Counter, Counter, u32) -> i32) returns (r: Result<Counter, IoError>)
      modifies this
      ensures var accepted := enter(inner.ringFd, old(unsubmitted), 0, 0);
              (Negative(accepted) ==> r == Err(LastOsError) && unchanged(this)) &&
              (!Negative(accepted) ==>
                 r == Ok(Pos(accepted)) &&
                 unsubmitted == Wrap(old(unsubmitted) - Pos(accepted)) &&
                 inFlight == Wrap(old(inFlight) + Pos(accepted)))
    {
      r := EnterAndWait(0, enter);
    }
  }

  /** When the kernel accepts no more entries than were unsubmitted and the two counts did not
      overflow together, a successful enter only moves entries from one count to the other:
      the new counts are the exact differences and their sum is unchanged. */
  lemma EnterKeepsTheTotal(unsubmitted: Counter, inFlight: Counter, accepted: Counter)
    requires accepted <= unsubmitted && unsubmitted + inFlight < 0x1_0000_0000
    ensures Wrap(unsubmitted - accepted) == unsubmitted - accepted
    ensures Wrap(inFlight + accepted) == inFlight + accepted
    ensures Wrap(unsubmitted - accepted) + Wrap(inFlight + accepted) == unsubmitted + inFlight
  {
  }

  /** Whatever is accepted, the total modulo 2^32 is the same after a successful enter. */
  lemma EnterKeepsTheTotalModulo(unsubmitted: Counter, inFlight: Counter, accepted: Counter)
    ensures Wrap(Wrap(unsubmitted - accepted) + Wrap(inFlight + accepted)) ==
            Wrap(unsubmitted + inFlight)
  {
  }
}
