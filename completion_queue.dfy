/** `CompletionQueue` of the safe crate: an iterator over the completion ring that remembers the
    head it started from and a count of entries taken. As written, `next` moves neither, and
    `drop` stores the new head into a fresh `AtomicPtr`, so the ring's `khead` is never
    written. */
module CompletionQueues {
  import opened Abi
  import opened Ring

  class CompletionQueue {
    const inner: IoUringCq
    var count: usize
    var head: Counter

    /** `CompletionQueue::new`: starts at the current `khead` with nothing taken. */
    constructor New(cq: IoUringCq)
      ensures inner == cq && count == 0 && head == cq.khead.value
    {
      inner := cq;
      count := 0;
      head := cq.khead.value;
    }

    /** `next`: `None` exactly when the remembered head equals the current `ktail`; otherwise
        the slot `(head & ring_mask) << 1` — always doubled, whatever the entry size — whose
        completion is wrapped. Neither `head` nor `count` changes. On a ring of 16-byte
        completions the doubled slot is not the head's (`DoubledIndexMisreads`) and can lie past
        the ring (`DoubledIndexPastTheRing`). */
    method Next() returns (entry: Option<u32>)
      ensures entry.None? <==> head == inner.ktail.value
      ensures entry.Some? ==> entry.value == Slot(head, inner.ringMask, 1)
    {
      var tail := inner.ktail.value;
      if head == tail {
        return None;
      }
      return Some(Slot(head, inner.ringMask, 1));
    }

    /** `next` with the slot shifted as the ring's setup `flags` say, as the peek loop reads it:
        the same `None` test, and otherwise the slot of the remembered head, which lies inside
        `cqes` whenever the slots cover the ring. */
    method NextIntended(flags: u32) returns (entry: Option<u32>)
      ensures entry.None? <==> head == inner.ktail.value
      ensures entry.Some? ==> entry.value == Slot(head, inner.ringMask, CqeShift(flags))
      ensures entry.Some? && SlotsFit(|inner.cqes|, inner.ringMask, CqeShift(flags)) ==>
                Pos(entry.value) < |inner.cqes|
    {
      var tail := inner.ktail.value;
      if head == tail {
        return None;
      }
      var index := Slot(head, inner.ringMask, CqeShift(flags));
      if SlotsFit(|inner.cqes|, inner.ringMask, CqeShift(flags)) {
        SlotInRange(head, inner.ringMask, CqeShift(flags), |inner.cqes|);
      }
      return Some(index);
    }

    /** `drop`: with entries counted, `*khead + count as u32` goes into a local whose address is
        stored into a fresh `AtomicPtr`; `khead` keeps its value either way. */
    method Drop()
      ensures unchanged(inner.khead)
    {
      if count != 0 {
        var khead := new AtomicPtr<Counter>.From(inner.khead);
        var value := new Cell<Counter>(Wrap(inner.khead.value + Pos(U64ToU32(count))));
        khead.Store(value);
      }
    }
  }

  /** Two calls of `next` with no kernel step between them return the same thing: the iterator
      never moves past an entry. */
  method NextTwice(q: CompletionQueue) returns (first: Option<u32>, second: Option<u32>)
    ensures first == second
    ensures first.Some? ==> first.value == Slot(q.head, q.inner.ringMask, 1)
  {
    first := q.Next();
    second := q.Next();
  }

  /** An iterator made over a ring with one completion posted returns the same doubled head slot
      on every call: it never moves on to `None`. */
  method OneCompletionForever(cq: IoUringCq) returns (a: Option<u32>, b: Option<u32>)
    requires cq.ktail.value == Wrap(cq.khead.value + 1)
    ensures a == b == Some(Slot(cq.khead.value, cq.ringMask, 1))
  {
    var q := new CompletionQueue.New(cq);
    a := q.Next();
    b := q.Next();
  }

  /** An iterator made over the completion ring of `ring`: the intended `next` yields the head
      slot the peek loop reads, and on a non-empty ring of 16-byte completions whose head is not at
      slot 0 the `next` as written yields another slot. */
  method NextAgainstPeek(ring: IoUring) returns (asWritten: Option<u32>, intended: Option<u32>)
    ensures intended == if ring.cq.ktail.value == ring.cq.khead.value then None
                        else Some(HeadSlot(ring))
    ensures (CqeShift(ring.flags) == 0 && HeadSlot(ring) != 0 &&
             ring.cq.ktail.value != ring.cq.khead.value) ==> asWritten != intended
  {
    var q := new CompletionQueue.New(ring.cq);
    assert q.inner == ring.cq && q.head == ring.cq.khead.value;
    asWritten := q.Next();
    intended := q.NextIntended(ring.flags);
    if CqeShift(ring.flags) == 0 && Slot(q.head, q.inner.ringMask, 0) != 0 &&
       q.head != q.inner.ktail.value {
      var shift := CqeShift(ring.flags);
      assert intended == Some(Slot(q.head, q.inner.ringMask, shift));
      assert shift == 0;
      DoubledIndexMisreads(q.head, q.inner.ringMask);
      assert asWritten.value != intended.value;
    }
  }

  /** On a ring of 16-byte completions (no `IORING_SETUP_CQE32`, shift 0), the doubled slot of
      `next` differs from the head's own slot whenever the head is not at slot 0. */
  lemma DoubledIndexMisreads(head: Counter, mask: u32)
    requires Slot(head, mask, 0) != 0
    ensures Slot(head, mask, 1) != Slot(head, mask, 0)
  {
  }

  /** On a ring of 16-byte completions, which maps `mask + 1` of them, the doubled slot lies past
      the ring once the masked head reaches the second half, `2 * (head & mask) >= mask + 1`. */
  lemma DoubledIndexPastTheRing(head: Counter, mask: u32)
    requires mask < 0x8000_0000
    requires (head as bv32) & mask > mask >> 1
    ensures Slot(head, mask, 1) > mask
    ensures Pos(Slot(head, mask, 1)) >= Pos(mask) + 1
  {
  }

  /** A four-entry ring of 16-byte completions: head 1 reads slot 2 and head 2 reads slot 4, past
      the four mapped entries, where the peek loop reads slots 1 and 2. */
  lemma FourEntryRingMisreads()
    ensures Slot(1, 3, 1) == 2 && Slot(1, 3, 0) == 1
    ensures Slot(2, 3, 1) == 4 && Slot(2, 3, 0) == 2
    ensures !SlotsFit(4, 3, 1) && SlotsFit(4, 3, 0)
  {
    assert (4 as u32) <= 3 << 1 && Pos(4) >= 4;
    FourSlotsFit();
  }
}
