# rask io_uring core, modelled in Dafny

rask talks to the Linux kernel's io_uring interface through three layers. Each layer contains the
same user-space half of the ring protocol:

- the safe rewrite under `rask-liburing/src/core`;
- the binding that takes references (`rask-liburing-sys`);
- the binding that takes raw pointers (`liburing-sys`).

On top of these sit two small wrappers: `liburing` (the `IoUring` handle with its counters and
`CompletionEntry`) and `rask-liburing` (`SubmissionEntry` and `CompletionQueue`).

This project models that half of the protocol:

- **Submission records.** Each `prep_*` encoder overwrites some fields of the 64-byte submission
  record (SQE) and leaves the rest as the previous request left them.
- **Ring indices.** The submission and completion rings are indexed with modular counters, a
  mask, and a shift for double-width entries.
- **The completion peek loop,** including its timeout sentinel.
- **The provided-buffer ring.**
- **Completion flags:** how the flag word of a completion is decoded.
- **The handle's bookkeeping:** the counts of unsubmitted and in-flight entries.
- **The `CompletionQueue` iterator.**

Integer widths are bit-vectors:

- `u8` to `u64` are `bv8` to `bv64`.
- `i32` and `i64` are two's-complement `bv32` and `bv64`.
- Every `as` cast is an explicit function, in `Abi`.

The ring counters are integers modulo 2^32 (`Counter`, `Wrap`).

## Modules

| module | file | models |
|---|---|---|
| `Abi` | `abi.dfy` | integer widths, casts, byte order, `Option`/`Result`, panics (`Outcome`), modular counters |
| `Consts` | `consts.dfy` | the opcode, flag and offset constants of `rask-liburing/src/core/mod.rs` |
| `SqeSpec` | `sqe_spec.dfy` | the SQE as a value, and one reference function per encoder mapping the old record to the new one |
| `SqeProps` | `sqe_props.dfy` | what the reference encoders write and keep, and how composite encoders relate to their bases |
| `SqeCore` | `sqe.dfy` | the safe `IoUringSqe` class; each `prep_*` method is proved to compute its reference function |
| `RaskSysPrep` | `rask_sys_prep.dfy` | the reference-taking `io_uring_prep_*` functions, proved against the same reference functions |
| `LiburingSysPrep` | `liburing_sys_prep.dfy` | the pointer-taking `io_uring_prep_*` functions, proved against the same reference functions |
| `CqeCore` | `cqe.dfy` | the completion record, `CqeFlags` and `get_buffer_id` |
| `CompletionEntry` | `completion_entry.dfy` | `liburing`'s `CompletionEntry` and its `from_bits().expect` flags |
| `Ring` | `ring.dfy` | shared words, the ring classes, the safe rewrite's `get_sqe`, the ring arithmetic and the peek-loop specification |
| `RaskSysRing` | `rask_sys_ring.dfy` | ring helpers of the reference-taking binding |
| `LiburingSysRing` | `liburing_sys_ring.dfy` | ring helpers of the pointer-taking binding |
| `Liburing` | `liburing.dfy` | `liburing`'s `IoUring` handle |
| `Submission` | `submission_entry.dfy` | `SubmissionEntry` and its chaining wrappers |
| `CompletionQueues` | `completion_queue.dfy` | the `CompletionQueue` iterator |

### How the kernel and the source's quirks are modelled

- **The kernel.** The kernel's side of the protocol is the caller. Between calls it may assign
  any value to the shared words (`khead`, `ktail`, `kflags`, the buffer tail), which are `Cell`
  objects.
- **The peek loop.** When the loop re-reads `ktail`, it is given the sequence of values its loads
  observe. If the loop never leaves on that sequence, the result is `Spinning`.
- **No-op stores.** Some stores go through a fresh `AtomicPtr` whose target is replaced and never
  written:
  - `io_uring_smp_store_release` of the pointer-taking binding;
  - `CompletionQueue::drop`.

  They are modelled that way, so every advance made through them leaves the shared word as it was.
- **The sentinel skip.** The reference-taking binding has the sentinel advance commented out, so
  on a non-negative sentinel the loop re-reads the same head. Both peek loops are proved to
  compute the same `PeekRing` specification.
- **`CompletionQueue::next`** never moves its head or count, and always doubles the masked index.
  The model reproduces both for every ring. Only on a ring of 32-byte completions does the doubled
  index agree with the peek loop. On a default ring of 16-byte completions it names another
  completion, or a slot past the ring (see Findings).

## Model

| member | source | states |
|---|---|---|
| Abi.I32ToU64SignExtends | src/rask-liburing/src/core/sqe.rs:952-954 | `x as u64` for an `i32` keeps the low 32 bits and fills the high 32 bits with the sign bit |
| Abi.U32ToU16Low | src/rask-liburing/src/core/sqe.rs:373-376 | `as u16` keeps only the low 16 bits: two words agreeing there give the same stored buffer index |
| Abi.ToLe32StoresLittleEndian | src/rask-liburing/src/core/sqe.rs:525-528 | whatever the host's byte order, the word `to_le` yields lies in memory as the little-endian bytes of the mask |
| Abi.WriteFirstHalfBytes | src/rask-liburing/src/core/sqe.rs:1067-1070 | writing `addr_len` changes exactly the first two bytes of `union5`, in the host's order, and keeps the last two |
| CompletionEntry.KnownIsLowNibble | src/liburing/src/completion_entry.rs:9-21 | the four defined flags together are exactly the bits `0xF` |
| CompletionEntry.FlagsReturnsRawBitsOrPanics | src/liburing/src/completion_entry.rs:40-42 | `flags()` returns the raw word if and only if no bit above bit 3 is set, and panics with the `expect` message otherwise |
| CompletionEntry.BufferIdPanics | src/liburing/src/completion_entry.rs:40-42 | a completion carrying a provided-buffer id panics in `flags()`, although the safe rewrite reads an id from the same word |
| CompletionEntry.New | src/liburing/src/completion_entry.rs:30-32 | the entry views exactly the given completion |
| CompletionEntry.GetUserData | src/liburing/src/completion_entry.rs:35-37 | through the binding's `io_uring_cqe_get_data64`, the `user_data` of the viewed completion |
| CompletionEntry.Flags | src/liburing/src/completion_entry.rs:40-42 | the raw flag word exactly when it holds only defined flags, otherwise the `expect` panic with the message "Supported flags are defined" |
| CompletionEntry.Result | src/liburing/src/completion_entry.rs:46-48 | the `res` of the viewed completion |
| CompletionQueues.CompletionQueue.New | src/rask-liburing/src/completion_queue.rs:18-25 | the iterator starts at the current `khead` with `count` 0 |
| CompletionQueues.CompletionQueue.Next | src/rask-liburing/src/completion_queue.rs:31-50 | for every ring, `None` exactly when the remembered head equals the current `ktail`; otherwise the slot `(head & mask) << 1`, doubled whatever the entry size; nothing changes |
| CompletionQueues.CompletionQueue.NextIntended | src/rask-liburing/src/completion_queue.rs:31-50 | the corrected `next`: the same `None` test, otherwise the slot `(head & mask) << CqeShift(flags)` as the peek loop reads it, inside `cqes` whenever the slots cover the ring |
| CompletionQueues.CompletionQueue.Drop | src/rask-liburing/src/completion_queue.rs:54-60 | `khead` keeps its value, with or without entries counted |
| CompletionQueues.NextTwice | src/rask-liburing/src/completion_queue.rs:31-50 | for every ring, two calls of `next` return the same thing, the doubled slot `(head & mask) << 1` when not `None` |
| CompletionQueues.OneCompletionForever | src/rask-liburing/src/completion_queue.rs:18-50 | for every ring with one completion posted, every call returns the same doubled slot `(khead & mask) << 1`, never `None` and never the next entry |
| CompletionQueues.NextAgainstPeek | src/rask-liburing/src/completion_queue.rs:31-40 | the corrected `next` yields `HeadSlot`, the slot the peek loop reads, or `None` on an empty ring; on a non-empty ring of 16-byte completions with the head not at slot 0, `next` as written yields another slot |
| CompletionQueues.DoubledIndexMisreads | src/rask-liburing/src/completion_queue.rs:36 | with 16-byte completions, the doubled slot differs from the head's slot whenever the head is not at slot 0 |
| CompletionQueues.DoubledIndexPastTheRing | src/rask-liburing/src/completion_queue.rs:36-38 | with 16-byte completions (`mask + 1` mapped), the doubled slot is past the ring once `2 * (head & mask) >= mask + 1` |
| CompletionQueues.FourEntryRingMisreads | src/rask-liburing/src/completion_queue.rs:36-38 | on a four-entry default ring, head 1 reads slot 2 instead of 1, and head 2 reads slot 4 past the ring; the doubled slots do not fit four entries, the single ones do |
| Consts.FileIndexAllocIsMinusOne | src/rask-liburing/src/core/mod.rs:1 | `IORING_FILE_INDEX_ALLOC` is -1: negative, `0xFFFF_FFFF` as `u32`, and 0 once one is added |
| Consts.TimeoutClockMask | src/rask-liburing/src/core/mod.rs:20-25 | the clock mask is the union of the two disjoint clock bits, 12 |
| Consts.TimeoutUpdateMask | src/rask-liburing/src/core/mod.rs:19-26 | the update mask is the union of the two disjoint update bits, 18 |
| Consts.SetupFlagsAreDistinctBits | src/rask-liburing/src/core/mod.rs:2-15 | the fourteen setup flags are `1 << 0` to `1 << 13`, pairwise disjoint |
| Consts.MmapOffsetsInsideMask | src/rask-liburing/src/core/mod.rs:47-52 | the completion-ring, entries and buffer-ring mmap offsets lie inside `IORING_OFF_MMAP_MASK`, and the three ring offsets differ |
| CqeCore.GetBufferId | src/rask-liburing/src/core/cqe.rs:14-20 | an id is reported exactly when the `Buffer` bit is set, and it is the upper 16 bits |
| CqeCore.BufferIdRoundTrip | src/rask-liburing/src/core/cqe.rs:14-20 | the id the kernel packs into the upper half comes back exactly when `Buffer` is among the low flags, and none otherwise |
| CqeCore.BufferIdIgnoresMiddleBits | src/rask-liburing/src/core/cqe.rs:14-20 | two flag words agreeing on bit 0 and bits 16..31 give the same buffer id, whatever bits 1..15 hold |
| CqeCore.FlagConstants | src/rask-liburing/src/core/cqe.rs:4-7 | `Buffer`, `More`, `SockNonEmpty`, `Notification` are 1, 2, 4, 8 and equal the kernel's `IORING_CQE_F_*` bits |
| CqeCore.GetData | src/rask-liburing/src/core/cqe.rs:34-36 | the stored `user_data` |
| CqeCore.Flags | src/rask-liburing/src/core/cqe.rs:42-44 | the stored flag word with every bit retained, undefined bits included (`from_bits_retain`) |
| CqeCore.Result | src/rask-liburing/src/core/cqe.rs:46-48 | the stored `res` |
| Liburing.IoUring.FromRing | src/liburing/src/lib.rs:43-57 | a wrapper over the ring with both counters at 0 |
| Liburing.IoUring.New | src/liburing/src/lib.rs:43-57 | an error exactly when the init result is negative, carrying its negation; otherwise a fresh wrapper with both counters 0 |
| Liburing.IoUring.GetSqe | src/liburing/src/lib.rs:60-67 | on room the slot and `unsubmitted + 1`; when full `SQFullError` with `unsubmitted` and the tail kept; `in_flight` never changes |
| Liburing.IoUring.EnterAndWait | src/liburing/src/lib.rs:83-103 | the enter call gets the descriptor, `unsubmitted` and `wait_for`; a negative result is the last OS error with nothing changed; otherwise the accepted count moves from `unsubmitted` to `in_flight` |
| Liburing.IoUring.Enter | src/liburing/src/lib.rs:74-76 | `enter_and_wait(0)` |
| Liburing.EnterKeepsTheTotal | src/liburing/src/lib.rs:98-102 | with `accepted <= unsubmitted` and no overflow, the new counters are the exact difference and sum, and `unsubmitted + in_flight` is preserved |
| Liburing.EnterKeepsTheTotalModulo | src/liburing/src/lib.rs:98-102 | for any accepted count the total is preserved modulo 2^32 |
| LiburingSysPrep.IoUringSqeSetFlags | src/liburing-sys/src/lib.rs:124-126 | the record becomes, from the record as it was, `flags` replaced, every other field kept (`SqeSpec.SetFlags`) |
| LiburingSysPrep.IoUringSqeSetData | src/liburing-sys/src/lib.rs:91-93 | the record becomes, from the record as it was, `user_data` replaced by the data word or the address, every other field kept (`SqeSpec.SetData64`) |
| LiburingSysPrep.IoUringSqeSetData64 | src/liburing-sys/src/lib.rs:110-112 | the record becomes, from the record as it was, `user_data` replaced by the data word or the address, every other field kept (`SqeSpec.SetData64`) |
| LiburingSysPrep.IoUringCqeGetData | src/liburing-sys/src/lib.rs:99-101 | the completion's `user_data` as a raw pointer, null included |
| LiburingSysPrep.IoUringCqeGetData64 | src/liburing-sys/src/lib.rs:117-119 | the completion's `user_data` word |
| LiburingSysPrep.SetDataGetDataRoundTrip | src/liburing-sys/src/lib.rs:91-119 | the pointer `set_data` stores comes back unchanged from `get_data` of the completion, null included, and the word `set_data64` stores from `get_data64` |
| LiburingSysPrep.IoUringPrepRw | src/liburing-sys/src/lib.rs:132-147 | the record becomes, from the record as it was, the header write: opcode, `fd`, `addr`, `len` and `off` as given, `flags` and `ioprio` cleared, every other field kept (`SqeSpec.Rw`) |
| LiburingSysPrep.IoUringPrepSplice | src/liburing-sys/src/lib.rs:152-173 | the record becomes, from the record as it was, splice: the output descriptor, offset and byte count in the header, the input offset in `splice_off_in`, the input descriptor in `splice_fd_in`, the splice flags (`SqeSpec.Splice`) |
| LiburingSysPrep.IoUringPrepTee | src/liburing-sys/src/lib.rs:178-190 | the record becomes, from the record as it was, tee: a splice under its own opcode with both offsets 0 (`SqeSpec.Tee`) |
| LiburingSysPrep.IoUringPrepReadv | src/liburing-sys/src/lib.rs:196-211 | the record becomes, from the record as it was, readv: descriptor, vector address, vector count and offset in the header (`SqeSpec.Readv`) |
| LiburingSysPrep.IoUringPrepReadv2 | src/liburing-sys/src/lib.rs:217-227 | the record becomes, from the record as it was, readv with `rw_flags` set (`SqeSpec.Readv2`) |
| LiburingSysPrep.IoUringPrepReadFixed | src/liburing-sys/src/lib.rs:233-243 | the record becomes, from the record as it was, read into a registered buffer: header as read, `buf_index` the low 16 bits of the index (`SqeSpec.ReadFixed`) |
| LiburingSysPrep.IoUringPrepWritev | src/liburing-sys/src/lib.rs:249-257 | the record becomes, from the record as it was, writev: descriptor, vector address, vector count and offset in the header (`SqeSpec.Writev`) |
| LiburingSysPrep.IoUringPrepWritev2 | src/liburing-sys/src/lib.rs:263-273 | the record becomes, from the record as it was, writev with `rw_flags` set (`SqeSpec.Writev2`) |
| LiburingSysPrep.IoUringPrepWriteFixed | src/liburing-sys/src/lib.rs:279-289 | the record becomes, from the record as it was, write from a registered buffer: header as write, `buf_index` the low 16 bits of the index (`SqeSpec.WriteFixed`) |
| LiburingSysPrep.IoUringPrepRecvmsg | src/liburing-sys/src/lib.rs:295-298 | the record becomes, from the record as it was, recvmsg: the message header address, `len` 1, offset 0, `msg_flags` (`SqeSpec.Recvmsg`) |
| LiburingSysPrep.IoUringPrepRecvmsgMultishot | src/liburing-sys/src/lib.rs:304-312 | the record becomes, from the record as it was, recvmsg with `IORING_RECV_MULTISHOT` or-ed into `ioprio` (`SqeSpec.RecvmsgMultishot`) |
| LiburingSysPrep.IoUringPrepSendmsg | src/liburing-sys/src/lib.rs:318-326 | the record becomes, from the record as it was, sendmsg: the message header address, `len` 1, offset 0, `msg_flags` (`SqeSpec.Sendmsg`) |
| LiburingSysPrep.IoUringPrepPollAdd | src/liburing-sys/src/lib.rs:331-334 | the record becomes, from the record as it was, poll add: no address, length or offset, the mask through `to_le` in `poll32_events` (`SqeSpec.PollAdd`) |
| LiburingSysPrep.IoUringPrepPollMultishot | src/liburing-sys/src/lib.rs:339-342 | the record becomes, from the record as it was, poll add with `len` set to `IORING_POLL_ADD_MULTI` (`SqeSpec.PollMultishot`) |
| LiburingSysPrep.IoUringPrepPollRemove | src/liburing-sys/src/lib.rs:347-350 | the record becomes, from the record as it was, poll remove of the request carrying the given user data, descriptor -1 (`SqeSpec.PollRemove`) |
| LiburingSysPrep.IoUringPrepPollUpdate | src/liburing-sys/src/lib.rs:355-372 | the record becomes, from the record as it was, poll update: old user data in `addr`, new user data in `off`, the update flags in `len`, the mask through `to_le` (`SqeSpec.PollUpdate`) |
| LiburingSysPrep.IoUringPrepFsync | src/liburing-sys/src/lib.rs:377-380 | the record becomes, from the record as it was, fsync of the descriptor with the fsync flags (`SqeSpec.Fsync`) |
| LiburingSysPrep.IoUringPrepNop | src/liburing-sys/src/lib.rs:385-387 | the record becomes, from the record as it was, a no-op: descriptor -1, no address, length or offset; the stale tail of the slot kept (`SqeSpec.Nop`) |
| LiburingSysPrep.IoUringPrepTimeout | src/liburing-sys/src/lib.rs:393-401 | the record becomes, from the record as it was, timeout: the timespec address, `len` 1, the completion count zero-extended into `off`, the timeout flags (`SqeSpec.Timeout`) |
| LiburingSysPrep.IoUringPrepTimeoutRemove | src/liburing-sys/src/lib.rs:406-410 | the record becomes, from the record as it was, timeout remove of the request carrying the given user data, with the flags (`SqeSpec.TimeoutRemove`) |
| LiburingSysPrep.IoUringPrepTimeoutUpdate | src/liburing-sys/src/lib.rs:416-425 | the record becomes, from the record as it was, timeout update: a timeout-remove request with the new timespec in `off` and `IORING_TIMEOUT_UPDATE` or-ed into the flags (`SqeSpec.TimeoutUpdate`) |
| LiburingSysPrep.IoUringPrepAccept | src/liburing-sys/src/lib.rs:432-441 | the record becomes, from the record as it was, accept: the descriptor, the address pointer, the address-length pointer in `off`, length 0, the accept flags (`SqeSpec.Accept`) |
| LiburingSysPrep.IoUringSetTargetFixedFile | src/liburing-sys/src/lib.rs:446-448 | the record becomes, from the record as it was, `file_index` (in `union5`) becomes the index plus one, modulo 2^32 (`SqeSpec.SetTargetFixedFile`) |
| LiburingSysPrep.IoUringPrepAcceptDirect | src/liburing-sys/src/lib.rs:455-471 | the record becomes, from the record as it was, accept with the direct-descriptor encoding of the file index in `file_index` (`SqeSpec.AcceptDirect`) |
| LiburingSysPrep.IoUringPrepMultishotAccept | src/liburing-sys/src/lib.rs:478-487 | the record becomes, from the record as it was, accept with `IORING_ACCEPT_MULTISHOT` or-ed into `ioprio` (`SqeSpec.MultishotAccept`) |
| LiburingSysPrep.IoUringPrepMultishotAcceptDirect | src/liburing-sys/src/lib.rs:494-503 | the record becomes, from the record as it was, multishot accept with the allocation request in `file_index` (`SqeSpec.MultishotAcceptDirect`) |
| LiburingSysPrep.IoUringPrepCancel64 | src/liburing-sys/src/lib.rs:508-512 | the record becomes, from the record as it was, async cancel of the request carrying the given user data, descriptor -1, the cancel flags (`SqeSpec.Cancel64`) |
| LiburingSysPrep.IoUringPrepCancel | src/liburing-sys/src/lib.rs:517-519 | the record becomes, from the record as it was, async cancel of the request carrying the given user data, descriptor -1, the cancel flags (`SqeSpec.Cancel64`) |
| LiburingSysPrep.IoUringPrepCancelFd | src/liburing-sys/src/lib.rs:524-527 | the record becomes, from the record as it was, async cancel by descriptor: `IORING_ASYNC_CANCEL_FD` or-ed into the flags (`SqeSpec.CancelFd`) |
| LiburingSysPrep.IoUringPrepLinkTimeout | src/liburing-sys/src/lib.rs:532-535 | the record becomes, from the record as it was, linked timeout: the timespec address, `len` 1, the flags (`SqeSpec.LinkTimeout`) |
| LiburingSysPrep.IoUringPrepConnect | src/liburing-sys/src/lib.rs:540-547 | the record becomes, from the record as it was, connect: the address, length 0, the address length zero-extended into `off` (`SqeSpec.Connect`) |
| LiburingSysPrep.IoUringPrepFilesUpdate | src/liburing-sys/src/lib.rs:552-566 | the record becomes, from the record as it was, files update: the descriptor array, its count, the offset sign-extended into `off` (`SqeSpec.FilesUpdate`) |
| LiburingSysPrep.IoUringPrepFallocate | src/liburing-sys/src/lib.rs:571-587 | the record becomes, from the record as it was, fallocate: the mode in `len`, the offset in `off`, the length in `addr` (`SqeSpec.Fallocate`) |
| LiburingSysPrep.IoUringPrepOpenat | src/liburing-sys/src/lib.rs:592-601 | the record becomes, from the record as it was, openat: directory descriptor, path address, mode in `len`, offset 0, `open_flags` (`SqeSpec.Openat`) |
| LiburingSysPrep.IoUringPrepOpenatDirect | src/liburing-sys/src/lib.rs:606-622 | the record becomes, from the record as it was, openat with the direct-descriptor encoding of the file index (`SqeSpec.OpenatDirect`) |
| LiburingSysPrep.IoUringPrepClose | src/liburing-sys/src/lib.rs:627-629 | the record becomes, from the record as it was, close of the descriptor, no address, length or offset (`SqeSpec.Close`) |
| LiburingSysPrep.IoUringPrepCloseDirect | src/liburing-sys/src/lib.rs:634-637 | the record becomes, from the record as it was, close of descriptor 0 with `file_index` the slot plus one, unchecked (`SqeSpec.CloseDirect`) |
| LiburingSysPrep.IoUringPrepRead | src/liburing-sys/src/lib.rs:642-650 | the record becomes, from the record as it was, read: descriptor, buffer, byte count and offset in the header (`SqeSpec.Read`) |
| LiburingSysPrep.IoUringPrepWrite | src/liburing-sys/src/lib.rs:655-663 | the record becomes, from the record as it was, write: descriptor, buffer, byte count and offset in the header (`SqeSpec.Write`) |
| LiburingSysPrep.IoUringPrepSend | src/liburing-sys/src/lib.rs:670-679 | the record becomes, from the record as it was, send: socket, buffer, length, offset 0, `msg_flags` (`SqeSpec.Send`) |
| LiburingSysPrep.IoUringPrepSendSetAddr | src/liburing-sys/src/lib.rs:684-691 | the record becomes, from the record as it was, `addr2` the destination, the first two bytes of `union5` the address length, its last two bytes kept (`SqeSpec.SendSetAddr`) |
| LiburingSysPrep.IoUringPrepSendto | src/liburing-sys/src/lib.rs:696-707 | the record becomes, from the record as it was, send followed by the destination address and its length (`SqeSpec.Sendto`) |
| LiburingSysPrep.IoUringPrepSendZc | src/liburing-sys/src/lib.rs:712-723 | the record becomes, from the record as it was, zero-copy send: send under `IORING_OP_SEND_ZC` with the zero-copy flags in `ioprio` (`SqeSpec.SendZc`) |
| LiburingSysPrep.IoUringPrepSendZcFixed | src/liburing-sys/src/lib.rs:728-740 | the record becomes, from the record as it was, zero-copy send with `IORING_RECVSEND_FIXED_BUF` or-ed into `ioprio` and the low 16 bits of the buffer index in `buf_index` (`SqeSpec.SendZcFixed`) |
| LiburingSysPrep.IoUringPrepSendmsgZc | src/liburing-sys/src/lib.rs:745-753 | the record becomes, from the record as it was, sendmsg under the opcode `IORING_OP_SENDMSG_ZC` (`SqeSpec.SendmsgZc`) |
| LiburingSysPrep.IoUringPrepRecv | src/liburing-sys/src/lib.rs:758-767 | the record becomes, from the record as it was, recv: socket, buffer, length, offset 0, `msg_flags` (`SqeSpec.Recv`) |
| LiburingSysPrep.IoUringPrepRecvMultishot | src/liburing-sys/src/lib.rs:772-781 | the record becomes, from the record as it was, recv with `IORING_RECV_MULTISHOT` or-ed into `ioprio` (`SqeSpec.RecvMultishot`) |
| LiburingSysPrep.IoUringPrepMsgRingCqeFlags | src/liburing-sys/src/lib.rs:789-800 | the record becomes, from the record as it was, ring message with `IORING_MSG_RING_FLAGS_PASS` or-ed into the flags and the completion flags in `union5` (`SqeSpec.MsgRingCqeFlags`) |
| LiburingSysPrep.IoUringPrepMsgRing | src/liburing-sys/src/lib.rs:805-814 | the record becomes, from the record as it was, ring message to the ring descriptor: the length, the data in `off`, the flags (`SqeSpec.MsgRing`) |
| LiburingSysPrep.IoUringPrepMsgRingFd | src/liburing-sys/src/lib.rs:819-843 | the record becomes, from the record as it was, descriptor-passing ring message: the command in `addr`, the source descriptor sign-extended in `addr3`, the target's direct-descriptor encoding in `file_index` (`SqeSpec.MsgRingFd`) |
| LiburingSysPrep.IoUringPrepMsgRingFdAlloc | src/liburing-sys/src/lib.rs:848-856 | the record becomes, from the record as it was, descriptor-passing ring message: the command in `addr`, the source descriptor sign-extended in `addr3`, the allocation request in `file_index` (`SqeSpec.MsgRingFd`) |
| LiburingSysPrep.IoUringPrepSocket | src/liburing-sys/src/lib.rs:863-879 | the record becomes, from the record as it was, socket: the domain in `fd`, the protocol in `len`, the type sign-extended into `off`, the flags (`SqeSpec.Socket`) |
| LiburingSysPrep.IoUringPrepSocketDirect | src/liburing-sys/src/lib.rs:884-899 | the record becomes, from the record as it was, socket with the direct-descriptor encoding of the file index (`SqeSpec.SocketDirect`) |
| LiburingSysPrep.IoUringPrepSocketDirectAlloc | src/liburing-sys/src/lib.rs:904-913 | the record becomes, from the record as it was, socket with the allocation request in `file_index` (`SqeSpec.SocketDirectAlloc`) |
| LiburingSysRing.IoUringReadOnce | src/liburing-sys/src/lib.rs:35-38 | the value the word holds when it is read |
| LiburingSysRing.IoUringSmpLoadAcquire | src/liburing-sys/src/lib.rs:48-51 | the value the word holds when it is read |
| LiburingSysRing.IoUringSmpStoreRelease | src/liburing-sys/src/lib.rs:41-45 | the store goes to a fresh `AtomicPtr` holding a local's address: the target word keeps its value |
| LiburingSysRing.IoUringCqAdvance | src/liburing-sys/src/lib.rs:67-72 | through the no-op store, `khead` keeps its value whatever `nr` is |
| LiburingSysRing.IoUringCqeSeen | src/liburing-sys/src/lib.rs:78-82 | nothing for a null entry, and the no-op advance otherwise: `khead` keeps its value |
| LiburingSysRing.IoUringSqReady | src/liburing-sys/src/lib.rs:918-926 | the other binding's ready count: both branches, volatile read and acquire load, read the same `khead` |
| LiburingSysRing.IoUringSqSpaceLeft | src/liburing-sys/src/lib.rs:931-933 | the other binding's count of free slots |
| LiburingSysRing.IoUringSqringWait | src/liburing-sys/src/lib.rs:938-944 | the other binding's result: 0 without SQPOLL or with a free slot, otherwise the result of `__io_uring_sqring_wait` |
| LiburingSysRing.IoUringCqReady | src/liburing-sys/src/lib.rs:949-951 | the other binding's count of posted, unconsumed completions |
| LiburingSysRing.IoUringCqHasOverflown | src/liburing-sys/src/lib.rs:956-958 | the other binding's overflow test of `kflags` |
| LiburingSysRing.IoUringGetSqe | src/liburing-sys/src/lib.rs:1053-1078 | the same success test, slot and tail update as the safe rewrite's `get_sqe`; `None` (null) with the tail kept when full |
| LiburingSysRing.IoUringPeekCqeInternal | src/liburing-sys/src/lib.rs:976-1026 | the same `PeekRing` result; the sentinel branch calls the no-op advance, so the head is re-read unchanged |
| LiburingSysRing.IoUringPeekCqe | src/liburing-sys/src/lib.rs:1031-1037 | `AfterPeek` of the peek with `wait_nr` 0: no return while the peek spins, the store through a null out-pointer, else the peeked entry for a zero result or the waiting call |
| LiburingSysRing.IoUringWaitCqe | src/liburing-sys/src/lib.rs:1042-1048 | `AfterPeek` of the peek with `wait_nr` 1: no return while the peek spins, the store through a null out-pointer, else the peeked entry for a zero result or the waiting call |
| LiburingSysRing.IoUringOpcodeSupported | src/liburing-sys/src/lib.rs:56-62 | as written, with the read through the zero-length `(*p).ops.1`: the other binding's outcome, a panic exactly when the opcode's low byte is at most `last_op`, 0 otherwise |
| LiburingSysRing.IoUringBufRingMask | src/liburing-sys/src/lib.rs:1080-1082 | the same mask as the other binding |
| LiburingSysRing.IoUringBufRingInit | src/liburing-sys/src/lib.rs:1087-1089 | the tail becomes 0 |
| LiburingSysRing.IoUringBufRingAdd | src/liburing-sys/src/lib.rs:1094-1112 | as written, indexing the zero-length `(*br).__bindgen_anon_1.bufs.as_mut()`: the bounds check panics for every tail, offset and mask, and nothing is written |
| LiburingSysRing.IoUringBufRingAddIntended | src/liburing-sys/src/lib.rs:1094-1112 | with the kernel's slots indexed: the same slot write as the other binding's intended form, tail and other slots kept |
| LiburingSysRing.IoUringBufRingAdvance | src/liburing-sys/src/lib.rs:1117-1123 | through the no-op store, the tail keeps its value |
| LiburingSysRing.IoUringBufRingCqAdvanceInternal | src/liburing-sys/src/lib.rs:1128-1136 | the buffer tail moves on by `buf_count as u16` by a plain `+=`, while `khead` keeps its value |
| LiburingSysRing.IoUringBufRingCqAdvance | src/liburing-sys/src/lib.rs:1141-1147 | the buffer tail moves on by `count`, `khead` kept |
| RaskSysPrep.IoUringSqeSetFlags | src/rask-liburing-sys/src/lib.rs:168-170 | the record becomes, from the record as it was, `flags` replaced, every other field kept (`SqeSpec.SetFlags`) |
| RaskSysPrep.IoUringSqeSetData | src/rask-liburing-sys/src/lib.rs:76-78 | the record becomes, from the record as it was, `user_data` replaced by the data word or the address, every other field kept (`SqeSpec.SetData64`) |
| RaskSysPrep.IoUringSqeSetData64 | src/rask-liburing-sys/src/lib.rs:102-104 | the record becomes, from the record as it was, `user_data` replaced by the data word or the address, every other field kept (`SqeSpec.SetData64`) |
| RaskSysPrep.IoUringPrepRw | src/rask-liburing-sys/src/lib.rs:173-188 | the record becomes, from the record as it was, the header write: opcode, `fd`, `addr`, `len` and `off` as given, `flags` and `ioprio` cleared, every other field kept (`SqeSpec.Rw`) |
| RaskSysPrep.IoUringPrepRwBuf | src/rask-liburing-sys/src/lib.rs:191-205 | the record becomes, from the record as it was, the header write: opcode, `fd`, `addr`, `len` and `off` as given, `flags` and `ioprio` cleared, every other field kept (`SqeSpec.Rw`) |
| RaskSysPrep.IoUringPrepRwNull | src/rask-liburing-sys/src/lib.rs:208-216 | the record becomes, from the record as it was, the header write: opcode, `fd`, `addr`, `len` and `off` as given, `flags` and `ioprio` cleared, every other field kept (`SqeSpec.Rw`) |
| RaskSysPrep.IoUringPrepSplice | src/rask-liburing-sys/src/lib.rs:226-240 | the record becomes, from the record as it was, splice: the output descriptor, offset and byte count in the header, the input offset in `splice_off_in`, the input descriptor in `splice_fd_in`, the splice flags (`SqeSpec.Splice`) |
| RaskSysPrep.IoUringPrepTee | src/rask-liburing-sys/src/lib.rs:249-261 | the record becomes, from the record as it was, tee: a splice under its own opcode with both offsets 0 (`SqeSpec.Tee`) |
| RaskSysPrep.IoUringPrepReadv | src/rask-liburing-sys/src/lib.rs:287-289 | the record becomes, from the record as it was, readv: descriptor, vector address, vector count and offset in the header (`SqeSpec.Readv`) |
| RaskSysPrep.IoUringPrepReadv2 | src/rask-liburing-sys/src/lib.rs:312-321 | the record becomes, from the record as it was, readv with `rw_flags` set (`SqeSpec.Readv2`) |
| RaskSysPrep.IoUringPrepReadFixed | src/rask-liburing-sys/src/lib.rs:330-339 | the record becomes, from the record as it was, read into a registered buffer: header as read, `buf_index` the low 16 bits of the index (`SqeSpec.ReadFixed`) |
| RaskSysPrep.IoUringPrepWritev | src/rask-liburing-sys/src/lib.rs:365-367 | the record becomes, from the record as it was, writev: descriptor, vector address, vector count and offset in the header (`SqeSpec.Writev`) |
| RaskSysPrep.IoUringPrepWritev2 | src/rask-liburing-sys/src/lib.rs:390-399 | the record becomes, from the record as it was, writev with `rw_flags` set (`SqeSpec.Writev2`) |
| RaskSysPrep.IoUringPrepWriteFixed | src/rask-liburing-sys/src/lib.rs:408-417 | the record becomes, from the record as it was, write from a registered buffer: header as write, `buf_index` the low 16 bits of the index (`SqeSpec.WriteFixed`) |
| RaskSysPrep.IoUringPrepRecvmsg | src/rask-liburing-sys/src/lib.rs:433-436 | the record becomes, from the record as it was, recvmsg: the message header address, `len` 1, offset 0, `msg_flags` (`SqeSpec.Recvmsg`) |
| RaskSysPrep.IoUringPrepRecvmsgMultishot | src/rask-liburing-sys/src/lib.rs:465-473 | the record becomes, from the record as it was, recvmsg with `IORING_RECV_MULTISHOT` or-ed into `ioprio` (`SqeSpec.RecvmsgMultishot`) |
| RaskSysPrep.IoUringPrepSendmsg | src/rask-liburing-sys/src/lib.rs:492-495 | the record becomes, from the record as it was, sendmsg: the message header address, `len` 1, offset 0, `msg_flags` (`SqeSpec.Sendmsg`) |
| RaskSysPrep.IoUringPrepPollAdd | src/rask-liburing-sys/src/lib.rs:505-508 | the record becomes, from the record as it was, poll add: no address, length or offset, the mask through `to_le` in `poll32_events` (`SqeSpec.PollAdd`) |
| RaskSysPrep.IoUringPrepPollMultishot | src/rask-liburing-sys/src/lib.rs:524-527 | the record becomes, from the record as it was, poll add with `len` set to `IORING_POLL_ADD_MULTI` (`SqeSpec.PollMultishot`) |
| RaskSysPrep.IoUringPrepPollRemove | src/rask-liburing-sys/src/lib.rs:536-539 | the record becomes, from the record as it was, poll remove of the request carrying the given user data, descriptor -1 (`SqeSpec.PollRemove`) |
| RaskSysPrep.IoUringPrepPollUpdate | src/rask-liburing-sys/src/lib.rs:548-558 | the record becomes, from the record as it was, poll update: old user data in `addr`, new user data in `off`, the update flags in `len`, the mask through `to_le` (`SqeSpec.PollUpdate`) |
| RaskSysPrep.IoUringPrepFsync | src/rask-liburing-sys/src/lib.rs:576-579 | the record becomes, from the record as it was, fsync of the descriptor with the fsync flags (`SqeSpec.Fsync`) |
| RaskSysPrep.IoUringPrepNop | src/rask-liburing-sys/src/lib.rs:585-587 | the record becomes, from the record as it was, a no-op: descriptor -1, no address, length or offset; the stale tail of the slot kept (`SqeSpec.Nop`) |
| RaskSysPrep.IoUringPrepTimeout | src/rask-liburing-sys/src/lib.rs:610-613 | the record becomes, from the record as it was, timeout: the timespec address, `len` 1, the completion count zero-extended into `off`, the timeout flags (`SqeSpec.Timeout`) |
| RaskSysPrep.IoUringPrepTimeoutRemove | src/rask-liburing-sys/src/lib.rs:622-626 | the record becomes, from the record as it was, timeout remove of the request carrying the given user data, with the flags (`SqeSpec.TimeoutRemove`) |
| RaskSysPrep.IoUringPrepTimeoutUpdate | src/rask-liburing-sys/src/lib.rs:642-657 | the record becomes, from the record as it was, timeout update: a timeout-remove request with the new timespec in `off` and `IORING_TIMEOUT_UPDATE` or-ed into the flags (`SqeSpec.TimeoutUpdate`) |
| RaskSysPrep.IoUringPrepAccept | src/rask-liburing-sys/src/lib.rs:668-684 | the record becomes, from the record as it was, accept: the descriptor, the address pointer, the address-length pointer in `off`, length 0, the accept flags (`SqeSpec.Accept`) |
| RaskSysPrep.IoUringSetTargetFixedFile | src/rask-liburing-sys/src/lib.rs:687-689 | the record becomes, from the record as it was, `file_index` (in `union5`) becomes the index plus one, modulo 2^32 (`SqeSpec.SetTargetFixedFile`) |
| RaskSysPrep.IoUringPrepAcceptDirect | src/rask-liburing-sys/src/lib.rs:721-737 | the record becomes, from the record as it was, accept with the direct-descriptor encoding of the file index in `file_index` (`SqeSpec.AcceptDirect`) |
| RaskSysPrep.IoUringPrepMultishotAccept | src/rask-liburing-sys/src/lib.rs:758-767 | the record becomes, from the record as it was, accept with `IORING_ACCEPT_MULTISHOT` or-ed into `ioprio` (`SqeSpec.MultishotAccept`) |
| RaskSysPrep.IoUringPrepMultishotAcceptDirect | src/rask-liburing-sys/src/lib.rs:811-820 | the record becomes, from the record as it was, multishot accept with the allocation request in `file_index` (`SqeSpec.MultishotAcceptDirect`) |
| RaskSysPrep.IoUringPrepCancel64 | src/rask-liburing-sys/src/lib.rs:843-847 | the record becomes, from the record as it was, async cancel of the request carrying the given user data, descriptor -1, the cancel flags (`SqeSpec.Cancel64`) |
| RaskSysPrep.IoUringPrepCancel | src/rask-liburing-sys/src/lib.rs:870-872 | the record becomes, from the record as it was, async cancel of the request carrying the given user data, descriptor -1, the cancel flags (`SqeSpec.Cancel64`) |
| RaskSysPrep.IoUringPrepCancelFd | src/rask-liburing-sys/src/lib.rs:891-894 | the record becomes, from the record as it was, async cancel by descriptor: `IORING_ASYNC_CANCEL_FD` or-ed into the flags (`SqeSpec.CancelFd`) |
| RaskSysPrep.IoUringPrepLinkTimeout | src/rask-liburing-sys/src/lib.rs:915-918 | the record becomes, from the record as it was, linked timeout: the timespec address, `len` 1, the flags (`SqeSpec.LinkTimeout`) |
| RaskSysPrep.IoUringPrepConnect | src/rask-liburing-sys/src/lib.rs:925-927 | the record becomes, from the record as it was, connect: the address, length 0, the address length zero-extended into `off` (`SqeSpec.Connect`) |
| RaskSysPrep.IoUringPrepFilesUpdate | src/rask-liburing-sys/src/lib.rs:930-932 | the record becomes, from the record as it was, files update: the descriptor array, its count, the offset sign-extended into `off` (`SqeSpec.FilesUpdate`) |
| RaskSysPrep.IoUringPrepFallocate | src/rask-liburing-sys/src/lib.rs:935-938 | the record becomes, from the record as it was, fallocate: the mode in `len`, the offset in `off`, the length in `addr` (`SqeSpec.Fallocate`) |
| RaskSysPrep.IoUringPrepOpenat | src/rask-liburing-sys/src/lib.rs:941-950 | the record becomes, from the record as it was, openat: directory descriptor, path address, mode in `len`, offset 0, `open_flags` (`SqeSpec.Openat`) |
| RaskSysPrep.IoUringPrepOpenatDirect | src/rask-liburing-sys/src/lib.rs:953-969 | the record becomes, from the record as it was, openat with the direct-descriptor encoding of the file index (`SqeSpec.OpenatDirect`) |
| RaskSysPrep.IoUringPrepClose | src/rask-liburing-sys/src/lib.rs:972-974 | the record becomes, from the record as it was, close of the descriptor, no address, length or offset (`SqeSpec.Close`) |
| RaskSysPrep.IoUringPrepCloseDirect | src/rask-liburing-sys/src/lib.rs:977-980 | the record becomes, from the record as it was, close of descriptor 0 with `file_index` the slot plus one, unchecked (`SqeSpec.CloseDirect`) |
| RaskSysPrep.IoUringPrepRead | src/rask-liburing-sys/src/lib.rs:983-985 | the record becomes, from the record as it was, read: descriptor, buffer, byte count and offset in the header (`SqeSpec.Read`) |
| RaskSysPrep.IoUringPrepWrite | src/rask-liburing-sys/src/lib.rs:988-990 | the record becomes, from the record as it was, write: descriptor, buffer, byte count and offset in the header (`SqeSpec.Write`) |
| RaskSysPrep.IoUringPrepSend | src/rask-liburing-sys/src/lib.rs:995-998 | the record becomes, from the record as it was, send: socket, buffer, length, offset 0, `msg_flags` (`SqeSpec.Send`) |
| RaskSysPrep.IoUringPrepSendSetAddr | src/rask-liburing-sys/src/lib.rs:1001-1008 | the record becomes, from the record as it was, `addr2` the destination, the first two bytes of `union5` the address length, its last two bytes kept (`SqeSpec.SendSetAddr`) |
| RaskSysPrep.IoUringPrepSendto | src/rask-liburing-sys/src/lib.rs:1011-1021 | the record becomes, from the record as it was, send followed by the destination address and its length (`SqeSpec.Sendto`) |
| RaskSysPrep.IoUringPrepSendZc | src/rask-liburing-sys/src/lib.rs:1024-1034 | the record becomes, from the record as it was, zero-copy send: send under `IORING_OP_SEND_ZC` with the zero-copy flags in `ioprio` (`SqeSpec.SendZc`) |
| RaskSysPrep.IoUringPrepSendZcFixed | src/rask-liburing-sys/src/lib.rs:1037-1048 | the record becomes, from the record as it was, zero-copy send with `IORING_RECVSEND_FIXED_BUF` or-ed into `ioprio` and the low 16 bits of the buffer index in `buf_index` (`SqeSpec.SendZcFixed`) |
| RaskSysPrep.IoUringPrepSendmsgZc | src/rask-liburing-sys/src/lib.rs:1051-1054 | the record becomes, from the record as it was, sendmsg under the opcode `IORING_OP_SENDMSG_ZC` (`SqeSpec.SendmsgZc`) |
| RaskSysPrep.IoUringPrepRecv | src/rask-liburing-sys/src/lib.rs:1057-1060 | the record becomes, from the record as it was, recv: socket, buffer, length, offset 0, `msg_flags` (`SqeSpec.Recv`) |
| RaskSysPrep.IoUringPrepRecvMultishot | src/rask-liburing-sys/src/lib.rs:1063-1071 | the record becomes, from the record as it was, recv with `IORING_RECV_MULTISHOT` or-ed into `ioprio` (`SqeSpec.RecvMultishot`) |
| RaskSysPrep.IoUringPrepMsgRingCqeFlags | src/rask-liburing-sys/src/lib.rs:1077-1088 | the record becomes, from the record as it was, ring message with `IORING_MSG_RING_FLAGS_PASS` or-ed into the flags and the completion flags in `union5` (`SqeSpec.MsgRingCqeFlags`) |
| RaskSysPrep.IoUringPrepMsgRing | src/rask-liburing-sys/src/lib.rs:1091-1094 | the record becomes, from the record as it was, ring message to the ring descriptor: the length, the data in `off`, the flags (`SqeSpec.MsgRing`) |
| RaskSysPrep.IoUringPrepMsgRingFd | src/rask-liburing-sys/src/lib.rs:1097-1121 | the record becomes, from the record as it was, descriptor-passing ring message: the command in `addr`, the source descriptor sign-extended in `addr3`, the target's direct-descriptor encoding in `file_index` (`SqeSpec.MsgRingFd`) |
| RaskSysPrep.IoUringPrepMsgRingFdAlloc | src/rask-liburing-sys/src/lib.rs:1124-1132 | the record becomes, from the record as it was, descriptor-passing ring message: the command in `addr`, the source descriptor sign-extended in `addr3`, the allocation request in `file_index` (`SqeSpec.MsgRingFd`) |
| RaskSysPrep.IoUringPrepSocket | src/rask-liburing-sys/src/lib.rs:1137-1152 | the record becomes, from the record as it was, socket: the domain in `fd`, the protocol in `len`, the type sign-extended into `off`, the flags (`SqeSpec.Socket`) |
| RaskSysPrep.IoUringPrepSocketDirect | src/rask-liburing-sys/src/lib.rs:1155-1170 | the record becomes, from the record as it was, socket with the direct-descriptor encoding of the file index (`SqeSpec.SocketDirect`) |
| RaskSysPrep.IoUringPrepSocketDirectAlloc | src/rask-liburing-sys/src/lib.rs:1173-1182 | the record becomes, from the record as it was, socket with the allocation request in `file_index` (`SqeSpec.SocketDirectAlloc`) |
| RaskSysPrep.IoUringCqeGetData | src/rask-liburing-sys/src/lib.rs:91-93 | `None` exactly when `user_data` is 0, otherwise the reference at that address (`as_ref`) |
| RaskSysPrep.IoUringCqeGetData64 | src/rask-liburing-sys/src/lib.rs:116-118 | the completion's `user_data` word |
| RaskSysPrep.SetDataGetDataRoundTrip | src/rask-liburing-sys/src/lib.rs:76-118 | the address `set_data` stores comes back from `get_data` of the completion as a non-null reference, and `get_data64` returns the same word |
| RaskSysRing.IoUringGetSqe | src/rask-liburing-sys/src/lib.rs:1323-1353 | the success test, slot and tail update of `IoUring.GetSqe`; the SQPOLL branch loads the same word |
| RaskSysRing.IoUringSqReady | src/rask-liburing-sys/src/lib.rs:1187-1196 | the distance from `khead` to `sqe_tail` modulo 2^32: `khead` plus the count is `sqe_tail` |
| RaskSysRing.IoUringSqSpaceLeft | src/rask-liburing-sys/src/lib.rs:1201-1203 | with at most `ring_entries` outstanding, free slots plus ready entries are the ring size |
| RaskSysRing.SpaceLeftDecidesGetSqe | src/rask-liburing-sys/src/lib.rs:1187-1203 | given at most `ring_entries` ready, `get_sqe` succeeds exactly when `space_left > 0`; after a success `sq_ready` is one more and `space_left` one less |
| RaskSysRing.IoUringSqringWait | src/rask-liburing-sys/src/lib.rs:1208-1214 | 0 without SQPOLL or with space left; a non-zero result is the foreign wait's, and only on a full SQPOLL ring |
| RaskSysRing.IoUringCqReady | src/rask-liburing-sys/src/lib.rs:1217-1221 | the distance from `khead` to `ktail` modulo 2^32: `khead` plus the count is `ktail` |
| RaskSysRing.IoUringCqAdvance | src/rask-liburing-sys/src/lib.rs:46-52 | `khead` kept for 0 and otherwise moved on by `seen` modulo 2^32; with `seen` ready entries, `cq_ready` drops by exactly `seen` |
| RaskSysRing.IoUringCqeSeen | src/rask-liburing-sys/src/lib.rs:65-67 | `khead` moves on by one, and a non-empty ring has one entry fewer ready |
| RaskSysRing.IoUringCqHasOverflown | src/rask-liburing-sys/src/lib.rs:1224-1229 | true exactly when the `IORING_SQ_CQ_OVERFLOW` bit of the submission ring's flags is set |
| RaskSysRing.IoUringPeekCqeInternal | src/rask-liburing-sys/src/lib.rs:1247-1298 | the loop computes `PeekRing` of the ring for the observed `ktail` values, reading the head slot `(head & mask) << shift` (shift 1 with `CQE32`) and never writing `khead` |
| RaskSysRing.IoUringPeekCqe | src/rask-liburing-sys/src/lib.rs:1303-1309 | `AfterPeek` of the peek with `wait_nr` 0: no return while the peek spins, the store through a null out-pointer, else the peeked entry for a zero result or the waiting call |
| RaskSysRing.IoUringWaitCqe | src/rask-liburing-sys/src/lib.rs:1314-1320 | `AfterPeek` of the peek with `wait_nr` 1: no return while the peek spins, the store through a null out-pointer, else the peeked entry for a zero result or the waiting call |
| RaskSysRing.IoUringOpcodeSupported | src/rask-liburing-sys/src/lib.rs:26-32 | as written, with the read through the zero-length `probe.ops.1`: a panic exactly when the opcode's low byte is at most `last_op`, and otherwise 0, so no opcode is ever reported supported |
| RaskSysRing.IoUringOpcodeSupportedIntended | src/rask-liburing-sys/src/lib.rs:26-32 | with the kernel's entries read: 0 above `last_op`; otherwise 1 exactly when the opcode's entry has the supported bit, and a panic exactly when the index is outside the entries |
| RaskSysRing.OpcodeSupportedPanicsOnSupportedOpcode | src/rask-liburing-sys/src/lib.rs:26-32 | for every opcode the kernel marks as supported, the binding panics where the intended lookup answers 1 |
| RaskSysRing.OpcodeZeroPanics | src/rask-liburing-sys/src/lib.rs:26-32 | the instance `last_op` 49, opcode 0, first entry supported: a panic as written, 1 as intended |
| RaskSysRing.IoUringBufRingMask | src/rask-liburing-sys/src/lib.rs:1355-1357 | one below a non-zero ring size, and -1 (the `u32` wrap-around cast to `i32`) for size 0 |
| RaskSysRing.BufRingMaskSelectsASlot | src/rask-liburing-sys/src/lib.rs:1355-1357 | for a power-of-two size `ring_entries - 1` is a non-negative mask that selects an index below the size |
| RaskSysRing.IoUringBufRingInit | src/rask-liburing-sys/src/lib.rs:1362-1364 | the tail becomes 0 |
| RaskSysRing.IoUringBufRingAdd | src/rask-liburing-sys/src/lib.rs:1370-1388 | as written, indexing the zero-length `br.__bindgen_anon_1.bufs.as_mut()`: the bounds check panics for every tail, offset and mask, and nothing is written |
| RaskSysRing.IoUringBufRingAddIntended | src/rask-liburing-sys/src/lib.rs:1370-1388 | with the kernel's slots indexed: address, length and id go into slot `(tail + offset) & mask`, which lies in the ring; its `resv`, every other slot and the tail are kept |
| RaskSysRing.IoUringBufRingAdvance | src/rask-liburing-sys/src/lib.rs:1393-1399 | the tail moves on by `count as u16`, modulo 2^16 |
| RaskSysRing.IoUringBufRingCqAdvanceInternal | src/rask-liburing-sys/src/lib.rs:1404-1412 | the buffer tail moves on by `buf_count as u16` and `khead` by `cq_count` |
| RaskSysRing.IoUringBufRingCqAdvance | src/rask-liburing-sys/src/lib.rs:1417-1423 | both the buffer tail and `khead` move on by `count` |
| Ring.IoUringSq.constructor | src/rask-liburing/src/core/sq.rs:6-28 | the submission ring holds the given shared words, slots, counters, mask and size |
| Ring.IoUringCq.constructor | src/rask-liburing/src/core/cq.rs:6-24 | the completion ring holds the given shared words, slots, mask and size |
| Ring.IoUring.constructor | src/rask-liburing/src/core/io_uring.rs:8-19 | the ring handle holds the two rings, the setup flags, the ring descriptor and the features |
| Ring.IoUring.GetSqe | src/rask-liburing/src/core/io_uring.rs:26-48 | room exactly when `(tail+1) - khead <= ring_entries` modulo 2^32; then the slot `(tail & mask) << shift` (shift 1 with `SQE128`) inside `sqes` and the tail one further; otherwise `None` and the tail kept |
| Ring.NewFourEntryRing | src/rask-liburing/src/core/io_uring.rs:8-19 | a fresh ring of four single-width entries, mask 3, both counters 0 |
| Ring.GetSqeScenario | src/rask-liburing/src/core/io_uring.rs:34-47 | a four-entry ring hands out slots 0, 1, 2, 3, then `None`, and slot 0 again once the kernel's head reaches 4 |
| Ring.SlotInRange | src/rask-liburing/src/core/io_uring.rs:41 | every masked and shifted counter is a position in the slot sequence when the slots cover the mask |
| Ring.RoomIffSpaceLeft | src/rask-liburing-sys/src/lib.rs:1187-1203 | with at most `ring_entries` outstanding, `get_sqe` finds room exactly when `space_left > 0`; a success keeps at most `ring_entries` outstanding and leaves one free slot fewer |
| Ring.PowerOfTwoBounds | src/rask-liburing-sys/src/lib.rs:1341 | a power-of-two ring size lies between 1 and 2^31 |
| Ring.RoomCounting | src/rask-liburing-sys/src/lib.rs:1187-1203 | the same equivalence for every ring size from 1 to 2^31 |
| Ring.AdvanceConsumes | src/rask-liburing-sys/src/lib.rs:46-52 | moving the head on by `n` ready entries leaves exactly `n` fewer ready |
| Ring.PeekReportsOnlyTheHead | src/rask-liburing-sys/src/lib.rs:1247-1298 | the peek loop only reports the head slot of a non-empty ring that is no sentinel; an error only as the negative result of a sentinel, with no entry; an empty ring with no entry and no error |
| Ring.SentinelWaitsForEmptyRing | src/rask-liburing-sys/src/lib.rs:1276-1289 | on a sentinel with a non-negative result the loop ends, empty, exactly when a later `ktail` observation equals the head, and spins otherwise |
| Ring.WaitCqeOnEmptyRingReturnsNoEntry | src/rask-liburing-sys/src/lib.rs:1314-1320 | as written, `wait_cqe` on an empty ring with a non-null out-pointer returns 0 at once, with no entry |
| Ring.IntendedWaitReturnsAnEntry | src/rask-liburing-sys/src/lib.rs:1314-1320 | testing the entry instead, an immediate return always carries the head entry and an empty ring goes to the waiting call |
| Ring.ReadyAndSpaceLeftFillTheRing | src/rask-liburing-sys/src/lib.rs:1187-1203 | `sq_ready` and `space_left` add up to `ring_entries` |
| Ring.IoUringBufRing.constructor | src/rask-liburing-sys/src/lib.rs:1370-1388 | the buffer ring holds the given tail word and buffer slots |
| Ring.BufSlotBound | src/rask-liburing-sys/src/lib.rs:1370-1388 | the slot `(tail + offset) & mask` is non-negative and at most a non-negative mask |
| SqeCore.IoUringSqe.constructor | src/rask-liburing/src/core/sqe.rs:149-163 | a zero-filled record on a host of the given byte order |
| SqeCore.IoUringSqe.SetFlags | src/rask-liburing/src/core/sqe.rs:214-216 | the record becomes, from the record as it was, `flags` replaced, every other field kept (`SqeSpec.SetFlags`) |
| SqeCore.IoUringSqe.SetData | src/rask-liburing/src/core/sqe.rs:225-227 | the record becomes, from the record as it was, `user_data` replaced by the data word or the address, every other field kept (`SqeSpec.SetData64`) |
| SqeCore.IoUringSqe.SetData64 | src/rask-liburing/src/core/sqe.rs:236-238 | the record becomes, from the record as it was, `user_data` replaced by the data word or the address, every other field kept (`SqeSpec.SetData64`) |
| SqeCore.IoUringSqe.PrepRw | src/rask-liburing/src/core/sqe.rs:241-249 | the record becomes, from the record as it was, the header write: opcode, `fd`, `addr`, `len` and `off` as given, `flags` and `ioprio` cleared, every other field kept (`SqeSpec.Rw`) |
| SqeCore.IoUringSqe.PrepRwBuf | src/rask-liburing/src/core/sqe.rs:252-260 | the record becomes, from the record as it was, the header write: opcode, `fd`, `addr`, `len` and `off` as given, `flags` and `ioprio` cleared, every other field kept (`SqeSpec.Rw`) |
| SqeCore.IoUringSqe.PrepRwNull | src/rask-liburing/src/core/sqe.rs:263-271 | the record becomes, from the record as it was, the header write: opcode, `fd`, `addr`, `len` and `off` as given, `flags` and `ioprio` cleared, every other field kept (`SqeSpec.Rw`) |
| SqeCore.IoUringSqe.PrepSplice | src/rask-liburing/src/core/sqe.rs:281-295 | the record becomes, from the record as it was, splice: the output descriptor, offset and byte count in the header, the input offset in `splice_off_in`, the input descriptor in `splice_fd_in`, the splice flags (`SqeSpec.Splice`) |
| SqeCore.IoUringSqe.PrepTee | src/rask-liburing/src/core/sqe.rs:304-310 | the record becomes, from the record as it was, tee: a splice under its own opcode with both offsets 0 (`SqeSpec.Tee`) |
| SqeCore.IoUringSqe.PrepReadv | src/rask-liburing/src/core/sqe.rs:336-338 | the record becomes, from the record as it was, readv: descriptor, vector address, vector count and offset in the header (`SqeSpec.Readv`) |
| SqeCore.IoUringSqe.PrepReadv2 | src/rask-liburing/src/core/sqe.rs:361-364 | the record becomes, from the record as it was, readv with `rw_flags` set (`SqeSpec.Readv2`) |
| SqeCore.IoUringSqe.PrepReadFixed | src/rask-liburing/src/core/sqe.rs:373-376 | the record becomes, from the record as it was, read into a registered buffer: header as read, `buf_index` the low 16 bits of the index (`SqeSpec.ReadFixed`) |
| SqeCore.IoUringSqe.PrepWritev | src/rask-liburing/src/core/sqe.rs:402-404 | the record becomes, from the record as it was, writev: descriptor, vector address, vector count and offset in the header (`SqeSpec.Writev`) |
| SqeCore.IoUringSqe.PrepWritev2 | src/rask-liburing/src/core/sqe.rs:427-430 | the record becomes, from the record as it was, writev with `rw_flags` set (`SqeSpec.Writev2`) |
| SqeCore.IoUringSqe.PrepWriteFixed | src/rask-liburing/src/core/sqe.rs:439-442 | the record becomes, from the record as it was, write from a registered buffer: header as write, `buf_index` the low 16 bits of the index (`SqeSpec.WriteFixed`) |
| SqeCore.IoUringSqe.PrepRecvmsg | src/rask-liburing/src/core/sqe.rs:458-461 | the record becomes, from the record as it was, recvmsg: the message header address, `len` 1, offset 0, `msg_flags` (`SqeSpec.Recvmsg`) |
| SqeCore.IoUringSqe.PrepRecvmsgMultishot | src/rask-liburing/src/core/sqe.rs:490-493 | the record becomes, from the record as it was, recvmsg with `IORING_RECV_MULTISHOT` or-ed into `ioprio` (`SqeSpec.RecvmsgMultishot`) |
| SqeCore.IoUringSqe.PrepSendmsg | src/rask-liburing/src/core/sqe.rs:512-515 | the record becomes, from the record as it was, sendmsg: the message header address, `len` 1, offset 0, `msg_flags` (`SqeSpec.Sendmsg`) |
| SqeCore.IoUringSqe.PrepPollAdd | src/rask-liburing/src/core/sqe.rs:525-528 | the record becomes, from the record as it was, poll add: no address, length or offset, the mask through `to_le` in `poll32_events` (`SqeSpec.PollAdd`) |
| SqeCore.IoUringSqe.PrepPollMultishot | src/rask-liburing/src/core/sqe.rs:544-547 | the record becomes, from the record as it was, poll add with `len` set to `IORING_POLL_ADD_MULTI` (`SqeSpec.PollMultishot`) |
| SqeCore.IoUringSqe.PrepPollRemove | src/rask-liburing/src/core/sqe.rs:556-559 | the record becomes, from the record as it was, poll remove of the request carrying the given user data, descriptor -1 (`SqeSpec.PollRemove`) |
| SqeCore.IoUringSqe.PrepPollUpdate | src/rask-liburing/src/core/sqe.rs:568-578 | the record becomes, from the record as it was, poll update: old user data in `addr`, new user data in `off`, the update flags in `len`, the mask through `to_le` (`SqeSpec.PollUpdate`) |
| SqeCore.IoUringSqe.PrepFsync | src/rask-liburing/src/core/sqe.rs:596-599 | the record becomes, from the record as it was, fsync of the descriptor with the fsync flags (`SqeSpec.Fsync`) |
| SqeCore.IoUringSqe.PrepNop | src/rask-liburing/src/core/sqe.rs:605-607 | the record becomes, from the record as it was, a no-op: descriptor -1, no address, length or offset; the stale tail of the slot kept (`SqeSpec.Nop`) |
| SqeCore.IoUringSqe.PrepTimeout | src/rask-liburing/src/core/sqe.rs:630-633 | the record becomes, from the record as it was, timeout: the timespec address, `len` 1, the completion count zero-extended into `off`, the timeout flags (`SqeSpec.Timeout`) |
| SqeCore.IoUringSqe.PrepTimeoutRemove | src/rask-liburing/src/core/sqe.rs:642-646 | the record becomes, from the record as it was, timeout remove of the request carrying the given user data, with the flags (`SqeSpec.TimeoutRemove`) |
| SqeCore.IoUringSqe.PrepTimeoutUpdate | src/rask-liburing/src/core/sqe.rs:662-666 | the record becomes, from the record as it was, timeout update: a timeout-remove request with the new timespec in `off` and `IORING_TIMEOUT_UPDATE` or-ed into the flags (`SqeSpec.TimeoutUpdate`) |
| SqeCore.IoUringSqe.PrepAccept | src/rask-liburing/src/core/sqe.rs:677-692 | the record becomes, from the record as it was, accept: the descriptor, the address pointer, the address-length pointer in `off`, length 0, the accept flags (`SqeSpec.Accept`) |
| SqeCore.IoUringSqe.IoUringSetTargetFixedFile | src/rask-liburing/src/core/sqe.rs:695-697 | the record becomes, from the record as it was, `file_index` (in `union5`) becomes the index plus one, modulo 2^32 (`SqeSpec.SetTargetFixedFile`) |
| SqeCore.IoUringSqe.PrepAcceptDirect | src/rask-liburing/src/core/sqe.rs:729-745 | the record becomes, from the record as it was, accept with the direct-descriptor encoding of the file index in `file_index` (`SqeSpec.AcceptDirect`) |
| SqeCore.IoUringSqe.PrepMultishotAccept | src/rask-liburing/src/core/sqe.rs:766-775 | the record becomes, from the record as it was, accept with `IORING_ACCEPT_MULTISHOT` or-ed into `ioprio` (`SqeSpec.MultishotAccept`) |
| SqeCore.IoUringSqe.PrepMultishotAcceptDirect | src/rask-liburing/src/core/sqe.rs:819-828 | the record becomes, from the record as it was, multishot accept with the allocation request in `file_index` (`SqeSpec.MultishotAcceptDirect`) |
| SqeCore.IoUringSqe.PrepCancel64 | src/rask-liburing/src/core/sqe.rs:851-855 | the record becomes, from the record as it was, async cancel of the request carrying the given user data, descriptor -1, the cancel flags (`SqeSpec.Cancel64`) |
| SqeCore.IoUringSqe.PrepCancel | src/rask-liburing/src/core/sqe.rs:878-880 | the record becomes, from the record as it was, async cancel of the request carrying the given user data, descriptor -1, the cancel flags (`SqeSpec.Cancel64`) |
| SqeCore.IoUringSqe.PrepCancelFd | src/rask-liburing/src/core/sqe.rs:899-902 | the record becomes, from the record as it was, async cancel by descriptor: `IORING_ASYNC_CANCEL_FD` or-ed into the flags (`SqeSpec.CancelFd`) |
| SqeCore.IoUringSqe.PrepLinkTimeout | src/rask-liburing/src/core/sqe.rs:923-926 | the record becomes, from the record as it was, linked timeout: the timespec address, `len` 1, the flags (`SqeSpec.LinkTimeout`) |
| SqeCore.IoUringSqe.PrepConnect | src/rask-liburing/src/core/sqe.rs:935-937 | the record becomes, from the record as it was, connect: the address, length 0, the address length zero-extended into `off` (`SqeSpec.Connect`) |
| SqeCore.IoUringSqe.PrepFilesUpdate | src/rask-liburing/src/core/sqe.rs:952-954 | the record becomes, from the record as it was, files update: the descriptor array, its count, the offset sign-extended into `off` (`SqeSpec.FilesUpdate`) |
| SqeCore.IoUringSqe.PrepFallocate | src/rask-liburing/src/core/sqe.rs:963-966 | the record becomes, from the record as it was, fallocate: the mode in `len`, the offset in `off`, the length in `addr` (`SqeSpec.Fallocate`) |
| SqeCore.IoUringSqe.PrepOpenat | src/rask-liburing/src/core/sqe.rs:969-972 | the record becomes, from the record as it was, openat: directory descriptor, path address, mode in `len`, offset 0, `open_flags` (`SqeSpec.Openat`) |
| SqeCore.IoUringSqe.PrepOpenatDirect | src/rask-liburing/src/core/sqe.rs:975-991 | the record becomes, from the record as it was, openat with the direct-descriptor encoding of the file index (`SqeSpec.OpenatDirect`) |
| SqeCore.IoUringSqe.PrepClose | src/rask-liburing/src/core/sqe.rs:997-999 | the record becomes, from the record as it was, close of the descriptor, no address, length or offset (`SqeSpec.Close`) |
| SqeCore.IoUringSqe.PrepCloseDirect | src/rask-liburing/src/core/sqe.rs:1007-1010 | the record becomes, from the record as it was, close of descriptor 0 with `file_index` the slot plus one, unchecked (`SqeSpec.CloseDirect`) |
| SqeCore.IoUringSqe.PrepRead | src/rask-liburing/src/core/sqe.rs:1025-1027 | the record becomes, from the record as it was, read: descriptor, buffer, byte count and offset in the header (`SqeSpec.Read`) |
| SqeCore.IoUringSqe.PrepWrite | src/rask-liburing/src/core/sqe.rs:1042-1044 | the record becomes, from the record as it was, write: descriptor, buffer, byte count and offset in the header (`SqeSpec.Write`) |
| SqeCore.IoUringSqe.PrepSend | src/rask-liburing/src/core/sqe.rs:1058-1061 | the record becomes, from the record as it was, send: socket, buffer, length, offset 0, `msg_flags` (`SqeSpec.Send`) |
| SqeCore.IoUringSqe.PrepSendSetAddr | src/rask-liburing/src/core/sqe.rs:1067-1070 | the record becomes, from the record as it was, `addr2` the destination, the first two bytes of `union5` the address length, its last two bytes kept (`SqeSpec.SendSetAddr`) |
| SqeCore.IoUringSqe.PrepSendto | src/rask-liburing/src/core/sqe.rs:1083-1093 | the record becomes, from the record as it was, send followed by the destination address and its length (`SqeSpec.Sendto`) |
| SqeCore.IoUringSqe.PrepSendZc | src/rask-liburing/src/core/sqe.rs:1104-1108 | the record becomes, from the record as it was, zero-copy send: send under `IORING_OP_SEND_ZC` with the zero-copy flags in `ioprio` (`SqeSpec.SendZc`) |
| SqeCore.IoUringSqe.PrepSendZcFixed | src/rask-liburing/src/core/sqe.rs:1120-1131 | the record becomes, from the record as it was, zero-copy send with `IORING_RECVSEND_FIXED_BUF` or-ed into `ioprio` and the low 16 bits of the buffer index in `buf_index` (`SqeSpec.SendZcFixed`) |
| SqeCore.IoUringSqe.PrepSendmsgZc | src/rask-liburing/src/core/sqe.rs:1141-1144 | the record becomes, from the record as it was, sendmsg under the opcode `IORING_OP_SENDMSG_ZC` (`SqeSpec.SendmsgZc`) |
| SqeCore.IoUringSqe.PrepRecv | src/rask-liburing/src/core/sqe.rs:1165-1168 | the record becomes, from the record as it was, recv: socket, buffer, length, offset 0, `msg_flags` (`SqeSpec.Recv`) |
| SqeCore.IoUringSqe.PrepRecvMultishot | src/rask-liburing/src/core/sqe.rs:1197-1200 | the record becomes, from the record as it was, recv with `IORING_RECV_MULTISHOT` or-ed into `ioprio` (`SqeSpec.RecvMultishot`) |
| SqeCore.IoUringSqe.PrepMsgRingCqeFlags | src/rask-liburing/src/core/sqe.rs:1206-1217 | the record becomes, from the record as it was, ring message with `IORING_MSG_RING_FLAGS_PASS` or-ed into the flags and the completion flags in `union5` (`SqeSpec.MsgRingCqeFlags`) |
| SqeCore.IoUringSqe.PrepMsgRing | src/rask-liburing/src/core/sqe.rs:1220-1223 | the record becomes, from the record as it was, ring message to the ring descriptor: the length, the data in `off`, the flags (`SqeSpec.MsgRing`) |
| SqeCore.IoUringSqe.PrepMsgRingFd | src/rask-liburing/src/core/sqe.rs:1226-1249 | the record becomes, from the record as it was, descriptor-passing ring message: the command in `addr`, the source descriptor sign-extended in `addr3`, the target's direct-descriptor encoding in `file_index` (`SqeSpec.MsgRingFd`) |
| SqeCore.IoUringSqe.PrepMsgRingFdAlloc | src/rask-liburing/src/core/sqe.rs:1252-1254 | the record becomes, from the record as it was, descriptor-passing ring message: the command in `addr`, the source descriptor sign-extended in `addr3`, the allocation request in `file_index` (`SqeSpec.MsgRingFd`) |
| SqeCore.IoUringSqe.PrepSocket | src/rask-liburing/src/core/sqe.rs:1259-1262 | the record becomes, from the record as it was, socket: the domain in `fd`, the protocol in `len`, the type sign-extended into `off`, the flags (`SqeSpec.Socket`) |
| SqeCore.IoUringSqe.PrepSocketDirect | src/rask-liburing/src/core/sqe.rs:1265-1280 | the record becomes, from the record as it was, socket with the direct-descriptor encoding of the file index (`SqeSpec.SocketDirect`) |
| SqeCore.IoUringSqe.PrepSocketDirectAlloc | src/rask-liburing/src/core/sqe.rs:1283-1292 | the record becomes, from the record as it was, socket with the allocation request in `file_index` (`SqeSpec.SocketDirectAlloc`) |
| SqeProps.BaseHelperWritesHeaderOnly | src/rask-liburing/src/core/sqe.rs:241-271 | a base helper writes opcode, `fd`, `off`, `addr` and `len` as given, clears `flags` and `ioprio`, and keeps `user_data`, `op_flags`, `buf_index`, `personality`, `union5` and `union6` |
| SqeProps.NopKeepsStaleFields | src/rask-liburing/src/core/sqe.rs:605-607 | `prep_nop` sets the no-op header and keeps every field no base helper writes |
| SqeProps.NopAfterSpliceKeepsSpliceFields | src/rask-liburing/src/core/sqe.rs:605-607 | a no-op prepared over a splice still carries the splice's input descriptor and flags |
| SqeProps.SliceWireValues | src/rask-liburing/src/core/sqe.rs:252-260 | the stored address is null exactly when the slice is absent; an absent slice stores length 0, a present one its length cast to `u32` |
| SqeProps.LengthTruncation | src/rask-liburing/src/core/sqe.rs:252-260 | the `u32` cast of a length loses nothing exactly when the length is below 2^32 |
| SqeProps.PollAddFields | src/rask-liburing/src/core/sqe.rs:525-528 | opcode `POLL_ADD`, `len`, `off` and `addr` 0, and `poll32_events` in memory the little-endian bytes of the mask |
| SqeProps.PollMultishotIsPollAddWithMulti | src/rask-liburing/src/core/sqe.rs:544-547 | `prep_poll_multishot` equals `prep_poll_add` except `len == IORING_POLL_ADD_MULTI` |
| SqeProps.DirectFileIndexEncoding | src/rask-liburing/src/core/sqe.rs:729-745 | the stored index is `f + 1`, or `0xFFFF_FFFF` for the allocation request; it is never 0, and `stored - 1 == f` for every other `f` |
| SqeProps.DirectFileIndexCollision | src/rask-liburing/src/core/sqe.rs:729-745 | asking for slot `0xFFFF_FFFE` stores the same value as asking for allocation |
| SqeProps.AllocTargetStoresAlloc | src/rask-liburing/src/core/sqe.rs:819-828 | the `*_alloc` encoders store `IORING_FILE_INDEX_ALLOC` itself |
| SqeProps.AcceptDirectEncodesIndex | src/rask-liburing/src/core/sqe.rs:729-745 | `prep_accept_direct` is `prep_accept` with the encoded index in `file_index` |
| SqeProps.OpenatDirectEncodesIndex | src/rask-liburing/src/core/sqe.rs:975-991 | `prep_openat_direct` is `prep_openat` with the encoded index in `file_index` |
| SqeProps.SocketDirectEncodesIndex | src/rask-liburing/src/core/sqe.rs:1265-1292 | `prep_socket_direct` is `prep_socket` with the encoded index; `prep_socket_direct_alloc` is `prep_socket_direct` of the allocation request |
| SqeProps.MultishotAcceptDirectAllocates | src/rask-liburing/src/core/sqe.rs:819-828 | `prep_multishot_accept_direct` is `prep_multishot_accept` with the allocation request in `file_index` |
| SqeProps.CloseDirectAddsOne | src/rask-liburing/src/core/sqe.rs:1007-1010 | close of descriptor 0 with `file_index - 1 == f`; the largest index wraps to 0, every other one is the direct encoding |
| SqeProps.MultishotAcceptOnlySetsIoprio | src/rask-liburing/src/core/sqe.rs:766-775 | `prep_multishot_accept` is `prep_accept` except `ioprio == IORING_ACCEPT_MULTISHOT` |
| SqeProps.RecvMultishotOnlySetsIoprio | src/rask-liburing/src/core/sqe.rs:1197-1200 | the recv and recvmsg multishot encoders are their bases except `ioprio == IORING_RECV_MULTISHOT` |
| SqeProps.OrSetsBit | src/rask-liburing/src/core/sqe.rs:899-902 | or-ing a flag into a word sets that flag and keeps every other bit |
| SqeProps.TimeoutUpdateFields | src/rask-liburing/src/core/sqe.rs:662-666 | a timeout-remove request with `off` the timespec, `addr` the target, the update bit set and the caller's other flag bits kept |
| SqeProps.CancelFdFields | src/rask-liburing/src/core/sqe.rs:899-902 | an async cancel on the descriptor with `IORING_ASYNC_CANCEL_FD` set and the caller's other bits kept |
| SqeProps.SpliceAndTeeFields | src/rask-liburing/src/core/sqe.rs:281-310 | splice stores the output side in the header and the input side in `splice_off_in`/`splice_fd_in`; tee is a splice with both offsets 0 under `IORING_OP_TEE` |
| SqeProps.ZeroCopyVariants | src/rask-liburing/src/core/sqe.rs:1104-1144 | `send_zc_fixed` yields `ioprio == zc_flags as u16 | FIXED_BUF` and `buf_index == index as u16`, else equal to `send_zc`; `sendmsg_zc` is `sendmsg` under the zero-copy opcode |
| SqeProps.MsgRingFdFields | src/rask-liburing/src/core/sqe.rs:1226-1254 | the command in `addr`, the source descriptor sign-extended in `addr3`, the target's direct encoding in `file_index`; the two bindings' `addr` values are the only difference; the alloc variant stores the allocation request |
| SqeProps.MsgRingCqeFlagsFields | src/rask-liburing/src/core/sqe.rs:1206-1223 | the pass flag is set and the completion flags sit in `union5`; otherwise it is `prep_msg_ring` with the pass flag |
| SqeProps.SendtoFields | src/rask-liburing/src/core/sqe.rs:1067-1093 | `prep_sendto` is `prep_send` with `addr2` the destination and `addr_len` in the first two bytes of `union5`, whose last two bytes are kept |
| SqeProps.ZeroExtendedOffsets | src/rask-liburing/src/core/sqe.rs:630-633 | a timeout count and a connect address length are zero-extended into `off` |
| SqeProps.FilesUpdateSignExtendsOffset | src/rask-liburing/src/core/sqe.rs:952-954 | a files-update offset is sign-extended into `off` |
| SqeProps.SocketSignExtendsType | src/rask-liburing/src/core/sqe.rs:1259-1262 | the socket type is sign-extended into `off` and the protocol stored in `len` |
| SqeProps.AcceptScenario | src/rask-liburing/src/core/sqe.rs:677-692 | accept on descriptor 7 of a zeroed record sets only the opcode and the descriptor |
| SqeProps.PollScenario | src/rask-liburing/src/core/sqe.rs:525-547 | a `POLLIN` poll on descriptor 3, re-prepared as multishot, differs only in `len`; on a big-endian host the stored word is byte-swapped |
| Submission.SubmissionEntry.New | src/rask-liburing/src/submission_entry.rs:29-31 | wraps the given record |
| Submission.SubmissionEntry.SetUserData | src/rask-liburing/src/submission_entry.rs:34-37 | the record becomes `SetData64` of the record as it was, and the entry itself is returned |
| Submission.SubmissionEntry.PrepAccept | src/rask-liburing/src/submission_entry.rs:44-54 | the record becomes `Accept` with null address, null length pointer and no flags; the entry itself is returned |
| Submission.SubmissionEntry.PrepAcceptMulti | src/rask-liburing/src/submission_entry.rs:65-75 | the record becomes `MultishotAccept` with the same arguments; the entry itself is returned |
| Submission.SubmissionEntry.PrepRecv | src/rask-liburing/src/submission_entry.rs:83-87 | the record becomes `Recv` over the buffer's address and its length as `u32`, no flags; the entry itself is returned |
| Submission.SubmissionEntry.PrepSend | src/rask-liburing/src/submission_entry.rs:94-98 | the record becomes `Send` over the buffer's address and its length as `u32`, no flags; the entry itself is returned |
| Submission.SubmissionEntry.PrepClose | src/rask-liburing/src/submission_entry.rs:103-106 | the record becomes `Close` of the descriptor; the entry itself is returned |
| Submission.UserDataOnly | src/rask-liburing/src/submission_entry.rs:34-37 | `set_user_data` writes `user_data` and nothing else |
| Submission.AcceptEntryFields | src/rask-liburing/src/submission_entry.rs:44-54 | opcode `ACCEPT`, the descriptor, `addr`, `off`, `len`, `accept_flags`, `flags`, `ioprio` all 0, every other field as before |
| Submission.AcceptMultiIsAcceptWithMultishot | src/rask-liburing/src/submission_entry.rs:65-75 | `prep_accept_multi` is `prep_accept` with `ioprio` exactly `IORING_ACCEPT_MULTISHOT` |
| Submission.RecvAndSendEntryFields | src/rask-liburing/src/submission_entry.rs:83-98 | recv and send store the buffer's address and length as `u32`, with `off` and `msg_flags` 0 |
| Submission.CloseEntryFields | src/rask-liburing/src/submission_entry.rs:103-106 | opcode `CLOSE`, the descriptor, `len`, `addr` and `off` 0 |
| Submission.AcceptWithUserData | src/rask-liburing/src/submission_entry.rs:34-54 | chaining `prep_accept` and `set_user_data` on one entry gives the accept record with the new `user_data` |

## Left out

- Memory ordering: every `Acquire`, `Release` or `Relaxed` load and store is a plain read or write of a cell; SQPOLL branches that differ only in ordering read the same word.
- System calls and foreign library calls enter only as their returned integers:
  - `io_uring_queue_init` is the `initResult` of `Liburing.IoUring.New`;
  - `io_uring_enter` is the `enter` function parameter;
  - `__io_uring_get_cqe` is the `Delegated` outcome of `PeekCall`;
  - `__io_uring_sqring_wait` is the `wait` parameter of `IoUringSqringWait`.
- `io_uring_queue_exit` and the `Drop` of `liburing`'s `IoUring` are foreign calls with no state in the model.
- Raw pointers, `NonNull` casts and lifetimes are not modelled. Addresses are opaque `u64` values and ring entries are slot indices. This also covers:
  - `get_data_t`;
  - the address of the local `Option` reference that `accept` passes;
  - the address of the `OsString` that `openat` passes;
  - the temporary whose address `msg_ring_fd` stores. Its value `cmdTemp` is a parameter.
- `IoUringSqe`, `CompletionEntry` and `CompletionQueue::next` hand out slot indices rather than references into the ring. `CqeCore` does not model the extra 16 bytes of a `CQE32` completion.
- The bindgen-generated structs are not part of this model. The `Ring` classes carry the fields the ring helpers read, and one set of classes serves the safe rewrite and both bindings.
- `io_uring_buf_ring.bufs` is the kernel's array of buffer slots; it is the sequence `bufs` here. The `bufs.as_mut()` through which both bindings' `buf_ring_add` index it is modelled as bindgen generates it for a zero-length array member of a union: a reference to `[io_uring_buf; 0]` (see Findings).
- Submission.SubmissionEntry.PrepAccept and Submission.SubmissionEntry.PrepAcceptMulti: the source passes `ptr::null_mut()` for the address and length arguments, which the binding types as `Option<&mut sockaddr>` and `Option<&mut socklen_t>`; the call does not type-check as written, and the model reads those arguments as `None`, so null addresses are stored.
- `io_uring_probe.ops` is the kernel's trailing array of probe entries; it is a sequence here, and a failed Rust bounds check is a panic outcome. The field `.1` through which both bindings index it is modelled as bindgen generates it for a C flexible array member: the zero-length array inside `__IncompleteArrayField` (see Findings).
- Size and alignment tests of the ring structs concern Rust pointer layout and are not modelled.
- `src/liburing/src/submission_entry.rs` is not part of this model. `Liburing.IoUring.GetSqe` returns the slot index where the source wraps the record.
- `rask-liburing`'s `CompletionEntry` type is not shown. `CompletionQueues.CompletionQueue.Next` returns the slot it would wrap. When that slot is past the ring, the source reads memory through an unchecked `cqes.offset`; the model returns the slot and does not model what such a read yields.
- Debug-build overflow traps on `+` and `-` are not modelled: every counter wraps.
- The kernel-side layout places the buffer-ring tail on top of `bufs[0].resv`. This is not modelled: the tail is a separate cell. Relatedly, `RaskSysRing.IoUringBufRingCqAdvance` and `LiburingSysRing.IoUringBufRingCqAdvance` (and their `Internal` forms) require the tail cell to be distinct from `khead`, because Dafny cannot tell a `Cell<u16>` from a `Cell<Counter>`.
- Ring.BufSlotBound: states only that one `buf_ring_add` slot lies in the ring. That the slot after `buf_ring_advance(n)` is the slot `n` further on is not proved.
- Ring.PowerOfTwoBounds and Ring.RoomIffSpaceLeft take `ring_entries` to be a power of two, which the kernel guarantees and the source assumes.
- Liburing.EnterKeepsTheTotal: the exact (non-modular) conservation of `unsubmitted + in_flight` needs `accepted <= unsubmitted` and no overflow; without these only `Liburing.EnterKeepsTheTotalModulo` holds.
- RaskSysPrep.SetDataGetDataRoundTrip: follows the address through the record only; what `io_uring_cqe_get_data` points at is not modelled.
- Concurrency with the kernel is not modelled beyond the observed sequence of `ktail` values.
- Not modelled (context outside the ring protocol):
  - `src/worker.rs` — an HTTP worker over channels;
  - `src/rask-core/src/sys/unix/tcp.rs` — socket system calls;
  - the build script;
  - the example server.

## Findings

| source | as written | input that shows it | evidently intended | confidence | as-written member | corrected member |
|---|---|---|---|---|---|---|
| src/rask-liburing-sys/src/lib.rs:1303-1320 (and src/liburing-sys/src/lib.rs:1031-1048) | `io_uring_peek_cqe` and `io_uring_wait_cqe` return 0 at once when the peek left `err == 0` and `cqe_ptr` (the out-pointer) is non-null | an empty completion ring (`ktail == khead`) and any non-null `cqe_ptr`: the peek stores a null entry, and the call returns 0 with no entry and no wait | return at once only when `*cqe_ptr` is non-null, otherwise wait through `io_uring_wait_cqe_nr` | not executed | Ring.WaitCqeOnEmptyRingReturnsNoEntry | Ring.IntendedWaitReturnsAnEntry |
| src/rask-liburing-sys/src/lib.rs:26-32 (and src/liburing-sys/src/lib.rs:56-62) | `io_uring_opcode_supported` indexes `ops.1`, which bindgen's `__IncompleteArrayField` makes a `[io_uring_probe_op; 0]` | `last_op` 49, opcode 0, entry 0 with the supported bit set: index 0 is outside the zero-length array and the call panics | read the entry from the kernel's array (`ops.as_slice(len)[op]`) and return its supported bit | not executed | RaskSysRing.OpcodeZeroPanics | RaskSysRing.IoUringOpcodeSupportedIntended |
| src/rask-liburing-sys/src/lib.rs:1370-1388 (and src/liburing-sys/src/lib.rs:1094-1112) | `io_uring_buf_ring_add` indexes `bufs.as_mut()`, which for the header's `bufs[0]` inside a union bindgen makes a `&mut [io_uring_buf; 0]` | tail 0, offset 0, mask 0: index 0 is outside the zero-length array and the call panics before any write | write address, length and id into the kernel's slot `(tail + offset) & mask` | not executed | RaskSysRing.IoUringBufRingAdd | RaskSysRing.IoUringBufRingAddIntended |
| src/rask-liburing/src/completion_queue.rs:36-38 | `CompletionQueue::next` always computes `(head & ring_mask) << 1`, whatever size the ring's completions have | a four-entry ring without `IORING_SETUP_CQE32`, one completion posted, head 1: `next` reads slot 2, not 1; with head 2 it reads slot 4, past the four mapped entries | shift by `CqeShift(flags)`, as the peek loops do | not executed | CompletionQueues.DoubledIndexMisreads | CompletionQueues.CompletionQueue.NextIntended |
