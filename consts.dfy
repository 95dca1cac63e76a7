/** The constant table of the ring protocol: opcodes, submission flag bits, setup flags, per-operation
    flags, mmap offsets and feature bits, with the values the encoders and the rings use. A negative
    `i32` constant is written as its two's-complement bit pattern. */
module Consts {
  import opened Abi

  // Submission flag bit numbers (sqe.rs).
  const IOSQE_FIXED_FILE_BIT: u32 := 0
  const IOSQE_IO_DRAIN_BIT: u32 := 1
  const IOSQE_IO_LINK_BIT: u32 := 2
  const IOSQE_IO_HARDLINK_BIT: u32 := 3
  const IOSQE_ASYNC_BIT: u32 := 4
  const IOSQE_BUFFER_SELECT_BIT: u32 := 5
  const IOSQE_CQE_SKIP_SUCCESS_BIT: u32 := 6

  // Operation codes (sqe.rs).
  const IORING_OP_NOP: u8 := 0
  const IORING_OP_READV: u8 := 1
  const IORING_OP_WRITEV: u8 := 2
  const IORING_OP_FSYNC: u8 := 3
  const IORING_OP_READ_FIXED: u8 := 4
  const IORING_OP_WRITE_FIXED: u8 := 5
  const IORING_OP_POLL_ADD: u8 := 6
  const IORING_OP_POLL_REMOVE: u8 := 7
  const IORING_OP_SYNC_FILE_RANGE: u8 := 8
  const IORING_OP_SENDMSG: u8 := 9
  const IORING_OP_RECVMSG: u8 := 10
  const IORING_OP_TIMEOUT: u8 := 11
  const IORING_OP_TIMEOUT_REMOVE: u8 := 12
  const IORING_OP_ACCEPT: u8 := 13
  const IORING_OP_ASYNC_CANCEL: u8 := 14
  const IORING_OP_LINK_TIMEOUT: u8 := 15
  const IORING_OP_CONNECT: u8 := 16
  const IORING_OP_FALLOCATE: u8 := 17
  const IORING_OP_OPENAT: u8 := 18
  const IORING_OP_CLOSE: u8 := 19
  const IORING_OP_FILES_UPDATE: u8 := 20
  const IORING_OP_STATX: u8 := 21
  const IORING_OP_READ: u8 := 22
  const IORING_OP_WRITE: u8 := 23
  const IORING_OP_FADVISE: u8 := 24
  const IORING_OP_MADVISE: u8 := 25
  const IORING_OP_SEND: u8 := 26
  const IORING_OP_RECV: u8 := 27
  const IORING_OP_OPENAT2: u8 := 28
  const IORING_OP_EPOLL_CTL: u8 := 29
  const IORING_OP_SPLICE: u8 := 30
  const IORING_OP_PROVIDE_BUFFERS: u8 := 31
  const IORING_OP_REMOVE_BUFFERS: u8 := 32
  const IORING_OP_TEE: u8 := 33
  const IORING_OP_SHUTDOWN: u8 := 34
  const IORING_OP_RENAMEAT: u8 := 35
  const IORING_OP_UNLINKAT: u8 := 36
  const IORING_OP_MKDIRAT: u8 := 37
  const IORING_OP_SYMLINKAT: u8 := 38
  const IORING_OP_LINKAT: u8 := 39
  const IORING_OP_MSG_RING: u8 := 40
  const IORING_OP_FSETXATTR: u8 := 41
  const IORING_OP_SETXATTR: u8 := 42
  const IORING_OP_FGETXATTR: u8 := 43
  const IORING_OP_GETXATTR: u8 := 44
  const IORING_OP_SOCKET: u8 := 45
  const IORING_OP_URING_CMD: u8 := 46
  const IORING_OP_SEND_ZC: u8 := 47
  const IORING_OP_SENDMSG_ZC: u8 := 48
  const IORING_OP_LAST: u8 := 49

  // Commands carried by a ring-to-ring message (sqe.rs).
  const IORING_MSG_DATA: u8 := 0
  const IORING_MSG_SEND_FD: u8 := 1

  // Setup, operation-flag, mmap-offset, ring-flag, enter and feature constants (core/mod.rs).
  const IORING_FILE_INDEX_ALLOC: i32 := 0xFFFFFFFF  // -1
  const IORING_SETUP_IOPOLL: u32 := 1
  const IORING_SETUP_SQPOLL: u32 := 2
  const IORING_SETUP_SQ_AFF: u32 := 4
  const IORING_SETUP_CQSIZE: u32 := 8
  const IORING_SETUP_CLAMP: u32 := 16
  const IORING_SETUP_ATTACH_WQ: u32 := 32
  const IORING_SETUP_R_DISABLED: u32 := 64
  const IORING_SETUP_SUBMIT_ALL: u32 := 128
  const IORING_SETUP_COOP_TASKRUN: u32 := 256
  const IORING_SETUP_TASKRUN_FLAG: u32 := 512
  const IORING_SETUP_SQE128: u32 := 1024
  const IORING_SETUP_CQE32: u32 := 2048
  const IORING_SETUP_SINGLE_ISSUER: u32 := 4096
  const IORING_SETUP_DEFER_TASKRUN: u32 := 8192
  const IORING_URING_CMD_FIXED: u32 := 1
  const IORING_FSYNC_DATASYNC: u32 := 1
  const IORING_TIMEOUT_ABS: u32 := 1
  const IORING_TIMEOUT_UPDATE: u32 := 2
  const IORING_TIMEOUT_BOOTTIME: u32 := 4
  const IORING_TIMEOUT_REALTIME: u32 := 8
  const IORING_LINK_TIMEOUT_UPDATE: u32 := 16
  const IORING_TIMEOUT_ETIME_SUCCESS: u32 := 32
  const IORING_TIMEOUT_MULTISHOT: u32 := 64
  const IORING_TIMEOUT_CLOCK_MASK: u32 := 12
  const IORING_TIMEOUT_UPDATE_MASK: u32 := 18
  const IORING_POLL_ADD_MULTI: u32 := 1
  const IORING_POLL_UPDATE_EVENTS: u32 := 2
  const IORING_POLL_UPDATE_USER_DATA: u32 := 4
  const IORING_POLL_ADD_LEVEL: u32 := 8
  const IORING_ASYNC_CANCEL_ALL: u32 := 1
  const IORING_ASYNC_CANCEL_FD: u32 := 2
  const IORING_ASYNC_CANCEL_ANY: u32 := 4
  const IORING_ASYNC_CANCEL_FD_FIXED: u32 := 8
  const IORING_RECVSEND_POLL_FIRST: u32 := 1
  const IORING_RECV_MULTISHOT: u32 := 2
  const IORING_RECVSEND_FIXED_BUF: u32 := 4
  const IORING_SEND_ZC_REPORT_USAGE: u32 := 8
  const IORING_NOTIF_USAGE_ZC_COPIED: u32 := 2147483648
  const IORING_ACCEPT_MULTISHOT: u32 := 1
  const IORING_MSG_RING_CQE_SKIP: u32 := 1
  const IORING_MSG_RING_FLAGS_PASS: u32 := 2
  const IORING_CQE_F_BUFFER: u32 := 1
  const IORING_CQE_F_MORE: u32 := 2
  const IORING_CQE_F_SOCK_NONEMPTY: u32 := 4
  const IORING_CQE_F_NOTIF: u32 := 8
  const IORING_OFF_SQ_RING: u32 := 0
  const IORING_OFF_CQ_RING: u32 := 134217728
  const IORING_OFF_SQES: u32 := 268435456
  const IORING_OFF_PBUF_RING: u32 := 2147483648
  const IORING_OFF_PBUF_SHIFT: u32 := 16
  const IORING_OFF_MMAP_MASK: u32 := 4160749568
  const IORING_SQ_NEED_WAKEUP: u32 := 1
  const IORING_SQ_CQ_OVERFLOW: u32 := 2
  const IORING_SQ_TASKRUN: u32 := 4
  const IORING_CQ_EVENTFD_DISABLED: u32 := 1
  const IORING_ENTER_GETEVENTS: u32 := 1
  const IORING_ENTER_SQ_WAKEUP: u32 := 2
  const IORING_ENTER_SQ_WAIT: u32 := 4
  const IORING_ENTER_EXT_ARG: u32 := 8
  const IORING_ENTER_REGISTERED_RING: u32 := 16
  const IORING_FEAT_SINGLE_MMAP: u32 := 1
  const IORING_FEAT_NODROP: u32 := 2
  const IORING_FEAT_SUBMIT_STABLE: u32 := 4
  const IORING_FEAT_RW_CUR_POS: u32 := 8
  const IORING_FEAT_CUR_PERSONALITY: u32 := 16
  const IORING_FEAT_FAST_POLL: u32 := 32
  const IORING_FEAT_POLL_32BITS: u32 := 64
  const IORING_FEAT_SQPOLL_NONFIXED: u32 := 128
  const IORING_FEAT_EXT_ARG: u32 := 256
  const IORING_FEAT_NATIVE_WORKERS: u32 := 512
  const IORING_FEAT_RSRC_TAGS: u32 := 1024
  const IORING_FEAT_CQE_SKIP: u32 := 2048
  const IORING_FEAT_LINKED_FILE: u32 := 4096
  const IORING_FEAT_REG_REG_RING: u32 := 8192
  const IORING_RSRC_REGISTER_SPARSE: u32 := 1
  const IORING_REGISTER_FILES_SKIP: i32 := 0xFFFFFFFE  // -2

  /** The flag of a probe entry that marks an operation as supported. */
  const IO_URING_OP_SUPPORTED: u32 := 1

  /** The `user_data` liburing reserves for its internal timeout completions: `u64::MAX`. */
  const LIBURING_UDATA_TIMEOUT: u64 := 0xFFFF_FFFF_FFFF_FFFF

  /** `IORING_FILE_INDEX_ALLOC` is `-1`: adding one wraps it to zero, and as a `u32` it is
      `0xFFFF_FFFF`, the value the direct-descriptor encoders compare a file index against. */
  lemma FileIndexAllocIsMinusOne()
    ensures IORING_FILE_INDEX_ALLOC + 1 == 0
    ensures Negative(IORING_FILE_INDEX_ALLOC)
    ensures IORING_FILE_INDEX_ALLOC == 0xFFFF_FFFF
  {
  }

  /** The clock mask selects exactly the two clock bits of a timeout. */
  lemma TimeoutClockMask()
    ensures IORING_TIMEOUT_CLOCK_MASK == IORING_TIMEOUT_BOOTTIME | IORING_TIMEOUT_REALTIME
    ensures IORING_TIMEOUT_BOOTTIME & IORING_TIMEOUT_REALTIME == 0
    ensures IORING_TIMEOUT_CLOCK_MASK == 12
  {
  }

  /** The update mask selects exactly the two update bits of a timeout. */
  lemma TimeoutUpdateMask()
    ensures IORING_TIMEOUT_UPDATE_MASK == IORING_TIMEOUT_UPDATE | IORING_LINK_TIMEOUT_UPDATE
    ensures IORING_TIMEOUT_UPDATE & IORING_LINK_TIMEOUT_UPDATE == 0
    ensures IORING_TIMEOUT_UPDATE_MASK == 18
  {
  }

  /** The setup flags in declaration order. */
  const SetupFlags: seq<u32> := [
    IORING_SETUP_IOPOLL, IORING_SETUP_SQPOLL, IORING_SETUP_SQ_AFF, IORING_SETUP_CQSIZE,
    IORING_SETUP_CLAMP, IORING_SETUP_ATTACH_WQ, IORING_SETUP_R_DISABLED, IORING_SETUP_SUBMIT_ALL,
    IORING_SETUP_COOP_TASKRUN, IORING_SETUP_TASKRUN_FLAG, IORING_SETUP_SQE128, IORING_SETUP_CQE32,
    IORING_SETUP_SINGLE_ISSUER, IORING_SETUP_DEFER_TASKRUN]

  /** The n-th setup flag is the single bit `1 << n`, so no two setup flags share a bit. */
  lemma SetupFlagsAreDistinctBits()
    ensures |SetupFlags| == 14
    ensures forall n :: 0 <= n < |SetupFlags| ==> SetupFlags[n] == 1 << n
    ensures forall m, n :: 0 <= m < n < |SetupFlags| ==> SetupFlags[m] & SetupFlags[n] == 0
  {
  }

  /** The mmap offsets of the completion ring, the submission entries and the provided-buffer rings
      lie inside the offset mask, so the kernel can tell them apart by their high bits. */
  lemma MmapOffsetsInsideMask()
    ensures IORING_OFF_CQ_RING & IORING_OFF_MMAP_MASK == IORING_OFF_CQ_RING
    ensures IORING_OFF_SQES & IORING_OFF_MMAP_MASK == IORING_OFF_SQES
    ensures IORING_OFF_PBUF_RING & IORING_OFF_MMAP_MASK == IORING_OFF_PBUF_RING
    ensures IORING_OFF_SQ_RING != IORING_OFF_CQ_RING && IORING_OFF_CQ_RING != IORING_OFF_SQES
  {
  }
}
