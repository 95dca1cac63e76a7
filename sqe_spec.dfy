/** The 64-byte submission record as a value, and one reference encoder per `prep_*` helper.
    Each encoder maps the record as it was before the call (a reused slot keeps whatever the
    previous request left in it) to the record after the call. The three encoder families of the
    repository (the safe `IoUringSqe` methods, the reference-taking bindings and the pointer-taking
    bindings) are each proved to compute these functions. Arguments appear as the values the record
    receives: an address, a length, a flag word. */
module SqeSpec {
  import opened Abi
  import opened Consts

  /** The fields of `io_uring_sqe`. Every union is one field of the union's width:
      `union1` holds `off`/`addr2`/`cmd_op`, `union2` holds `addr`/`splice_off_in`, `opFlags` holds
      `rw_flags`, `poll32_events`, `msg_flags`, `timeout_flags` and the other per-operation flag
      words, `bufferSelect` holds `buf_index`/`buf_group`, `union5` holds `splice_fd_in`,
      `file_index` and `addr_len` (its first two bytes), and `addr3`/`pad2` make up `union6`. */
  datatype SqeFields = SqeFields(
    opcode: u8,
    flags: u8,
    ioprio: u16,
    fd: i32,
    union1: u64,
    union2: u64,
    len: u32,
    opFlags: u32,
    userData: u64,
    bufferSelect: u16,
    personality: u16,
    union5: u32,
    addr3: u64,
    pad2: u64)

  /** The all-zero record. */
  const Zeroed: SqeFields := SqeFields(0, 0, 0, 0, 0, 0, 0, 0, 0, 0, 0, 0, 0, 0)

  /** What a Rust slice contributes to a record: the address of its first element and its length. */
  datatype Slice = Slice(ptr: Ref, len: usize)

  /** `-1` as an `i32`: the descriptor of requests that do not name a file. */
  const NO_FD: i32 := 0xFFFF_FFFF

  /** `(IORING_FILE_INDEX_ALLOC - 1) as u32`, the target the `*_alloc` encoders hand to
      `io_uring_set_target_fixed_file`. */
  const ALLOC_TARGET: u32 := IORING_FILE_INDEX_ALLOC - 1

  /** The fields no base helper writes. */
  predicate TailKept(a: SqeFields, b: SqeFields)
  {
    a.userData == b.userData && a.opFlags == b.opFlags && a.bufferSelect == b.bufferSelect &&
    a.personality == b.personality && a.union5 == b.union5 && a.addr3 == b.addr3 && a.pad2 == b.pad2
  }

  // ---------------------------------------------------------------- base helpers

  /** The common header write of `prep_rw`, `prep_rw_buf` and `prep_rw_null`. */
  function Rw(p: SqeFields, op: u8, fd: i32, addr: Addr, len: u32, off: u64): SqeFields
  {
    p.(opcode := op, flags := 0, ioprio := 0, fd := fd, union1 := off, union2 := addr, len := len)
  }

  /** The address `prep_rw` stores for an optional reference: null when absent. */
  function RefAddr(r: Option<Ref>): Addr
  {
    if r.Some? then r.value else NULL
  }

  /** The address `prep_rw_buf` stores for an optional slice: null when absent. */
  function BufAddr(b: Option<Slice>): Addr
  {
    if b.Some? then b.value.ptr else NULL
  }

  /** The length `prep_rw_buf` stores: the slice length cast to `u32`, 0 when absent. */
  function BufLen(b: Option<Slice>): u32
  {
    if b.Some? then U64ToU32(b.value.len) else 0
  }

  function SetFlags(p: SqeFields, f: u8): SqeFields
  {
    p.(flags := f)
  }

  function SetData64(p: SqeFields, data: u64): SqeFields
  {
    p.(userData := data)
  }

  /** `io_uring_set_target_fixed_file`: the kernel reads `file_index - 1` as the slot. */
  function SetTargetFixedFile(p: SqeFields, fileIndex: u32): SqeFields
  {
    p.(union5 := fileIndex + 1)
  }

  /** The rebinding the direct encoders apply first: `IORING_FILE_INDEX_ALLOC` is lowered by one so
      that the `+ 1` of `SetTargetFixedFile` gives it back unchanged. */
  function DirectTarget(fileIndex: u32): u32
  {
    if fileIndex == IORING_FILE_INDEX_ALLOC then fileIndex - 1 else fileIndex
  }

  /** The `union5.file_index` a direct encoder stores for a requested file index. */
  function StoredFileIndex(fileIndex: u32): u32
  {
    DirectTarget(fileIndex) + 1
  }

  function WithIoprioBits(p: SqeFields, bits: u16): SqeFields
  {
    p.(ioprio := p.ioprio | bits)
  }

  // ---------------------------------------------------------------- encoders

  function Splice(p: SqeFields, fdIn: i32, offIn: i64, fdOut: i32, offOut: i64, nbytes: u32,
                  spliceFlags: u32): SqeFields
  {
    Rw(p, IORING_OP_SPLICE, fdOut, NULL, nbytes, offOut).(union2 := offIn, union5 := fdIn,
                                                           opFlags := spliceFlags)
  }

  function Tee(p: SqeFields, fdIn: i32, fdOut: i32, nbytes: u32, spliceFlags: u32): SqeFields
  {
    Rw(p, IORING_OP_TEE, fdOut, NULL, nbytes, 0).(union2 := 0, union5 := fdIn, opFlags := spliceFlags)
  }

  function Readv(p: SqeFields, fd: i32, iovecs: Addr, nrVecs: u32, offset: u64): SqeFields
  {
    Rw(p, IORING_OP_READV, fd, iovecs, nrVecs, offset)
  }

  function Readv2(p: SqeFields, fd: i32, iovecs: Addr, nrVecs: u32, offset: u64, rwFlags: i32): SqeFields
  {
    Readv(p, fd, iovecs, nrVecs, offset).(opFlags := rwFlags)
  }

  function ReadFixed(p: SqeFields, fd: i32, buf: Addr, nbytes: u32, offset: u64, bufIndex: i32): SqeFields
  {
    Rw(p, IORING_OP_READ_FIXED, fd, buf, nbytes, offset).(bufferSelect := U32ToU16(bufIndex))
  }

  function Writev(p: SqeFields, fd: i32, iovecs: Addr, nrVecs: u32, offset: u64): SqeFields
  {
    Rw(p, IORING_OP_WRITEV, fd, iovecs, nrVecs, offset)
  }

  function Writev2(p: SqeFields, fd: i32, iovecs: Addr, nrVecs: u32, offset: u64, rwFlags: i32): SqeFields
  {
    Writev(p, fd, iovecs, nrVecs, offset).(opFlags := rwFlags)
  }

  function WriteFixed(p: SqeFields, fd: i32, buf: Addr, nbytes: u32, offset: u64, bufIndex: i32): SqeFields
  {
    Rw(p, IORING_OP_WRITE_FIXED, fd, buf, nbytes, offset).(bufferSelect := U32ToU16(bufIndex))
  }

  function Recvmsg(p: SqeFields, fd: i32, msg: Addr, msgFlags: u32): SqeFields
  {
    Rw(p, IORING_OP_RECVMSG, fd, msg, 1, 0).(opFlags := msgFlags)
  }

  function RecvmsgMultishot(p: SqeFields, fd: i32, msg: Addr, msgFlags: u32): SqeFields
  {
    WithIoprioBits(Recvmsg(p, fd, msg, msgFlags), U32ToU16(IORING_RECV_MULTISHOT))
  }

  function Sendmsg(p: SqeFields, fd: i32, msg: Addr, msgFlags: u32): SqeFields
  {
    Rw(p, IORING_OP_SENDMSG, fd, msg, 1, 0).(opFlags := msgFlags)
  }

  function PollAdd(p: SqeFields, fd: i32, pollMask: u32, host: Endian): SqeFields
  {
    Rw(p, IORING_OP_POLL_ADD, fd, NULL, 0, 0).(opFlags := ToLe32(pollMask, host))
  }

  function PollMultishot(p: SqeFields, fd: i32, pollMask: u32, host: Endian): SqeFields
  {
    PollAdd(p, fd, pollMask, host).(len := IORING_POLL_ADD_MULTI)
  }

  function PollRemove(p: SqeFields, userData: u64): SqeFields
  {
    Rw(p, IORING_OP_POLL_REMOVE, NO_FD, NULL, 0, 0).(union2 := userData)
  }

  function PollUpdate(p: SqeFields, oldUserData: u64, newUserData: u64, pollMask: u32, flags: u32,
                      host: Endian): SqeFields
  {
    Rw(p, IORING_OP_POLL_REMOVE, NO_FD, NULL, flags, newUserData).(union2 := oldUserData,
                                                                  opFlags := ToLe32(pollMask, host))
  }

  function Fsync(p: SqeFields, fd: i32, fsyncFlags: u32): SqeFields
  {
    Rw(p, IORING_OP_FSYNC, fd, NULL, 0, 0).(opFlags := fsyncFlags)
  }

  function Nop(p: SqeFields): SqeFields
  {
    Rw(p, IORING_OP_NOP, NO_FD, NULL, 0, 0)
  }

  function Timeout(p: SqeFields, ts: Addr, count: u32, flags: u32): SqeFields
  {
    Rw(p, IORING_OP_TIMEOUT, NO_FD, ts, 1, U32ToU64(count)).(opFlags := flags)
  }

  function TimeoutRemove(p: SqeFields, userData: u64, flags: u32): SqeFields
  {
    Rw(p, IORING_OP_TIMEOUT_REMOVE, NO_FD, NULL, 0, 0).(union2 := userData, opFlags := flags)
  }

  function TimeoutUpdate(p: SqeFields, ts: Addr, userData: u64, flags: u32): SqeFields
  {
    Rw(p, IORING_OP_TIMEOUT_REMOVE, NO_FD, NULL, 0, ts).(union2 := userData,
                                                        opFlags := flags | IORING_TIMEOUT_UPDATE)
  }

  function Accept(p: SqeFields, fd: i32, addr: Addr, addrlen: Addr, flags: u32): SqeFields
  {
    Rw(p, IORING_OP_ACCEPT, fd, addr, 0, addrlen).(opFlags := flags)
  }

  function AcceptDirect(p: SqeFields, fd: i32, addr: Addr, addrlen: Addr, flags: u32,
                        fileIndex: u32): SqeFields
  {
    SetTargetFixedFile(Accept(p, fd, addr, addrlen, flags), DirectTarget(fileIndex))
  }

  function MultishotAccept(p: SqeFields, fd: i32, addr: Addr, addrlen: Addr, flags: u32): SqeFields
  {
    WithIoprioBits(Accept(p, fd, addr, addrlen, flags), U32ToU16(IORING_ACCEPT_MULTISHOT))
  }

  function MultishotAcceptDirect(p: SqeFields, fd: i32, addr: Addr, addrlen: Addr, flags: u32): SqeFields
  {
    SetTargetFixedFile(MultishotAccept(p, fd, addr, addrlen, flags), ALLOC_TARGET)
  }

  function Cancel64(p: SqeFields, userData: u64, flags: i32): SqeFields
  {
    Rw(p, IORING_OP_ASYNC_CANCEL, NO_FD, NULL, 0, 0).(union2 := userData, opFlags := flags)
  }

  function CancelFd(p: SqeFields, fd: i32, flags: u32): SqeFields
  {
    Rw(p, IORING_OP_ASYNC_CANCEL, fd, NULL, 0, 0).(opFlags := flags | IORING_ASYNC_CANCEL_FD)
  }

  function LinkTimeout(p: SqeFields, ts: Addr, flags: u32): SqeFields
  {
    Rw(p, IORING_OP_LINK_TIMEOUT, NO_FD, ts, 1, 0).(opFlags := flags)
  }

  function Connect(p: SqeFields, fd: i32, addr: Addr, addrlen: u32): SqeFields
  {
    Rw(p, IORING_OP_CONNECT, fd, addr, 0, U32ToU64(addrlen))
  }

  function FilesUpdate(p: SqeFields, fds: Addr, nrFds: u32, offset: i32): SqeFields
  {
    Rw(p, IORING_OP_FILES_UPDATE, NO_FD, fds, nrFds, I32ToU64(offset))
  }

  function Fallocate(p: SqeFields, fd: i32, mode: i32, offset: u64, len: u64): SqeFields
  {
    Rw(p, IORING_OP_FALLOCATE, fd, NULL, mode, offset).(union2 := len)
  }

  function Openat(p: SqeFields, dfd: i32, path: Addr, flags: i32, mode: u32): SqeFields
  {
    Rw(p, IORING_OP_OPENAT, dfd, path, mode, 0).(opFlags := flags)
  }

  function OpenatDirect(p: SqeFields, dfd: i32, path: Addr, flags: i32, mode: u32,
                        fileIndex: u32): SqeFields
  {
    SetTargetFixedFile(Openat(p, dfd, path, flags, mode), DirectTarget(fileIndex))
  }

  function Close(p: SqeFields, fd: i32): SqeFields
  {
    Rw(p, IORING_OP_CLOSE, fd, NULL, 0, 0)
  }

  function CloseDirect(p: SqeFields, fileIndex: u32): SqeFields
  {
    SetTargetFixedFile(Close(p, 0), fileIndex)
  }

  function Read(p: SqeFields, fd: i32, buf: Addr, nbytes: u32, offset: u64): SqeFields
  {
    Rw(p, IORING_OP_READ, fd, buf, nbytes, offset)
  }

  function Write(p: SqeFields, fd: i32, buf: Addr, nbytes: u32, offset: u64): SqeFields
  {
    Rw(p, IORING_OP_WRITE, fd, buf, nbytes, offset)
  }

  function Send(p: SqeFields, sockfd: i32, buf: Addr, len: u32, flags: i32): SqeFields
  {
    Rw(p, IORING_OP_SEND, sockfd, buf, len, 0).(opFlags := flags)
  }

  /** `prep_send_set_addr`: `addr2` and the first two bytes of `union5` (`addr_len`). */
  function SendSetAddr(p: SqeFields, destAddr: Addr, addrLen: u16, host: Endian): SqeFields
  {
    p.(union1 := destAddr, union5 := WriteFirstHalf(p.union5, addrLen, host))
  }

  function Sendto(p: SqeFields, sockfd: i32, buf: Addr, len: u32, flags: i32, destAddr: Addr,
                  addrLen: u16, host: Endian): SqeFields
  {
    SendSetAddr(Send(p, sockfd, buf, len, flags), destAddr, addrLen, host)
  }

  function SendZc(p: SqeFields, sockfd: i32, buf: Addr, len: u32, flags: i32, zcFlags: u32): SqeFields
  {
    Rw(p, IORING_OP_SEND_ZC, sockfd, buf, len, 0).(opFlags := flags, ioprio := U32ToU16(zcFlags))
  }

  function SendZcFixed(p: SqeFields, sockfd: i32, buf: Addr, len: u32, flags: i32, zcFlags: u32,
                       bufIndex: u32): SqeFields
  {
    WithIoprioBits(SendZc(p, sockfd, buf, len, flags, zcFlags), U32ToU16(IORING_RECVSEND_FIXED_BUF))
      .(bufferSelect := U32ToU16(bufIndex))
  }

  function SendmsgZc(p: SqeFields, fd: i32, msg: Addr, msgFlags: u32): SqeFields
  {
    Sendmsg(p, fd, msg, msgFlags).(opcode := IORING_OP_SENDMSG_ZC)
  }

  function Recv(p: SqeFields, sockfd: i32, buf: Addr, len: u32, flags: i32): SqeFields
  {
    Rw(p, IORING_OP_RECV, sockfd, buf, len, 0).(opFlags := flags)
  }

  function RecvMultishot(p: SqeFields, sockfd: i32, buf: Addr, len: u32, flags: i32): SqeFields
  {
    WithIoprioBits(Recv(p, sockfd, buf, len, flags), U32ToU16(IORING_RECV_MULTISHOT))
  }

  function MsgRingCqeFlags(p: SqeFields, fd: i32, len: u32, data: u64, flags: u32, cqeFlags: u32): SqeFields
  {
    Rw(p, IORING_OP_MSG_RING, fd, NULL, len, data).(opFlags := IORING_MSG_RING_FLAGS_PASS | flags,
                                                   union5 := cqeFlags)
  }

  function MsgRing(p: SqeFields, fd: i32, len: u32, data: u64, flags: u32): SqeFields
  {
    Rw(p, IORING_OP_MSG_RING, fd, NULL, len, data).(opFlags := flags)
  }

  /** `prep_msg_ring_fd`; `cmd` is the value stored in `addr`, which is where the bindings differ. */
  function MsgRingFd(p: SqeFields, fd: i32, sourceFd: i32, targetFd: i32, data: u64, flags: u32,
                     cmd: Addr): SqeFields
  {
    SetTargetFixedFile(Rw(p, IORING_OP_MSG_RING, fd, cmd, 0, data).(addr3 := I32ToU64(sourceFd)),
                       DirectTarget(targetFd)).(opFlags := flags)
  }

  function Socket(p: SqeFields, domain: i32, sockType: i32, protocol: i32, flags: u32): SqeFields
  {
    Rw(p, IORING_OP_SOCKET, domain, NULL, protocol, I32ToU64(sockType)).(opFlags := flags)
  }

  function SocketDirect(p: SqeFields, domain: i32, sockType: i32, protocol: i32, fileIndex: u32,
                        flags: u32): SqeFields
  {
    SetTargetFixedFile(Socket(p, domain, sockType, protocol, flags), DirectTarget(fileIndex))
  }

  function SocketDirectAlloc(p: SqeFields, domain: i32, sockType: i32, protocol: i32, flags: u32): SqeFields
  {
    SetTargetFixedFile(Socket(p, domain, sockType, protocol, flags), ALLOC_TARGET)
  }
}
