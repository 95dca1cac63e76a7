/** The encoders of the reference-taking binding: free functions over a `&mut io_uring_sqe`.
    Opcodes are `u32` here and are cast to `u8` by the base helpers. Each encoder is proved to
    compute the same reference encoder of `SqeSpec` as the safe rewrite. */
module RaskSysPrep {
  import opened Abi
  import opened Consts
  import opened SqeSpec
  import opened SqeCore
  import CqeCore

  /** `io_uring_sqe_set_flags`: the `u32` argument is cast to `u8`. */
  method IoUringSqeSetFlags(sqe: IoUringSqe, flags: u32)
    modifies sqe
    ensures sqe.fields == SqeSpec.SetFlags(old(sqe.fields), U32ToU8(flags))
  {
    sqe.fields := sqe.fields.(flags := U32ToU8(flags));
  }

  /** `set_data`: the address behind a `NonNull` becomes the completion's `user_data`. */
  method IoUringSqeSetData(sqe: IoUringSqe, data: Ref)
    modifies sqe
    ensures sqe.fields == SqeSpec.SetData64(old(sqe.fields), data)
  {
    sqe.fields := sqe.fields.(userData := data);
  }

  method IoUringSqeSetData64(sqe: IoUringSqe, data: u64)
    modifies sqe
    ensures sqe.fields == SqeSpec.SetData64(old(sqe.fields), data)
  {
    sqe.fields := sqe.fields.(userData := data);
  }

  method IoUringPrepRw(op: u32, sqe: IoUringSqe, fd: i32, addr: Option<Ref>, len: u32, offset: u64)
    modifies sqe
    ensures sqe.fields == Rw(old(sqe.fields), U32ToU8(op), fd, RefAddr(addr), len, offset)
  {
    sqe.fields := sqe.fields.(opcode := U32ToU8(op), flags := 0, ioprio := 0, fd := fd,
                              union1 := offset, union2 := RefAddr(addr), len := len);
  }

  method IoUringPrepRwBuf(op: u32, sqe: IoUringSqe, fd: i32, addr: Option<Slice>, offset: u64)
    modifies sqe
    ensures sqe.fields == Rw(old(sqe.fields), U32ToU8(op), fd, BufAddr(addr), BufLen(addr), offset)
  {
    sqe.fields := sqe.fields.(opcode := U32ToU8(op), flags := 0, ioprio := 0, fd := fd,
                              union1 := offset, union2 := BufAddr(addr), len := BufLen(addr));
  }

  method IoUringPrepRwNull(op: u32, sqe: IoUringSqe, fd: i32, len: u32, offset: u64)
    modifies sqe
    ensures sqe.fields == Rw(old(sqe.fields), U32ToU8(op), fd, NULL, len, offset)
  {
    sqe.fields := sqe.fields.(opcode := U32ToU8(op), flags := 0, ioprio := 0, fd := fd,
                              union1 := offset, union2 := NULL, len := len);
  }

  method IoUringPrepSplice(sqe: IoUringSqe, fdIn: i32, offIn: i64, fdOut: i32, offOut: i64,
                           nbytes: u32, spliceFlags: u32)
    modifies sqe
    ensures sqe.fields == Splice(old(sqe.fields), fdIn, offIn, fdOut, offOut, nbytes, spliceFlags)
  {
    IoUringPrepRwNull(U8ToU32(IORING_OP_SPLICE), sqe, fdOut, nbytes, offOut);
    sqe.fields := sqe.fields.(union2 := offIn, union5 := fdIn, opFlags := spliceFlags);
  }

  method IoUringPrepTee(sqe: IoUringSqe, fdIn: i32, fdOut: i32, nbytes: u32, spliceFlags: u32)
    modifies sqe
    ensures sqe.fields == Tee(old(sqe.fields), fdIn, fdOut, nbytes, spliceFlags)
  {
    IoUringPrepRwNull(U8ToU32(IORING_OP_TEE), sqe, fdOut, nbytes, 0);
    sqe.fields := sqe.fields.(union2 := 0, union5 := fdIn, opFlags := spliceFlags);
  }

  method IoUringPrepReadv(sqe: IoUringSqe, fd: i32, iovecs: Slice, offset: u64)
    modifies sqe
    ensures sqe.fields == Readv(old(sqe.fields), fd, iovecs.ptr, U64ToU32(iovecs.len), offset)
  {
    IoUringPrepRwBuf(U8ToU32(IORING_OP_READV), sqe, fd, Some(iovecs), offset);
  }

  method IoUringPrepReadv2(sqe: IoUringSqe, fd: i32, iovecs: Slice, offset: u64, flags: i32)
    modifies sqe
    ensures sqe.fields == Readv2(old(sqe.fields), fd, iovecs.ptr, U64ToU32(iovecs.len), offset, flags)
  {
    IoUringPrepReadv(sqe, fd, iovecs, offset);
    sqe.fields := sqe.fields.(opFlags := flags);
  }

  method IoUringPrepReadFixed(sqe: IoUringSqe, fd: i32, buf: Slice, offset: u64, bufIndex: i32)
    modifies sqe
    ensures sqe.fields == ReadFixed(old(sqe.fields), fd, buf.ptr, U64ToU32(buf.len), offset, bufIndex)
  {
    IoUringPrepRwBuf(U8ToU32(IORING_OP_READ_FIXED), sqe, fd, Some(buf), offset);
    sqe.fields := sqe.fields.(bufferSelect := U32ToU16(bufIndex));
  }

  method IoUringPrepWritev(sqe: IoUringSqe, fd: i32, iovecs: Slice, offset: u64)
    modifies sqe
    ensures sqe.fields == Writev(old(sqe.fields), fd, iovecs.ptr, U64ToU32(iovecs.len), offset)
  {
    IoUringPrepRwBuf(U8ToU32(IORING_OP_WRITEV), sqe, fd, Some(iovecs), offset);
  }

  method IoUringPrepWritev2(sqe: IoUringSqe, fd: i32, iovecs: Slice, offset: u64, flags: i32)
    modifies sqe
    ensures sqe.fields == Writev2(old(sqe.fields), fd, iovecs.ptr, U64ToU32(iovecs.len), offset, flags)
  {
    IoUringPrepWritev(sqe, fd, iovecs, offset);
    sqe.fields := sqe.fields.(opFlags := flags);
  }

  method IoUringPrepWriteFixed(sqe: IoUringSqe, fd: i32, buf: Slice, offset: u64, bufIndex: i32)
    modifies sqe
    ensures sqe.fields == WriteFixed(old(sqe.fields), fd, buf.ptr, U64ToU32(buf.len), offset, bufIndex)
  {
    IoUringPrepRwBuf(U8ToU32(IORING_OP_WRITE_FIXED), sqe, fd, Some(buf), offset);
    sqe.fields := sqe.fields.(bufferSelect := U32ToU16(bufIndex));
  }

  method IoUringPrepRecvmsg(sqe: IoUringSqe, fd: i32, msg: Ref, flags: u32)
    modifies sqe
    ensures sqe.fields == Recvmsg(old(sqe.fields), fd, msg, flags)
  {
    IoUringPrepRw(U8ToU32(IORING_OP_RECVMSG), sqe, fd, Some(msg), 1, 0);
    sqe.fields := sqe.fields.(opFlags := flags);
  }

  method IoUringPrepRecvmsgMultishot(sqe: IoUringSqe, fd: i32, msg: Ref, flags: u32)
    modifies sqe
    ensures sqe.fields == RecvmsgMultishot(old(sqe.fields), fd, msg, flags)
  {
    IoUringPrepRecvmsg(sqe, fd, msg, flags);
    sqe.fields := sqe.fields.(ioprio := sqe.fields.ioprio | U32ToU16(IORING_RECV_MULTISHOT));
  }

  method IoUringPrepSendmsg(sqe: IoUringSqe, fd: i32, msg: Ref, flags: u32)
    modifies sqe
    ensures sqe.fields == Sendmsg(old(sqe.fields), fd, msg, flags)
  {
    IoUringPrepRw(U8ToU32(IORING_OP_SENDMSG), sqe, fd, Some(msg), 1, 0);
    sqe.fields := sqe.fields.(opFlags := flags);
  }

  method IoUringPrepPollAdd(sqe: IoUringSqe, fd: i32, pollMask: u32)
    modifies sqe
    ensures sqe.fields == PollAdd(old(sqe.fields), fd, pollMask, sqe.host)
  {
    IoUringPrepRwNull(U8ToU32(IORING_OP_POLL_ADD), sqe, fd, 0, 0);
    sqe.fields := sqe.fields.(opFlags := ToLe32(pollMask, sqe.host));
  }

  method IoUringPrepPollMultishot(sqe: IoUringSqe, fd: i32, pollMask: u32)
    modifies sqe
    ensures sqe.fields == PollMultishot(old(sqe.fields), fd, pollMask, sqe.host)
  {
    IoUringPrepPollAdd(sqe, fd, pollMask);
    sqe.fields := sqe.fields.(len := IORING_POLL_ADD_MULTI);
  }

  method IoUringPrepPollRemove(sqe: IoUringSqe, userData: u64)
    modifies sqe
    ensures sqe.fields == PollRemove(old(sqe.fields), userData)
  {
    IoUringPrepRwNull(U8ToU32(IORING_OP_POLL_REMOVE), sqe, NO_FD, 0, 0);
    sqe.fields := sqe.fields.(union2 := userData);
  }

  method IoUringPrepPollUpdate(sqe: IoUringSqe, oldUserData: u64, newUserData: u64, pollMask: u32,
                               flags: u32)
    modifies sqe
    ensures sqe.fields == PollUpdate(old(sqe.fields), oldUserData, newUserData, pollMask, flags,
        sqe.host)
  {
    IoUringPrepRwNull(U8ToU32(IORING_OP_POLL_REMOVE), sqe, NO_FD, flags, newUserData);
    sqe.fields := sqe.fields.(union2 := oldUserData, opFlags := ToLe32(pollMask, sqe.host));
  }

  method IoUringPrepFsync(sqe: IoUringSqe, fd: i32, fsyncFlags: u32)
    modifies sqe
    ensures sqe.fields == Fsync(old(sqe.fields), fd, fsyncFlags)
  {
    IoUringPrepRwNull(U8ToU32(IORING_OP_FSYNC), sqe, fd, 0, 0);
    sqe.fields := sqe.fields.(opFlags := fsyncFlags);
  }

  method IoUringPrepNop(sqe: IoUringSqe)
    modifies sqe
    ensures sqe.fields == Nop(old(sqe.fields))
  {
    IoUringPrepRwNull(U8ToU32(IORING_OP_NOP), sqe, NO_FD, 0, 0);
  }

  method IoUringPrepTimeout(sqe: IoUringSqe, ts: Ref, count: u32, flags: u32)
    modifies sqe
    ensures sqe.fields == Timeout(old(sqe.fields), ts, count, flags)
  {
    IoUringPrepRw(U8ToU32(IORING_OP_TIMEOUT), sqe, NO_FD, Some(ts), 1, U32ToU64(count));
    sqe.fields := sqe.fields.(opFlags := flags);
  }

  method IoUringPrepTimeoutRemove(sqe: IoUringSqe, userData: u64, flags: u32)
    modifies sqe
    ensures sqe.fields == TimeoutRemove(old(sqe.fields), userData, flags)
  {
    IoUringPrepRwNull(U8ToU32(IORING_OP_TIMEOUT_REMOVE), sqe, NO_FD, 0, 0);
    sqe.fields := sqe.fields.(union2 := userData, opFlags := flags);
  }

  method IoUringPrepTimeoutUpdate(sqe: IoUringSqe, ts: Ref, userData: u64, flags: u32)
    modifies sqe
    ensures sqe.fields == TimeoutUpdate(old(sqe.fields), ts, userData, flags)
  {
    IoUringPrepRwNull(U8ToU32(IORING_OP_TIMEOUT_REMOVE), sqe, NO_FD, 0, ts);
    sqe.fields := sqe.fields.(union2 := userData, opFlags := flags | IORING_TIMEOUT_UPDATE);
  }

  /** `prep_accept`. `addr` is the address `prep_rw` receives for the optional socket address, and
      `addrlen` the address of the optional length. */
  method IoUringPrepAccept(sqe: IoUringSqe, fd: i32, addr: Option<Ref>, addrlen: Option<Ref>, flags: u32)
    modifies sqe
    ensures sqe.fields == Accept(old(sqe.fields), fd, RefAddr(addr), RefAddr(addrlen), flags)
  {
    IoUringPrepRw(U8ToU32(IORING_OP_ACCEPT), sqe, fd, addr, 0, RefAddr(addrlen));
    sqe.fields := sqe.fields.(opFlags := flags);
  }

  method IoUringSetTargetFixedFile(sqe: IoUringSqe, fileIndex: u32)
    modifies sqe
    ensures sqe.fields == SetTargetFixedFile(old(sqe.fields), fileIndex)
  {
    sqe.fields := sqe.fields.(union5 := fileIndex + 1);
  }

  method IoUringPrepAcceptDirect(sqe: IoUringSqe, fd: i32, addr: Option<Ref>, addrlen: Option<Ref>,
                                 flags: u32, fileIndex: u32)
    modifies sqe
    ensures sqe.fields == AcceptDirect(old(sqe.fields), fd, RefAddr(addr), RefAddr(addrlen), flags,
        fileIndex)
  {
    IoUringPrepAccept(sqe, fd, addr, addrlen, flags);
    var target := if fileIndex == IORING_FILE_INDEX_ALLOC then fileIndex - 1 else fileIndex;
    IoUringSetTargetFixedFile(sqe, target);
  }

  method IoUringPrepMultishotAccept(sqe: IoUringSqe, fd: i32, addr: Option<Ref>,
                                    addrlen: Option<Ref>, flags: u32)
    modifies sqe
    ensures sqe.fields == MultishotAccept(old(sqe.fields), fd, RefAddr(addr), RefAddr(addrlen), flags)
  {
    IoUringPrepAccept(sqe, fd, addr, addrlen, flags);
    sqe.fields := sqe.fields.(ioprio := sqe.fields.ioprio | U32ToU16(IORING_ACCEPT_MULTISHOT));
  }

  method IoUringPrepMultishotAcceptDirect(sqe: IoUringSqe, fd: i32, addr: Option<Ref>,
                                          addrlen: Option<Ref>, flags: u32)
    modifies sqe
    ensures sqe.fields == MultishotAcceptDirect(old(sqe.fields), fd, RefAddr(addr),
        RefAddr(addrlen), flags)
  {
    IoUringPrepMultishotAccept(sqe, fd, addr, addrlen, flags);
    IoUringSetTargetFixedFile(sqe, IORING_FILE_INDEX_ALLOC - 1);
  }

  method IoUringPrepCancel64(sqe: IoUringSqe, userData: u64, flags: i32)
    modifies sqe
    ensures sqe.fields == Cancel64(old(sqe.fields), userData, flags)
  {
    IoUringPrepRwNull(U8ToU32(IORING_OP_ASYNC_CANCEL), sqe, NO_FD, 0, 0);
    sqe.fields := sqe.fields.(union2 := userData, opFlags := flags);
  }

  method IoUringPrepCancel(sqe: IoUringSqe, userData: Ref, flags: i32)
    modifies sqe
    ensures sqe.fields == Cancel64(old(sqe.fields), userData, flags)
  {
    IoUringPrepCancel64(sqe, userData, flags);
  }

  method IoUringPrepCancelFd(sqe: IoUringSqe, fd: i32, flags: u32)
    modifies sqe
    ensures sqe.fields == CancelFd(old(sqe.fields), fd, flags)
  {
    IoUringPrepRwNull(U8ToU32(IORING_OP_ASYNC_CANCEL), sqe, fd, 0, 0);
    sqe.fields := sqe.fields.(opFlags := flags | IORING_ASYNC_CANCEL_FD);
  }

  method IoUringPrepLinkTimeout(sqe: IoUringSqe, ts: Ref, flags: u32)
    modifies sqe
    ensures sqe.fields == LinkTimeout(old(sqe.fields), ts, flags)
  {
    IoUringPrepRw(U8ToU32(IORING_OP_LINK_TIMEOUT), sqe, NO_FD, Some(ts), 1, 0);
    sqe.fields := sqe.fields.(opFlags := flags);
  }

  method IoUringPrepConnect(sqe: IoUringSqe, fd: i32, addr: Ref, addrlen: u32)
    modifies sqe
    ensures sqe.fields == Connect(old(sqe.fields), fd, addr, addrlen)
  {
    IoUringPrepRw(U8ToU32(IORING_OP_CONNECT), sqe, fd, Some(addr), 0, U32ToU64(addrlen));
  }

  method IoUringPrepFilesUpdate(sqe: IoUringSqe, fds: Slice, offset: i32)
    modifies sqe
    ensures sqe.fields == FilesUpdate(old(sqe.fields), fds.ptr, U64ToU32(fds.len), offset)
  {
    IoUringPrepRwBuf(U8ToU32(IORING_OP_FILES_UPDATE), sqe, NO_FD, Some(fds), I32ToU64(offset));
  }

  method IoUringPrepFallocate(sqe: IoUringSqe, fd: i32, mode: i32, offset: u64, len: u64)
    modifies sqe
    ensures sqe.fields == Fallocate(old(sqe.fields), fd, mode, offset, len)
  {
    IoUringPrepRwNull(U8ToU32(IORING_OP_FALLOCATE), sqe, fd, mode, offset);
    sqe.fields := sqe.fields.(union2 := len);
  }

  /** `prep_openat`. `path` is the address of the `OsString` value the method received, which is
      what `Some(&path)` hands to `prep_rw`. */
  method IoUringPrepOpenat(sqe: IoUringSqe, dfd: i32, path: Ref, flags: i32, mode: u32)
    modifies sqe
    ensures sqe.fields == Openat(old(sqe.fields), dfd, path, flags, mode)
  {
    IoUringPrepRw(U8ToU32(IORING_OP_OPENAT), sqe, dfd, Some(path), mode, 0);
    sqe.fields := sqe.fields.(opFlags := flags);
  }

  method IoUringPrepOpenatDirect(sqe: IoUringSqe, dfd: i32, path: Ref, flags: i32, mode: u32,
                                 fileIndex: u32)
    modifies sqe
    ensures sqe.fields == OpenatDirect(old(sqe.fields), dfd, path, flags, mode, fileIndex)
  {
    IoUringPrepOpenat(sqe, dfd, path, flags, mode);
    var target := if fileIndex == IORING_FILE_INDEX_ALLOC then fileIndex - 1 else fileIndex;
    IoUringSetTargetFixedFile(sqe, target);
  }

  method IoUringPrepClose(sqe: IoUringSqe, fd: i32)
    modifies sqe
    ensures sqe.fields == Close(old(sqe.fields), fd)
  {
    IoUringPrepRwNull(U8ToU32(IORING_OP_CLOSE), sqe, fd, 0, 0);
  }

  method IoUringPrepCloseDirect(sqe: IoUringSqe, fileIndex: u32)
    modifies sqe
    ensures sqe.fields == CloseDirect(old(sqe.fields), fileIndex)
  {
    IoUringPrepClose(sqe, 0);
    IoUringSetTargetFixedFile(sqe, fileIndex);
  }

  method IoUringPrepRead(sqe: IoUringSqe, fd: i32, buf: Slice, offset: u64)
    modifies sqe
    ensures sqe.fields == Read(old(sqe.fields), fd, buf.ptr, U64ToU32(buf.len), offset)
  {
    IoUringPrepRwBuf(U8ToU32(IORING_OP_READ), sqe, fd, Some(buf), offset);
  }

  method IoUringPrepWrite(sqe: IoUringSqe, fd: i32, buf: Slice, offset: u64)
    modifies sqe
    ensures sqe.fields == Write(old(sqe.fields), fd, buf.ptr, U64ToU32(buf.len), offset)
  {
    IoUringPrepRwBuf(U8ToU32(IORING_OP_WRITE), sqe, fd, Some(buf), offset);
  }

  method IoUringPrepSend(sqe: IoUringSqe, sockfd: i32, buf: Slice, flags: i32)
    modifies sqe
    ensures sqe.fields == Send(old(sqe.fields), sockfd, buf.ptr, U64ToU32(buf.len), flags)
  {
    IoUringPrepRwBuf(U8ToU32(IORING_OP_SEND), sqe, sockfd, Some(buf), 0);
    sqe.fields := sqe.fields.(opFlags := flags);
  }

  method IoUringPrepSendSetAddr(sqe: IoUringSqe, destAddr: Ref, addrLen: u16)
    modifies sqe
    ensures sqe.fields == SendSetAddr(old(sqe.fields), destAddr, addrLen, sqe.host)
  {
    sqe.fields := sqe.fields.(union1 := destAddr);
    sqe.fields := sqe.fields.(union5 := WriteFirstHalf(sqe.fields.union5, addrLen, sqe.host));
  }

  method IoUringPrepSendto(sqe: IoUringSqe, sockfd: i32, buf: Slice, flags: i32, addr: Ref, addrLen: u16)
    modifies sqe
    ensures sqe.fields == Sendto(old(sqe.fields), sockfd, buf.ptr, U64ToU32(buf.len), flags, addr,
        addrLen, sqe.host)
  {
    IoUringPrepSend(sqe, sockfd, buf, flags);
    IoUringPrepSendSetAddr(sqe, addr, addrLen);
  }

  method IoUringPrepSendZc(sqe: IoUringSqe, sockfd: i32, buf: Slice, flags: i32, zcFlags: u32)
    modifies sqe
    ensures sqe.fields == SendZc(old(sqe.fields), sockfd, buf.ptr, U64ToU32(buf.len), flags, zcFlags)
  {
    IoUringPrepRwBuf(U8ToU32(IORING_OP_SEND_ZC), sqe, sockfd, Some(buf), 0);
    sqe.fields := sqe.fields.(opFlags := flags, ioprio := U32ToU16(zcFlags));
  }

  method IoUringPrepSendZcFixed(sqe: IoUringSqe, sockfd: i32, buf: Slice, flags: i32, zcFlags: u32,
                                bufIndex: u32)
    modifies sqe
    ensures sqe.fields == SendZcFixed(old(sqe.fields), sockfd, buf.ptr, U64ToU32(buf.len), flags,
        zcFlags, bufIndex)
  {
    IoUringPrepSendZc(sqe, sockfd, buf, flags, zcFlags);
    sqe.fields := sqe.fields.(ioprio := sqe.fields.ioprio | U32ToU16(IORING_RECVSEND_FIXED_BUF),
                      bufferSelect := U32ToU16(bufIndex));
  }

  method IoUringPrepSendmsgZc(sqe: IoUringSqe, fd: i32, msg: Ref, flags: u32)
    modifies sqe
    ensures sqe.fields == SendmsgZc(old(sqe.fields), fd, msg, flags)
  {
    IoUringPrepSendmsg(sqe, fd, msg, flags);
    sqe.fields := sqe.fields.(opcode := IORING_OP_SENDMSG_ZC);
  }

  method IoUringPrepRecv(sqe: IoUringSqe, sockfd: i32, buf: Slice, flags: i32)
    modifies sqe
    ensures sqe.fields == Recv(old(sqe.fields), sockfd, buf.ptr, U64ToU32(buf.len), flags)
  {
    IoUringPrepRwBuf(U8ToU32(IORING_OP_RECV), sqe, sockfd, Some(buf), 0);
    sqe.fields := sqe.fields.(opFlags := flags);
  }

  method IoUringPrepRecvMultishot(sqe: IoUringSqe, sockfd: i32, buf: Slice, flags: i32)
    modifies sqe
    ensures sqe.fields == RecvMultishot(old(sqe.fields), sockfd, buf.ptr, U64ToU32(buf.len), flags)
  {
    IoUringPrepRecv(sqe, sockfd, buf, flags);
    sqe.fields := sqe.fields.(ioprio := sqe.fields.ioprio | U32ToU16(IORING_RECV_MULTISHOT));
  }

  method IoUringPrepMsgRingCqeFlags(sqe: IoUringSqe, fd: i32, len: u32, data: u64, flags: u32,
                                    cqeFlags: u32)
    modifies sqe
    ensures sqe.fields == MsgRingCqeFlags(old(sqe.fields), fd, len, data, flags, cqeFlags)
  {
    IoUringPrepRwNull(U8ToU32(IORING_OP_MSG_RING), sqe, fd, len, data);
    sqe.fields := sqe.fields.(opFlags := IORING_MSG_RING_FLAGS_PASS | flags, union5 := cqeFlags);
  }

  method IoUringPrepMsgRing(sqe: IoUringSqe, fd: i32, len: u32, data: u64, flags: u32)
    modifies sqe
    ensures sqe.fields == MsgRing(old(sqe.fields), fd, len, data, flags)
  {
    IoUringPrepRwNull(U8ToU32(IORING_OP_MSG_RING), sqe, fd, len, data);
    sqe.fields := sqe.fields.(opFlags := flags);
  }

  /** `prep_msg_ring_fd`. The command is passed as `Some(&(IORING_MSG_SEND_FD as *const usize))`,
      a reference to a temporary, so `addr` receives the temporary's address `cmdTemp`, not the
      command value. */
  method IoUringPrepMsgRingFd(sqe: IoUringSqe, fd: i32, sourceFd: i32, targetFd: i32, data: u64,
                              flags: u32, cmdTemp: Ref)
    modifies sqe
    ensures sqe.fields == MsgRingFd(old(sqe.fields), fd, sourceFd, targetFd, data, flags, cmdTemp)
  {
    IoUringPrepRw(U8ToU32(IORING_OP_MSG_RING), sqe, fd, Some(cmdTemp), 0, data);
    sqe.fields := sqe.fields.(addr3 := I32ToU64(sourceFd));
    var target := if targetFd == IORING_FILE_INDEX_ALLOC then targetFd - 1 else targetFd;
    IoUringSetTargetFixedFile(sqe, target);
    sqe.fields := sqe.fields.(opFlags := flags);
  }

  method IoUringPrepMsgRingFdAlloc(sqe: IoUringSqe, fd: i32, sourceFd: i32, data: u64, flags: u32,
                                   cmdTemp: Ref)
    modifies sqe
    ensures sqe.fields == MsgRingFd(old(sqe.fields), fd, sourceFd, IORING_FILE_INDEX_ALLOC, data,
        flags, cmdTemp)
  {
    IoUringPrepMsgRingFd(sqe, fd, sourceFd, IORING_FILE_INDEX_ALLOC, data, flags, cmdTemp);
  }

  method IoUringPrepSocket(sqe: IoUringSqe, domain: i32, sockType: i32, protocol: i32, flags: u32)
    modifies sqe
    ensures sqe.fields == Socket(old(sqe.fields), domain, sockType, protocol, flags)
  {
    IoUringPrepRwNull(U8ToU32(IORING_OP_SOCKET), sqe, domain, protocol, I32ToU64(sockType));
    sqe.fields := sqe.fields.(opFlags := flags);
  }

  method IoUringPrepSocketDirect(sqe: IoUringSqe, domain: i32, sockType: i32, protocol: i32,
                                 fileIndex: u32, flags: u32)
    modifies sqe
    ensures sqe.fields == SocketDirect(old(sqe.fields), domain, sockType, protocol, fileIndex, flags)
  {
    IoUringPrepSocket(sqe, domain, sockType, protocol, flags);
    var target := if fileIndex == IORING_FILE_INDEX_ALLOC then fileIndex - 1 else fileIndex;
    IoUringSetTargetFixedFile(sqe, target);
  }

  method IoUringPrepSocketDirectAlloc(sqe: IoUringSqe, domain: i32, sockType: i32, protocol: i32,
                                      flags: u32)
    modifies sqe
    ensures sqe.fields == SocketDirectAlloc(old(sqe.fields), domain, sockType, protocol, flags)
  {
    IoUringPrepSocket(sqe, domain, sockType, protocol, flags);
    IoUringSetTargetFixedFile(sqe, IORING_FILE_INDEX_ALLOC - 1);
  }

  /** `io_uring_cqe_get_data64`: the completion's `user_data` word. */
  function IoUringCqeGetData64(cqe: CqeCore.IoUringCqe): (r: u64)
    ensures r == cqe.userData
  {
    cqe.userData
  }

  /** `io_uring_cqe_get_data`: `as_ref` on the raw pointer, so a zero `user_data` gives `None`. */
  function IoUringCqeGetData(cqe: CqeCore.IoUringCqe): (r: Option<Ref>)
    ensures r.None? <==> cqe.userData == NULL
    ensures r.Some? ==> r.value == cqe.userData
  {
    if cqe.userData == NULL then None else Some(cqe.userData)
  }

  /** What `set_data` stored travels back in the completion's `user_data`: `get_data` returns the
      same non-null address, and `get_data64` the same word. */
  lemma SetDataGetDataRoundTrip(p: SqeFields, data: Ref, res: i32, flags: u32)
    ensures var c := CqeCore.IoUringCqe(SetData64(p, data).userData, res, flags);
            IoUringCqeGetData(c) == Some(data) && IoUringCqeGetData64(c) == data
  {
  }
}
