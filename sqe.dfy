/** The safe submission record `IoUringSqe` and its `prep_*` methods. Each method overwrites a fixed
    set of fields in place; its postcondition ties the new record to the reference encoder of
    `SqeSpec` applied to the record as the previous request left it. */
module SqeCore {
  import opened Abi
  import opened Consts
  import opened SqeSpec

  class IoUringSqe {
    /** The byte order of the machine the record lives on (`to_le`, `addr_len`). */
    const host: Endian

    /** The 64 bytes of the slot, field by field. */
    var fields: SqeFields

    /** A zero-filled slot, as the kernel maps the submission entries. */
    constructor (host: Endian)
      ensures this.host == host && fields == Zeroed
    {
      this.host := host;
      fields := Zeroed;
    }

    method SetFlags(flags: u8)
      modifies this
      ensures fields == SqeSpec.SetFlags(old(fields), flags)
    {
      fields := fields.(flags := flags);
    }

    /** `set_data`: the address behind a `NonNull` becomes the completion's `user_data`. */
    method SetData(data: Ref)
      modifies this
      ensures fields == SqeSpec.SetData64(old(fields), data)
    {
      fields := fields.(userData := data);
    }

    method SetData64(data: u64)
      modifies this
      ensures fields == SqeSpec.SetData64(old(fields), data)
    {
      fields := fields.(userData := data);
    }

    method PrepRw(op: u8, fd: i32, addr: Option<Ref>, len: u32, offset: u64)
      modifies this
      ensures fields == Rw(old(fields), op, fd, RefAddr(addr), len, offset)
    {
      fields := fields.(opcode := op, flags := 0, ioprio := 0, fd := fd, union1 := offset,
                        union2 := RefAddr(addr), len := len);
    }

    method PrepRwBuf(op: u8, fd: i32, addr: Option<Slice>, offset: u64)
      modifies this
      ensures fields == Rw(old(fields), op, fd, BufAddr(addr), BufLen(addr), offset)
    {
      fields := fields.(opcode := op, flags := 0, ioprio := 0, fd := fd, union1 := offset,
                        union2 := BufAddr(addr), len := BufLen(addr));
    }

    method PrepRwNull(op: u8, fd: i32, len: u32, offset: u64)
      modifies this
      ensures fields == Rw(old(fields), op, fd, NULL, len, offset)
    {
      fields := fields.(opcode := op, flags := 0, ioprio := 0, fd := fd, union1 := offset,
                        union2 := NULL, len := len);
    }

    method PrepSplice(fdIn: i32, offIn: i64, fdOut: i32, offOut: i64, nbytes: u32, spliceFlags: u32)
      modifies this
      ensures fields == Splice(old(fields), fdIn, offIn, fdOut, offOut, nbytes, spliceFlags)
    {
      PrepRwNull(IORING_OP_SPLICE, fdOut, nbytes, offOut);
      fields := fields.(union2 := offIn, union5 := fdIn, opFlags := spliceFlags);
    }

    method PrepTee(fdIn: i32, fdOut: i32, nbytes: u32, spliceFlags: u32)
      modifies this
      ensures fields == Tee(old(fields), fdIn, fdOut, nbytes, spliceFlags)
    {
      PrepRwNull(IORING_OP_TEE, fdOut, nbytes, 0);
      fields := fields.(union2 := 0, union5 := fdIn, opFlags := spliceFlags);
    }

    method PrepReadv(fd: i32, iovecs: Slice, offset: u64)
      modifies this
      ensures fields == Readv(old(fields), fd, iovecs.ptr, U64ToU32(iovecs.len), offset)
    {
      PrepRwBuf(IORING_OP_READV, fd, Some(iovecs), offset);
    }

    method PrepReadv2(fd: i32, iovecs: Slice, offset: u64, flags: i32)
      modifies this
      ensures fields == Readv2(old(fields), fd, iovecs.ptr, U64ToU32(iovecs.len), offset, flags)
    {
      PrepReadv(fd, iovecs, offset);
      fields := fields.(opFlags := flags);
    }

    method PrepReadFixed(fd: i32, buf: Slice, offset: u64, bufIndex: i32)
      modifies this
      ensures fields == ReadFixed(old(fields), fd, buf.ptr, U64ToU32(buf.len), offset, bufIndex)
    {
      PrepRwBuf(IORING_OP_READ_FIXED, fd, Some(buf), offset);
      fields := fields.(bufferSelect := U32ToU16(bufIndex));
    }

    method PrepWritev(fd: i32, iovecs: Slice, offset: u64)
      modifies this
      ensures fields == Writev(old(fields), fd, iovecs.ptr, U64ToU32(iovecs.len), offset)
    {
      PrepRwBuf(IORING_OP_WRITEV, fd, Some(iovecs), offset);
    }

    method PrepWritev2(fd: i32, iovecs: Slice, offset: u64, flags: i32)
      modifies this
      ensures fields == Writev2(old(fields), fd, iovecs.ptr, U64ToU32(iovecs.len), offset, flags)
    {
      PrepWritev(fd, iovecs, offset);
      fields := fields.(opFlags := flags);
    }

    method PrepWriteFixed(fd: i32, buf: Slice, offset: u64, bufIndex: i32)
      modifies this
      ensures fields == WriteFixed(old(fields), fd, buf.ptr, U64ToU32(buf.len), offset, bufIndex)
    {
      PrepRwBuf(IORING_OP_WRITE_FIXED, fd, Some(buf), offset);
      fields := fields.(bufferSelect := U32ToU16(bufIndex));
    }

    method PrepRecvmsg(fd: i32, msg: Ref, flags: u32)
      modifies this
      ensures fields == Recvmsg(old(fields), fd, msg, flags)
    {
      PrepRw(IORING_OP_RECVMSG, fd, Some(msg), 1, 0);
      fields := fields.(opFlags := flags);
    }

    method PrepRecvmsgMultishot(fd: i32, msg: Ref, flags: u32)
      modifies this
      ensures fields == RecvmsgMultishot(old(fields), fd, msg, flags)
    {
      PrepRecvmsg(fd, msg, flags);
      fields := fields.(ioprio := fields.ioprio | U32ToU16(IORING_RECV_MULTISHOT));
    }

    method PrepSendmsg(fd: i32, msg: Ref, flags: u32)
      modifies this
      ensures fields == Sendmsg(old(fields), fd, msg, flags)
    {
      PrepRw(IORING_OP_SENDMSG, fd, Some(msg), 1, 0);
      fields := fields.(opFlags := flags);
    }

    method PrepPollAdd(fd: i32, pollMask: u32)
      modifies this
      ensures fields == PollAdd(old(fields), fd, pollMask, host)
    {
      PrepRwNull(IORING_OP_POLL_ADD, fd, 0, 0);
      fields := fields.(opFlags := ToLe32(pollMask, host));
    }

    method PrepPollMultishot(fd: i32, pollMask: u32)
      modifies this
      ensures fields == PollMultishot(old(fields), fd, pollMask, host)
    {
      PrepPollAdd(fd, pollMask);
      fields := fields.(len := IORING_POLL_ADD_MULTI);
    }

    method PrepPollRemove(userData: u64)
      modifies this
      ensures fields == PollRemove(old(fields), userData)
    {
      PrepRwNull(IORING_OP_POLL_REMOVE, NO_FD, 0, 0);
      fields := fields.(union2 := userData);
    }

    method PrepPollUpdate(oldUserData: u64, newUserData: u64, pollMask: u32, flags: u32)
      modifies this
      ensures fields == PollUpdate(old(fields), oldUserData, newUserData, pollMask, flags, host)
    {
      PrepRwNull(IORING_OP_POLL_REMOVE, NO_FD, flags, newUserData);
      fields := fields.(union2 := oldUserData, opFlags := ToLe32(pollMask, host));
    }

    method PrepFsync(fd: i32, fsyncFlags: u32)
      modifies this
      ensures fields == Fsync(old(fields), fd, fsyncFlags)
    {
      PrepRwNull(IORING_OP_FSYNC, fd, 0, 0);
      fields := fields.(opFlags := fsyncFlags);
    }

    method PrepNop()
      modifies this
      ensures fields == Nop(old(fields))
    {
      PrepRwNull(IORING_OP_NOP, NO_FD, 0, 0);
    }

    method PrepTimeout(ts: Ref, count: u32, flags: u32)
      modifies this
      ensures fields == Timeout(old(fields), ts, count, flags)
    {
      PrepRw(IORING_OP_TIMEOUT, NO_FD, Some(ts), 1, U32ToU64(count));
      fields := fields.(opFlags := flags);
    }

    method PrepTimeoutRemove(userData: u64, flags: u32)
      modifies this
      ensures fields == TimeoutRemove(old(fields), userData, flags)
    {
      PrepRwNull(IORING_OP_TIMEOUT_REMOVE, NO_FD, 0, 0);
      fields := fields.(union2 := userData, opFlags := flags);
    }

    method PrepTimeoutUpdate(ts: Ref, userData: u64, flags: u32)
      modifies this
      ensures fields == TimeoutUpdate(old(fields), ts, userData, flags)
    {
      PrepRwNull(IORING_OP_TIMEOUT_REMOVE, NO_FD, 0, ts);
      fields := fields.(union2 := userData, opFlags := flags | IORING_TIMEOUT_UPDATE);
    }

    /** `prep_accept`. `addr` is the address `prep_rw` receives for the optional socket address, and
        `addrlen` the address of the optional length. */
    method PrepAccept(fd: i32, addr: Option<Ref>, addrlen: Option<Ref>, flags: u32)
      modifies this
      ensures fields == Accept(old(fields), fd, RefAddr(addr), RefAddr(addrlen), flags)
    {
      PrepRw(IORING_OP_ACCEPT, fd, addr, 0, RefAddr(addrlen));
      fields := fields.(opFlags := flags);
    }

    method IoUringSetTargetFixedFile(fileIndex: u32)
      modifies this
      ensures fields == SetTargetFixedFile(old(fields), fileIndex)
    {
      fields := fields.(union5 := fileIndex + 1);
    }

    method PrepAcceptDirect(fd: i32, addr: Option<Ref>, addrlen: Option<Ref>, flags: u32, fileIndex: u32)
      modifies this
      ensures fields == AcceptDirect(old(fields), fd, RefAddr(addr), RefAddr(addrlen), flags, fileIndex)
    {
      PrepAccept(fd, addr, addrlen, flags);
      var target := if fileIndex == IORING_FILE_INDEX_ALLOC then fileIndex - 1 else fileIndex;
      IoUringSetTargetFixedFile(target);
    }

    method PrepMultishotAccept(fd: i32, addr: Option<Ref>, addrlen: Option<Ref>, flags: u32)
      modifies this
      ensures fields == MultishotAccept(old(fields), fd, RefAddr(addr), RefAddr(addrlen), flags)
    {
      PrepAccept(fd, addr, addrlen, flags);
      fields := fields.(ioprio := fields.ioprio | U32ToU16(IORING_ACCEPT_MULTISHOT));
    }

    method PrepMultishotAcceptDirect(fd: i32, addr: Option<Ref>, addrlen: Option<Ref>, flags: u32)
      modifies this
      ensures fields == MultishotAcceptDirect(old(fields), fd, RefAddr(addr), RefAddr(addrlen), flags)
    {
      PrepMultishotAccept(fd, addr, addrlen, flags);
      IoUringSetTargetFixedFile(IORING_FILE_INDEX_ALLOC - 1);
    }

    method PrepCancel64(userData: u64, flags: i32)
      modifies this
      ensures fields == Cancel64(old(fields), userData, flags)
    {
      PrepRwNull(IORING_OP_ASYNC_CANCEL, NO_FD, 0, 0);
      fields := fields.(union2 := userData, opFlags := flags);
    }

    method PrepCancel(userData: Ref, flags: i32)
      modifies this
      ensures fields == Cancel64(old(fields), userData, flags)
    {
      PrepCancel64(userData, flags);
    }

    method PrepCancelFd(fd: i32, flags: u32)
      modifies this
      ensures fields == CancelFd(old(fields), fd, flags)
    {
      PrepRwNull(IORING_OP_ASYNC_CANCEL, fd, 0, 0);
      fields := fields.(opFlags := flags | IORING_ASYNC_CANCEL_FD);
    }

    method PrepLinkTimeout(ts: Ref, flags: u32)
      modifies this
      ensures fields == LinkTimeout(old(fields), ts, flags)
    {
      PrepRw(IORING_OP_LINK_TIMEOUT, NO_FD, Some(ts), 1, 0);
      fields := fields.(opFlags := flags);
    }

    method PrepConnect(fd: i32, addr: Ref, addrlen: u32)
      modifies this
      ensures fields == Connect(old(fields), fd, addr, addrlen)
    {
      PrepRw(IORING_OP_CONNECT, fd, Some(addr), 0, U32ToU64(addrlen));
    }

    method PrepFilesUpdate(fds: Slice, offset: i32)
      modifies this
      ensures fields == FilesUpdate(old(fields), fds.ptr, U64ToU32(fds.len), offset)
    {
      PrepRwBuf(IORING_OP_FILES_UPDATE, NO_FD, Some(fds), I32ToU64(offset));
    }

    method PrepFallocate(fd: i32, mode: i32, offset: u64, len: u64)
      modifies this
      ensures fields == Fallocate(old(fields), fd, mode, offset, len)
    {
      PrepRwNull(IORING_OP_FALLOCATE, fd, mode, offset);
      fields := fields.(union2 := len);
    }

    /** `prep_openat`. `path` is the address of the `OsString` value the method received, which is
        what `Some(&path)` hands to `prep_rw`. */
    method PrepOpenat(dfd: i32, path: Ref, flags: i32, mode: u32)
      modifies this
      ensures fields == Openat(old(fields), dfd, path, flags, mode)
    {
      PrepRw(IORING_OP_OPENAT, dfd, Some(path), mode, 0);
      fields := fields.(opFlags := flags);
    }

    method PrepOpenatDirect(dfd: i32, path: Ref, flags: i32, mode: u32, fileIndex: u32)
      modifies this
      ensures fields == OpenatDirect(old(fields), dfd, path, flags, mode, fileIndex)
    {
      PrepOpenat(dfd, path, flags, mode);
      var target := if fileIndex == IORING_FILE_INDEX_ALLOC then fileIndex - 1 else fileIndex;
      IoUringSetTargetFixedFile(target);
    }

    method PrepClose(fd: i32)
      modifies this
      ensures fields == Close(old(fields), fd)
    {
      PrepRwNull(IORING_OP_CLOSE, fd, 0, 0);
    }

    method PrepCloseDirect(fileIndex: u32)
      modifies this
      ensures fields == CloseDirect(old(fields), fileIndex)
    {
      PrepClose(0);
      IoUringSetTargetFixedFile(fileIndex);
    }

    method PrepRead(fd: i32, buf: Slice, offset: u64)
      modifies this
      ensures fields == Read(old(fields), fd, buf.ptr, U64ToU32(buf.len), offset)
    {
      PrepRwBuf(IORING_OP_READ, fd, Some(buf), offset);
    }

    method PrepWrite(fd: i32, buf: Slice, offset: u64)
      modifies this
      ensures fields == Write(old(fields), fd, buf.ptr, U64ToU32(buf.len), offset)
    {
      PrepRwBuf(IORING_OP_WRITE, fd, Some(buf), offset);
    }

    method PrepSend(sockfd: i32, buf: Slice, flags: i32)
      modifies this
      ensures fields == Send(old(fields), sockfd, buf.ptr, U64ToU32(buf.len), flags)
    {
      PrepRwBuf(IORING_OP_SEND, sockfd, Some(buf), 0);
      fields := fields.(opFlags := flags);
    }

    method PrepSendSetAddr(destAddr: Ref, addrLen: u16)
      modifies this
      ensures fields == SendSetAddr(old(fields), destAddr, addrLen, host)
    {
      fields := fields.(union1 := destAddr);
      fields := fields.(union5 := WriteFirstHalf(fields.union5, addrLen, host));
    }

    method PrepSendto(sockfd: i32, buf: Slice, flags: i32, addr: Ref, addrLen: u16)
      modifies this
      ensures fields == Sendto(old(fields), sockfd, buf.ptr, U64ToU32(buf.len), flags, addr, addrLen, host)
    {
      PrepSend(sockfd, buf, flags);
      PrepSendSetAddr(addr, addrLen);
    }

    method PrepSendZc(sockfd: i32, buf: Slice, flags: i32, zcFlags: u32)
      modifies this
      ensures fields == SendZc(old(fields), sockfd, buf.ptr, U64ToU32(buf.len), flags, zcFlags)
    {
      PrepRwBuf(IORING_OP_SEND_ZC, sockfd, Some(buf), 0);
      fields := fields.(opFlags := flags, ioprio := U32ToU16(zcFlags));
    }

    method PrepSendZcFixed(sockfd: i32, buf: Slice, flags: i32, zcFlags: u32, bufIndex: u32)
      modifies this
      ensures fields == SendZcFixed(old(fields), sockfd, buf.ptr, U64ToU32(buf.len), flags, zcFlags, bufIndex)
    {
      PrepSendZc(sockfd, buf, flags, zcFlags);
      fields := fields.(ioprio := fields.ioprio | U32ToU16(IORING_RECVSEND_FIXED_BUF),
                        bufferSelect := U32ToU16(bufIndex));
    }

    method PrepSendmsgZc(fd: i32, msg: Ref, flags: u32)
      modifies this
      ensures fields == SendmsgZc(old(fields), fd, msg, flags)
    {
      PrepSendmsg(fd, msg, flags);
      fields := fields.(opcode := IORING_OP_SENDMSG_ZC);
    }

    method PrepRecv(sockfd: i32, buf: Slice, flags: i32)
      modifies this
      ensures fields == Recv(old(fields), sockfd, buf.ptr, U64ToU32(buf.len), flags)
    {
      PrepRwBuf(IORING_OP_RECV, sockfd, Some(buf), 0);
      fields := fields.(opFlags := flags);
    }

    method PrepRecvMultishot(sockfd: i32, buf: Slice, flags: i32)
      modifies this
      ensures fields == RecvMultishot(old(fields), sockfd, buf.ptr, U64ToU32(buf.len), flags)
    {
      PrepRecv(sockfd, buf, flags);
      fields := fields.(ioprio := fields.ioprio | U32ToU16(IORING_RECV_MULTISHOT));
    }

    method PrepMsgRingCqeFlags(fd: i32, len: u32, data: u64, flags: u32, cqeFlags: u32)
      modifies this
      ensures fields == MsgRingCqeFlags(old(fields), fd, len, data, flags, cqeFlags)
    {
      PrepRwNull(IORING_OP_MSG_RING, fd, len, data);
      fields := fields.(opFlags := IORING_MSG_RING_FLAGS_PASS | flags, union5 := cqeFlags);
    }

    method PrepMsgRing(fd: i32, len: u32, data: u64, flags: u32)
      modifies this
      ensures fields == MsgRing(old(fields), fd, len, data, flags)
    {
      PrepRwNull(IORING_OP_MSG_RING, fd, len, data);
      fields := fields.(opFlags := flags);
    }

    /** `prep_msg_ring_fd`. The command is passed as `Some(&(IORING_MSG_SEND_FD as *const usize))`,
        a reference to a temporary, so `addr` receives the temporary's address `cmdTemp`, not the
        command value. */
    method PrepMsgRingFd(fd: i32, sourceFd: i32, targetFd: i32, data: u64, flags: u32, cmdTemp: Ref)
      modifies this
      ensures fields == MsgRingFd(old(fields), fd, sourceFd, targetFd, data, flags, cmdTemp)
    {
      PrepRw(IORING_OP_MSG_RING, fd, Some(cmdTemp), 0, data);
      fields := fields.(addr3 := I32ToU64(sourceFd));
      var target := if targetFd == IORING_FILE_INDEX_ALLOC then targetFd - 1 else targetFd;
      IoUringSetTargetFixedFile(target);
      fields := fields.(opFlags := flags);
    }

    method PrepMsgRingFdAlloc(fd: i32, sourceFd: i32, data: u64, flags: u32, cmdTemp: Ref)
      modifies this
      ensures fields == MsgRingFd(old(fields), fd, sourceFd, IORING_FILE_INDEX_ALLOC, data, flags, cmdTemp)
    {
      PrepMsgRingFd(fd, sourceFd, IORING_FILE_INDEX_ALLOC, data, flags, cmdTemp);
    }

    method PrepSocket(domain: i32, sockType: i32, protocol: i32, flags: u32)
      modifies this
      ensures fields == Socket(old(fields), domain, sockType, protocol, flags)
    {
      PrepRwNull(IORING_OP_SOCKET, domain, protocol, I32ToU64(sockType));
      fields := fields.(opFlags := flags);
    }

    method PrepSocketDirect(domain: i32, sockType: i32, protocol: i32, fileIndex: u32, flags: u32)
      modifies this
      ensures fields == SocketDirect(old(fields), domain, sockType, protocol, fileIndex, flags)
    {
      PrepSocket(domain, sockType, protocol, flags);
      var target := if fileIndex == IORING_FILE_INDEX_ALLOC then fileIndex - 1 else fileIndex;
      IoUringSetTargetFixedFile(target);
    }

    method PrepSocketDirectAlloc(domain: i32, sockType: i32, protocol: i32, flags: u32)
      modifies this
      ensures fields == SocketDirectAlloc(old(fields), domain, sockType, protocol, flags)
    {
      PrepSocket(domain, sockType, protocol, flags);
      IoUringSetTargetFixedFile(IORING_FILE_INDEX_ALLOC - 1);
    }
  }
}
