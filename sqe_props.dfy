/** What the reference encoders of `SqeSpec` guarantee: the fields each writes, the fields each
    leaves as the previous request left them, and how the composite encoders relate to the base
    encoders they patch. */
module SqeProps {
  import opened Abi
  import opened Consts
  import opened SqeSpec

  /** A base helper writes the header words as given, clears `flags` and `ioprio`, and leaves
      `user_data`, the flag union, `buffer_select`, `personality`, `union5` and `union6` alone. */
  lemma BaseHelperWritesHeaderOnly(p: SqeFields, op: u8, fd: i32, addr: Addr, len: u32, off: u64)
    ensures var r := Rw(p, op, fd, addr, len, off);
            r.opcode == op && r.flags == 0 && r.ioprio == 0 && r.fd == fd &&
            r.union1 == off && r.union2 == addr && r.len == len && TailKept(p, r)
  {
  }

  /** `prep_nop` on a reused slot keeps the stale tail of the previous request. */
  lemma NopKeepsStaleFields(p: SqeFields)
    ensures var r := Nop(p);
            r.opcode == IORING_OP_NOP && r.fd == NO_FD && r.union1 == 0 && r.union2 == 0 &&
            r.len == 0 && TailKept(p, r)
  {
  }

  /** For instance, a no-op prepared in a slot that last held a splice still carries the splice's
      input descriptor and flags. */
  lemma NopAfterSpliceKeepsSpliceFields(p: SqeFields, fdIn: i32, offIn: i64, fdOut: i32, offOut: i64,
                                        nbytes: u32, spliceFlags: u32)
    ensures var r := Nop(Splice(p, fdIn, offIn, fdOut, offOut, nbytes, spliceFlags));
            r.union5 == fdIn && r.opFlags == spliceFlags && r.union2 == 0 && r.opcode == IORING_OP_NOP
  {
  }

  /** A slice's address is null exactly when the slice is absent, an absent slice stores length 0,
      and a present one stores its length exactly when that length fits in 32 bits. */
  lemma SliceWireValues(b: Option<Slice>)
    ensures BufAddr(b) == NULL <==> b.None?
    ensures b.None? ==> BufLen(b) == 0
    ensures b.Some? ==> (BufLen(b) == U64ToU32(b.value.len))
  {
  }

  /** Truncating a `usize` length to `u32` loses nothing exactly when the length is below 2^32. */
  lemma LengthTruncation(n: usize)
    ensures (U64ToU32(n) as bv64 == n) <==> n >> 32 == 0
  {
  }

  /** `prep_poll_add`: a poll request with no buffer, whose mask lies in memory in little-endian order
      whatever the host's byte order. */
  lemma PollAddFields(p: SqeFields, fd: i32, pollMask: u32, host: Endian)
    ensures var r := PollAdd(p, fd, pollMask, host);
            r.opcode == IORING_OP_POLL_ADD && r.fd == fd && r.len == 0 && r.union1 == 0 &&
            r.union2 == 0 && r.flags == 0 && r.ioprio == 0 &&
            Bytes32(r.opFlags, host) == Bytes32(pollMask, Little)
  {
    ToLe32StoresLittleEndian(pollMask, host);
  }

  /** `prep_poll_multishot` differs from `prep_poll_add` only in `len`, which holds
      `IORING_POLL_ADD_MULTI`. */
  lemma PollMultishotIsPollAddWithMulti(p: SqeFields, fd: i32, pollMask: u32, host: Endian)
    ensures PollMultishot(p, fd, pollMask, host).len == IORING_POLL_ADD_MULTI
    ensures PollMultishot(p, fd, pollMask, host).(len := 0) == PollAdd(p, fd, pollMask, host)
  {
  }

  /** The direct-descriptor encoding: a requested index `f` is stored as `f + 1`, except that
      `IORING_FILE_INDEX_ALLOC` is stored as itself. The stored value is never 0 (which would mean
      "no direct descriptor"), and for every other index the kernel recovers `f` as `stored - 1`. */
  lemma DirectFileIndexEncoding(f: u32)
    ensures StoredFileIndex(f) == if f == 0xFFFF_FFFF then 0xFFFF_FFFF else f + 1
    ensures StoredFileIndex(f) != 0
    ensures f != IORING_FILE_INDEX_ALLOC ==> StoredFileIndex(f) - 1 == f
  {
  }

  /** The one collision of the encoding: asking for slot `0xFFFF_FFFE` stores the same value as asking
      the kernel to allocate a slot. */
  lemma DirectFileIndexCollision()
    ensures StoredFileIndex(0xFFFF_FFFE) == StoredFileIndex(IORING_FILE_INDEX_ALLOC)
  {
  }

  /** The `*_alloc` encoders store `(IORING_FILE_INDEX_ALLOC - 1) + 1`, the allocation request. */
  lemma AllocTargetStoresAlloc(p: SqeFields)
    ensures SetTargetFixedFile(p, ALLOC_TARGET).union5 == IORING_FILE_INDEX_ALLOC
    ensures SetTargetFixedFile(p, ALLOC_TARGET).union5 == StoredFileIndex(IORING_FILE_INDEX_ALLOC)
  {
  }

  /** `prep_accept_direct` is `prep_accept` with the encoded file index in `union5`. */
  lemma AcceptDirectEncodesIndex(p: SqeFields, fd: i32, addr: Addr, addrlen: Addr, flags: u32, f: u32)
    ensures AcceptDirect(p, fd, addr, addrlen, flags, f).union5 == StoredFileIndex(f)
    ensures AcceptDirect(p, fd, addr, addrlen, flags, f).(union5 := p.union5) == Accept(p, fd, addr, addrlen, flags)
  {
  }

  /** `prep_openat_direct` is `prep_openat` with the encoded file index in `union5`. */
  lemma OpenatDirectEncodesIndex(p: SqeFields, dfd: i32, path: Addr, flags: i32, mode: u32, f: u32)
    ensures OpenatDirect(p, dfd, path, flags, mode, f).union5 == StoredFileIndex(f)
    ensures OpenatDirect(p, dfd, path, flags, mode, f).(union5 := p.union5) == Openat(p, dfd, path, flags, mode)
  {
  }

  /** `prep_socket_direct` is `prep_socket` with the encoded file index in `union5`;
      `prep_socket_direct_alloc` stores the allocation request. */
  lemma SocketDirectEncodesIndex(p: SqeFields, domain: i32, sockType: i32, protocol: i32, f: u32, flags: u32)
    ensures SocketDirect(p, domain, sockType, protocol, f, flags).union5 == StoredFileIndex(f)
    ensures SocketDirect(p, domain, sockType, protocol, f, flags).(union5 := p.union5)
            == Socket(p, domain, sockType, protocol, flags)
    ensures SocketDirectAlloc(p, domain, sockType, protocol, flags)
            == SocketDirect(p, domain, sockType, protocol, IORING_FILE_INDEX_ALLOC, flags)
  {
  }

  /** `prep_multishot_accept_direct` stores the allocation request on top of `prep_multishot_accept`. */
  lemma MultishotAcceptDirectAllocates(p: SqeFields, fd: i32, addr: Addr, addrlen: Addr, flags: u32)
    ensures MultishotAcceptDirect(p, fd, addr, addrlen, flags).union5 == IORING_FILE_INDEX_ALLOC
    ensures MultishotAcceptDirect(p, fd, addr, addrlen, flags).(union5 := p.union5)
            == MultishotAccept(p, fd, addr, addrlen, flags)
  {
  }

  /** `prep_close_direct` closes descriptor 0 of the direct table slot `f`, adding one with no
      allocation check: the largest index wraps to 0, which no longer names a direct slot. */
  lemma CloseDirectAddsOne(p: SqeFields, f: u32)
    ensures CloseDirect(p, f).fd == 0 && CloseDirect(p, f).opcode == IORING_OP_CLOSE
    ensures CloseDirect(p, f).union5 - 1 == f
    ensures f == 0xFFFF_FFFF ==> CloseDirect(p, f).union5 == 0
    ensures f != 0xFFFF_FFFF ==> CloseDirect(p, f).union5 == StoredFileIndex(f)
  {
  }

  /** `prep_multishot_accept` is `prep_accept` with `ioprio == IORING_ACCEPT_MULTISHOT`. */
  lemma MultishotAcceptOnlySetsIoprio(p: SqeFields, fd: i32, addr: Addr, addrlen: Addr, flags: u32)
    ensures MultishotAccept(p, fd, addr, addrlen, flags).ioprio == U32ToU16(IORING_ACCEPT_MULTISHOT)
    ensures MultishotAccept(p, fd, addr, addrlen, flags).(ioprio := 0) == Accept(p, fd, addr, addrlen, flags)
  {
  }

  /** The receive multishot variants are their base encoders with `ioprio == IORING_RECV_MULTISHOT`. */
  lemma RecvMultishotOnlySetsIoprio(p: SqeFields, fd: i32, buf: Addr, len: u32, flags: i32, msg: Addr,
                                    msgFlags: u32)
    ensures RecvMultishot(p, fd, buf, len, flags).ioprio == U32ToU16(IORING_RECV_MULTISHOT)
    ensures RecvMultishot(p, fd, buf, len, flags).(ioprio := 0) == Recv(p, fd, buf, len, flags)
    ensures RecvmsgMultishot(p, fd, msg, msgFlags).ioprio == U32ToU16(IORING_RECV_MULTISHOT)
    ensures RecvmsgMultishot(p, fd, msg, msgFlags).(ioprio := 0) == Recvmsg(p, fd, msg, msgFlags)
  {
  }

  /** Or-ing a flag into a word sets that flag and keeps every other bit. */
  lemma OrSetsBit(word: u32, bit: u32)
    ensures (word | bit) & bit == bit
    ensures (word | bit) & !bit == word & !bit
  {
  }

  /** `prep_timeout_update` is a timeout-remove request that carries the new timespec in `off`, the
      target in `addr` and the update bit among the caller's flags. */
  lemma TimeoutUpdateFields(p: SqeFields, ts: Addr, userData: u64, flags: u32)
    ensures var r := TimeoutUpdate(p, ts, userData, flags);
            r.opcode == IORING_OP_TIMEOUT_REMOVE && r.union1 == ts && r.union2 == userData &&
            r.opFlags & IORING_TIMEOUT_UPDATE != 0 &&
            r.opFlags & !IORING_TIMEOUT_UPDATE == flags & !IORING_TIMEOUT_UPDATE
  {
    OrSetsBit(flags, IORING_TIMEOUT_UPDATE);
  }

  /** `prep_cancel_fd` matches by descriptor: the `IORING_ASYNC_CANCEL_FD` bit is set and the
      caller's other bits are kept. */
  lemma CancelFdFields(p: SqeFields, fd: i32, flags: u32)
    ensures var r := CancelFd(p, fd, flags);
            r.opcode == IORING_OP_ASYNC_CANCEL && r.fd == fd && r.union2 == 0 &&
            r.opFlags & IORING_ASYNC_CANCEL_FD != 0 &&
            r.opFlags & !IORING_ASYNC_CANCEL_FD == flags & !IORING_ASYNC_CANCEL_FD
  {
    OrSetsBit(flags, IORING_ASYNC_CANCEL_FD);
  }

  /** `prep_splice` writes the output side into the header and the input side into `union2`/`union5`;
      `prep_tee` is a splice with both offsets 0 under its own opcode. */
  lemma SpliceAndTeeFields(p: SqeFields, fdIn: i32, offIn: i64, fdOut: i32, offOut: i64, nbytes: u32,
                           spliceFlags: u32)
    ensures var r := Splice(p, fdIn, offIn, fdOut, offOut, nbytes, spliceFlags);
            r.opcode == IORING_OP_SPLICE && r.fd == fdOut && r.len == nbytes && r.union1 == offOut &&
            r.union2 == offIn && r.union5 == fdIn && r.opFlags == spliceFlags
    ensures Tee(p, fdIn, fdOut, nbytes, spliceFlags)
            == Splice(p, fdIn, 0, fdOut, 0, nbytes, spliceFlags).(opcode := IORING_OP_TEE)
  {
  }

  /** `prep_send_zc_fixed` adds the fixed-buffer bit to the zero-copy flags in `ioprio` and stores the
      low 16 bits of the buffer index; `prep_sendmsg_zc` is `prep_sendmsg` under the zero-copy opcode. */
  lemma ZeroCopyVariants(p: SqeFields, sockfd: i32, buf: Addr, len: u32, flags: i32, zcFlags: u32,
                         bufIndex: u32, fd: i32, msg: Addr, msgFlags: u32)
    ensures var r := SendZcFixed(p, sockfd, buf, len, flags, zcFlags, bufIndex);
            r.ioprio == U32ToU16(zcFlags) | U32ToU16(IORING_RECVSEND_FIXED_BUF) &&
            r.bufferSelect == U32ToU16(bufIndex) &&
            r.(ioprio := U32ToU16(zcFlags), bufferSelect := p.bufferSelect) == SendZc(p, sockfd, buf, len, flags, zcFlags)
    ensures SendmsgZc(p, fd, msg, msgFlags).opcode == IORING_OP_SENDMSG_ZC
    ensures SendmsgZc(p, fd, msg, msgFlags).(opcode := IORING_OP_SENDMSG) == Sendmsg(p, fd, msg, msgFlags)
  {
  }

  /** `prep_msg_ring_fd`: the source descriptor sign-extended in `addr3`, the target encoded like any
      direct descriptor, and the value of `addr` the only thing the two binding styles can change. */
  lemma MsgRingFdFields(p: SqeFields, fd: i32, sourceFd: i32, targetFd: i32, data: u64, flags: u32,
                        cmd: Addr, otherCmd: Addr)
    ensures var r := MsgRingFd(p, fd, sourceFd, targetFd, data, flags, cmd);
            r.opcode == IORING_OP_MSG_RING && r.union1 == data && r.union2 == cmd && r.len == 0 &&
            r.addr3 == I32ToU64(sourceFd) && r.union5 == StoredFileIndex(targetFd) && r.opFlags == flags
    ensures MsgRingFd(p, fd, sourceFd, targetFd, data, flags, cmd).(union2 := otherCmd)
            == MsgRingFd(p, fd, sourceFd, targetFd, data, flags, otherCmd)
    ensures MsgRingFd(p, fd, sourceFd, IORING_FILE_INDEX_ALLOC, data, flags, cmd).union5 == IORING_FILE_INDEX_ALLOC
  {
  }

  /** `prep_msg_ring_cqe_flags` always passes the flags through and carries them in `union5`;
      without that flag it is `prep_msg_ring`. */
  lemma MsgRingCqeFlagsFields(p: SqeFields, fd: i32, len: u32, data: u64, flags: u32, cqeFlags: u32)
    ensures var r := MsgRingCqeFlags(p, fd, len, data, flags, cqeFlags);
            r.opFlags & IORING_MSG_RING_FLAGS_PASS != 0 && r.union5 == cqeFlags
    ensures MsgRingCqeFlags(p, fd, len, data, flags, cqeFlags).(union5 := p.union5)
            == MsgRing(p, fd, len, data, IORING_MSG_RING_FLAGS_PASS | flags)
  {
  }

  /** `prep_sendto` is `prep_send` plus the destination in `addr2` and `addr_len` in the first two
      bytes of `union5`, whose last two bytes keep the previous content. */
  lemma SendtoFields(p: SqeFields, sockfd: i32, buf: Addr, len: u32, flags: i32, destAddr: Addr,
                     addrLen: u16, host: Endian)
    ensures var r := Sendto(p, sockfd, buf, len, flags, destAddr, addrLen, host);
            var s := Send(p, sockfd, buf, len, flags);
            r.union1 == destAddr && r.(union1 := s.union1, union5 := s.union5) == s &&
            Bytes32(r.union5, host)[2..] == Bytes32(p.union5, host)[2..]
  {
    WriteFirstHalfBytes(p.union5, addrLen, host);
  }

  /** A timeout count and a connect address length are zero-extended into the 64-bit `off`. */
  lemma ZeroExtendedOffsets(p: SqeFields, ts: Addr, count: u32, flags: u32, fd: i32, addr: Addr,
                            addrlen: u32)
    ensures Timeout(p, ts, count, flags).union1 & 0xFFFF_FFFF == count as bv64
    ensures Timeout(p, ts, count, flags).union1 >> 32 == 0
    ensures Connect(p, fd, addr, addrlen).union1 & 0xFFFF_FFFF == addrlen as bv64
    ensures Connect(p, fd, addr, addrlen).union1 >> 32 == 0
  {
    ZeroExtendHalves(count);
    ZeroExtendHalves(addrlen);
  }

  /** A files-update offset is sign-extended into the 64-bit `off`. */
  lemma FilesUpdateSignExtendsOffset(p: SqeFields, fds: Addr, nrFds: u32, offset: i32)
    ensures FilesUpdate(p, fds, nrFds, offset).union1 & 0xFFFF_FFFF == offset as bv64
    ensures FilesUpdate(p, fds, nrFds, offset).union1 >> 32 == if Negative(offset) then 0xFFFF_FFFF else 0
  {
    I32ToU64SignExtends(offset);
  }

  /** A socket type is sign-extended into the 64-bit `off`, and the protocol goes into `len`. */
  lemma SocketSignExtendsType(p: SqeFields, domain: i32, sockType: i32, protocol: i32, flags: u32)
    ensures Socket(p, domain, sockType, protocol, flags).union1 & 0xFFFF_FFFF == sockType as bv64
    ensures Socket(p, domain, sockType, protocol, flags).union1 >> 32
            == if Negative(sockType) then 0xFFFF_FFFF else 0
    ensures Socket(p, domain, sockType, protocol, flags).len == protocol
  {
    I32ToU64SignExtends(sockType);
  }

  /** A fresh accept on descriptor 7 with no address, no length pointer and no flags. */
  lemma AcceptScenario()
    ensures Accept(Zeroed, 7, NULL, NULL, 0)
            == Zeroed.(opcode := IORING_OP_ACCEPT, fd := 7)
  {
  }

  /** A poll on descriptor 3 for `POLLIN` (1), then the same slot re-prepared as a multishot poll. */
  lemma PollScenario()
    ensures PollAdd(Zeroed, 3, 1, Little) == Zeroed.(opcode := IORING_OP_POLL_ADD, fd := 3, opFlags := 1)
    ensures PollMultishot(PollAdd(Zeroed, 3, 1, Little), 3, 1, Little)
            == Zeroed.(opcode := IORING_OP_POLL_ADD, fd := 3, opFlags := 1, len := IORING_POLL_ADD_MULTI)
    ensures PollAdd(Zeroed, 3, 1, Big).opFlags == 0x0100_0000
  {
  }
}
