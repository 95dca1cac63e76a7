/** `SubmissionEntry` of the safe crate: a borrowed submission record whose methods call the
    reference-taking binding's encoders and return the entry itself, so that calls chain. */
module Submission {
  import opened Abi
  import opened Consts
  import opened SqeSpec
  import SqeCore
  import RaskSysPrep

  class SubmissionEntry {
    const inner: SqeCore.IoUringSqe

    constructor New(sqe: SqeCore.IoUringSqe)
      ensures inner == sqe
    {
      inner := sqe;
    }

    /** `set_user_data`: through `io_uring_sqe_set_data64`. */
    method SetUserData(data: u64) returns (self: SubmissionEntry)
      modifies inner
      ensures self == this && inner.fields == SetData64(old(inner.fields), data)
    {
      RaskSysPrep.IoUringSqeSetData64(inner, data);
      self := this;
    }

    /** `prep_accept`: `io_uring_prep_accept` with null address, null length and no flags. */
    method PrepAccept(fd: i32) returns (self: SubmissionEntry)
      modifies inner
      ensures self == this && inner.fields == Accept(old(inner.fields), fd, NULL, NULL, 0)
    {
      RaskSysPrep.IoUringPrepAccept(inner, fd, None, None, 0);
      self := this;
    }

    /** `prep_accept_multi`: `io_uring_prep_multishot_accept` with the same arguments. */
    method PrepAcceptMulti(fd: i32) returns (self: SubmissionEntry)
      modifies inner
      ensures self == this && inner.fields == MultishotAccept(old(inner.fields), fd, NULL, NULL, 0)
    {
      RaskSysPrep.IoUringPrepMultishotAccept(inner, fd, None, None, 0);
      self := this;
    }

    /** `prep_recv`: `io_uring_prep_recv` over the whole buffer, no message flags. */
    method PrepRecv(fd: i32, buffer: Slice) returns (self: SubmissionEntry)
      modifies inner
      ensures self == this &&
              inner.fields == Recv(old(inner.fields), fd, buffer.ptr, U64ToU32(buffer.len), 0)
    {
      RaskSysPrep.IoUringPrepRecv(inner, fd, buffer, 0);
      self := this;
    }

    /** `prep_send`: `io_uring_prep_send` over the whole buffer, no message flags. */
    method PrepSend(fd: i32, buffer: Slice) returns (self: SubmissionEntry)
      modifies inner
      ensures self == this &&
              inner.fields == Send(old(inner.fields), fd, buffer.ptr, U64ToU32(buffer.len), 0)
    {
      RaskSysPrep.IoUringPrepSend(inner, fd, buffer, 0);
      self := this;
    }

    /** `prep_close`: `io_uring_prep_close`. */
    method PrepClose(fd: i32) returns (self: SubmissionEntry)
      modifies inner
      ensures self == this && inner.fields == Close(old(inner.fields), fd)
    {
      RaskSysPrep.IoUringPrepClose(inner, fd);
      self := this;
    }
  }

  /** `set_user_data` writes `user_data` and nothing else. */
  lemma UserDataOnly(p: SqeFields, data: u64)
    ensures SetData64(p, data) == p.(userData := data)
  {
  }

  /** `prep_accept`: the accept opcode on `fd`, every address, offset, length and flag word 0,
      and the rest of the record as it was. */
  lemma AcceptEntryFields(p: SqeFields, fd: i32)
    ensures var q := Accept(p, fd, NULL, NULL, 0);
            q.opcode == IORING_OP_ACCEPT && q.fd == fd && q.union2 == 0 && q.union1 == 0 &&
            q.len == 0 && q.opFlags == 0 && q.flags == 0 && q.ioprio == 0 &&
            q.userData == p.userData && q.bufferSelect == p.bufferSelect &&
            q.personality == p.personality && q.union5 == p.union5 && q.addr3 == p.addr3 &&
            q.pad2 == p.pad2
  {
  }

  /** `prep_accept_multi` is `prep_accept` with the multishot bit as the whole `ioprio`. */
  lemma AcceptMultiIsAcceptWithMultishot(p: SqeFields, fd: i32)
    ensures MultishotAccept(p, fd, NULL, NULL, 0) ==
            Accept(p, fd, NULL, NULL, 0).(ioprio := 1)
    ensures U32ToU16(IORING_ACCEPT_MULTISHOT) == 1
  {
  }

  /** `prep_recv` and `prep_send`: the buffer's address, its length cast to `u32`, offset 0 and
      no message flags. */
  lemma RecvAndSendEntryFields(p: SqeFields, fd: i32, buffer: Slice)
    ensures var r := Recv(p, fd, buffer.ptr, U64ToU32(buffer.len), 0);
            r.opcode == IORING_OP_RECV && r.fd == fd && r.union2 == buffer.ptr &&
            r.len == U64ToU32(buffer.len) && r.union1 == 0 && r.opFlags == 0
    ensures var s := Send(p, fd, buffer.ptr, U64ToU32(buffer.len), 0);
            s.opcode == IORING_OP_SEND && s.fd == fd && s.union2 == buffer.ptr &&
            s.len == U64ToU32(buffer.len) && s.union1 == 0 && s.opFlags == 0
  {
  }

  /** `prep_close`: the close opcode on `fd`, address, length and offset 0. */
  lemma CloseEntryFields(p: SqeFields, fd: i32)
    ensures var q := Close(p, fd);
            q.opcode == IORING_OP_CLOSE && q.fd == fd && q.len == 0 && q.union2 == 0 &&
            q.union1 == 0
  {
  }

  /** Chaining: `set_user_data` after `prep_accept` on a fresh record keeps the accept request
      and carries the data into the completion. */
  method AcceptWithUserData(sqe: SqeCore.IoUringSqe, fd: i32, data: u64)
    returns (entry: SubmissionEntry)
    modifies sqe
    ensures entry.inner == sqe
    ensures sqe.fields == Accept(old(sqe.fields), fd, NULL, NULL, 0).(userData := data)
  {
    entry := new SubmissionEntry.New(sqe);
    var e := entry.PrepAccept(fd);
    e := e.SetUserData(data);
  }
}
