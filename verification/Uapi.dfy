/** The part of the ublk user-space interface that the queues depend on:
    feature bits, I/O operations, errno values and I/O descriptors. */
module Uapi {

  const U16: nat := 0x1_0000             // values of uint16_t
  const SIZEOF_U16: nat := 2
  const SIZEOF_IO_DESC: nat := 24        // sizeof(ublksrv_io_desc)

  const UBLK_IO_OP_ZONE_APPEND: nat := 13

  const EIO: int := 5
  const ENODEV: int := 19
  const ECANCELED: int := 125

  /** The device flags that the queues test: UBLK_F_SUPPORT_ZERO_COPY, UBLK_F_USER_COPY,
      UBLK_F_AUTO_BUF_REG and UBLK_F_ZONED. */
  datatype Features = Features(zeroCopy: bool, userCopy: bool, autoBufReg: bool, zoned: bool)

  /** What a worker reads from `ublksrv_io_desc.op_flags`: the operation (bits 0-7) and
      UBLK_IO_F_NEED_REG_BUF (bit 17). `serial` stands for the rest of the descriptor. */
  datatype Request = Request(op: nat, needRegBuf: bool, serial: nat)

  predicate IsZoneAppend(q: Request) {
    q.op == UBLK_IO_OP_ZONE_APPEND
  }

  predicate NeedAllocBuf(f: Features) {
    !(f.zeroCopy || f.userCopy)
  }

  /** `need_f_buf_addr_`: commit elements carry a buffer address. */
  predicate NeedBufAddr(f: Features) {
    !f.autoBufReg && NeedAllocBuf(f)
  }

  predicate NeedIoBuf(f: Features, q: Request) {
    q.needRegBuf || (f.zeroCopy && !f.autoBufReg)
  }

  /** How the sender returned by `handle_io` completes. */
  datatype Outcome =
    | Value(res: int)
    | ZonedValue(res: int, lba: nat)
    | ErrorCode(code: int)
    | SystemError(code: int)
    | OtherException
    | Stopped

  datatype IoResult = IoResult(res: int, lba: nat)

  /** `wrap_handle_io`: every completion, stop included, becomes a result to commit. */
  function WrapHandleIo(o: Outcome): IoResult {
    match o
    case Value(res) => IoResult(res, 0)
    case ZonedValue(res, lba) => IoResult(res, lba)
    case ErrorCode(code) => IoResult(-code, 0)
    case SystemError(code) => IoResult(-code, 0)
    case OtherException => IoResult(-EIO, 0)
    case Stopped => IoResult(-ECANCELED, 0)
  }
}
