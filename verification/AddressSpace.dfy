/** The address layout of the character device and the addresses packed into 64 bits. */
module AddressSpace {
  import opened Uapi
  import opened Seqs

  const UBLK_MAX_QUEUE_DEPTH: nat := 4096
  const UBLK_MAX_NR_QUEUES: nat := 4096
  const UBLKSRV_CMD_BUF_OFFSET: nat := 0
  const UBLKSRV_IO_BUF_OFFSET: nat := 0x8000_0000

  /** `io_desc_offset` */
  function IoDescOffset(q: nat): nat {
    UBLKSRV_CMD_BUF_OFFSET + q * UBLK_MAX_QUEUE_DEPTH * SIZEOF_IO_DESC
  }

  /** The descriptor regions start at 0 and follow each other, 4096 descriptors of 24 bytes each. */
  lemma DescriptorRegionsFollow(q: nat)
    ensures IoDescOffset(0) == 0
    ensures IoDescOffset(q + 1) == IoDescOffset(q) + 4096 * 24
  {
  }

  /** The descriptor regions of different queues are disjoint and end below the I/O buffer area. */
  lemma DescriptorRegionsDisjoint(q: nat, depth: nat, q': nat, depth': nat)
    requires q < q' < UBLK_MAX_NR_QUEUES && depth <= UBLK_MAX_QUEUE_DEPTH && depth' <= UBLK_MAX_QUEUE_DEPTH
    ensures IoDescOffset(q) + depth * SIZEOF_IO_DESC <= IoDescOffset(q')
    ensures IoDescOffset(q') + depth' * SIZEOF_IO_DESC <= UBLKSRV_IO_BUF_OFFSET
  {
  }

  /** The distance between the regions of neighbouring queues. */
  const STRIDE: nat := UBLK_MAX_QUEUE_DEPTH * SIZEOF_IO_DESC

  lemma OffsetIsAligned(q: nat, page: nat)
    requires page > 0 && STRIDE % page == 0
    ensures IoDescOffset(q) % page == 0
  {
    assert STRIDE == (STRIDE / page) * page;
    assert IoDescOffset(q) == q * STRIDE;
    MultipleOf(q * (STRIDE / page), page);
    assert IoDescOffset(q) == (q * (STRIDE / page)) * page;
  }

  /** What a mapping occupies: whole pages. */
  function Mapped(depth: nat, page: nat): nat
    requires page > 0
  {
    AlignUp(depth * SIZEOF_IO_DESC, page)
  }

  lemma AlignUpMonotone(a: nat, b: nat, page: nat)
    requires page > 0 && a <= b && b % page == 0
    ensures AlignUp(a, page) <= b
  {
    AlignUpMultiple(a, page);
    var x := AlignUp(a, page);
    AlignUpBounds(a, page);
    if x > b {
      MultiplesApart(b, x, page);
    }
  }

  lemma MultiplesApart(a: nat, b: nat, page: nat)
    requires page > 0 && a % page == 0 && b % page == 0 && a < b
    ensures a + page <= b
  {
    var m, n := a / page, b / page;
    assert a == m * page && b == n * page;
    assert m < n;
    assert (m + 1) * page <= n * page;
  }

  /** With page rounding the regions of full queues stay apart, for all neighbours, if and only if the
      page size divides the stride: 32 KiB pages still do, 64 KiB pages do not. */
  lemma RoundedRegionsDisjointIff(q: nat, page: nat)
    requires page > 0
    ensures IoDescOffset(q) + Mapped(UBLK_MAX_QUEUE_DEPTH, page) <= IoDescOffset(q + 1) <==> STRIDE % page == 0
  {
    AlignUpBounds(STRIDE, page);
    AlignUpMultiple(STRIDE, page);
    if STRIDE % page == 0 {
      AlignUpMonotone(STRIDE, STRIDE, page);
    }
    assert IoDescOffset(q + 1) == IoDescOffset(q) + STRIDE;
  }

  /** Then the mappings of any two queues, of any depths, start on a page, do not overlap and end below
      the I/O buffer area. */
  lemma MappingsDisjoint(q: nat, depth: nat, q': nat, depth': nat, page: nat)
    requires q < q' < UBLK_MAX_NR_QUEUES && depth <= UBLK_MAX_QUEUE_DEPTH && depth' <= UBLK_MAX_QUEUE_DEPTH
    requires page > 0 && STRIDE % page == 0
    ensures IoDescOffset(q) % page == 0 && IoDescOffset(q') % page == 0
    ensures IoDescOffset(q) + Mapped(depth, page) <= IoDescOffset(q')
    ensures IoDescOffset(q') + Mapped(depth', page) <= UBLKSRV_IO_BUF_OFFSET
  {
    AlignUpMonotone(depth' * SIZEOF_IO_DESC, STRIDE, page);
    OffsetIsAligned(q, page);
    OffsetIsAligned(q', page);
    AlignUpMonotone(depth * SIZEOF_IO_DESC, STRIDE, page);
  }

  // ---------------------------------------------------------------- user copy

  const UBLK_INTEGRITY_FLAG: bv64 := 1 << 62
  const IO_BUF_BASE: bv64 := 0x8000_0000

  /** The offset takes 25 bits (UBLK_IO_BUF_BITS), the tag 16 above them (UBLK_TAG_OFF is 25), and the
      queue what is above the tag (UBLK_QID_OFF is 41). */
  function Pack(q: bv16, tag: bv16, offset: bv32): bv64 {
    ((q as bv64) << 41) | ((tag as bv64) << 25) | (offset as bv64)
  }

  /** `user_copy_pos`, for an offset of at most 25 bits as the code asserts. */
  function UserCopyPos(q: bv16, tag: bv16, offset: bv32): bv64
    requires offset < 0x200_0000
  {
    IO_BUF_BASE + Pack(q, tag, offset)
  }

  /** The position relative to the I/O buffer area. */
  function Unbased(pos: bv64): bv64 {
    pos - IO_BUF_BASE
  }

  lemma BaseCancels(q: bv16, tag: bv16, offset: bv32)
    requires offset < 0x200_0000
    ensures Unbased(UserCopyPos(q, tag, offset)) == Pack(q, tag, offset) < (1 << 57)
  {
  }

  lemma BaseKeepsRange(p: bv64)
    requires p < (1 << 57)
    ensures IO_BUF_BASE <= IO_BUF_BASE + p < UBLK_INTEGRITY_FLAG && (IO_BUF_BASE + p) & UBLK_INTEGRITY_FLAG == 0
  {
  }

  lemma PackReadsBack(q: bv16, tag: bv16, offset: bv32)
    requires offset < 0x200_0000
    ensures var rel := Pack(q, tag, offset);
            rel >> 41 == q as bv64 && (rel >> 25) & 0xFFFF == tag as bv64 && rel & 0x1FF_FFFF == offset as bv64
  {
  }

  /** Queue, tag and offset are recovered from the relative position by shift and mask. */
  lemma UserCopyPosReadsBack(q: bv16, tag: bv16, offset: bv32, rel: bv64)
    requires offset < 0x200_0000 && rel == Unbased(UserCopyPos(q, tag, offset))
    ensures rel >> 41 == q as bv64 && (rel >> 25) & 0xFFFF == tag as bv64 && rel & 0x1FF_FFFF == offset as bv64
  {
    BaseCancels(q, tag, offset);
    PackReadsBack(q, tag, offset);
  }

  /** The position is in the I/O buffer area and leaves the integrity bit alone. */
  lemma UserCopyPosInRange(q: bv16, tag: bv16, offset: bv32)
    requires offset < 0x200_0000
    ensures var pos := UserCopyPos(q, tag, offset);
            IO_BUF_BASE <= pos < UBLK_INTEGRITY_FLAG && pos & UBLK_INTEGRITY_FLAG == 0
  {
    BaseCancels(q, tag, offset);
    BaseKeepsRange(Pack(q, tag, offset));
  }

  /** Equal positions mean equal queue, tag and offset. */
  lemma UserCopyPosInjective(q: bv16, tag: bv16, offset: bv32, q': bv16, tag': bv16, offset': bv32)
    requires offset < 0x200_0000 && offset' < 0x200_0000
    requires UserCopyPos(q, tag, offset) == UserCopyPos(q', tag', offset')
    ensures q == q' && tag == tag' && offset == offset'
  {
    var rel := Unbased(UserCopyPos(q, tag, offset));
    UserCopyPosReadsBack(q, tag, offset, rel);
    UserCopyPosReadsBack(q', tag', offset', rel);
  }

  // ---------------------------------------------------------------- packed addresses

  datatype AutoBufReg = AutoBufReg(index: bv16, flags: bv8, reserved0: bv8, reserved1: bv32)

  /** `ublk_auto_buf_reg_to_sqe_addr` */
  function ToSqeAddr(r: AutoBufReg): bv64 {
    (r.index as bv64) | ((r.flags as bv64) << 16) | ((r.reserved0 as bv64) << 24) | ((r.reserved1 as bv64) << 32)
  }

  /** `ublk_sqe_addr_to_auto_buf_reg` */
  function FromSqeAddr(addr: bv64): AutoBufReg {
    AutoBufReg((addr & 0xFFFF) as bv16, ((addr >> 16) & 0xFF) as bv8, ((addr >> 24) & 0xFF) as bv8,
               ((addr >> 32) & 0xFFFF_FFFF) as bv32)
  }

  /** The two are inverse to each other. */
  lemma AutoBufRegRoundTrip(r: AutoBufReg, addr: bv64)
    ensures FromSqeAddr(ToSqeAddr(r)) == r
    ensures ToSqeAddr(FromSqeAddr(addr)) == addr
  {
  }

  /** `ublk_shmem_zc_addr` */
  function ShmemAddr(index: bv16, offset: bv32): bv64 {
    ((index as bv64) << 32) | (offset as bv64)
  }

  function ShmemIndex(addr: bv64): bv16 {
    ((addr >> 32) & 0xFFFF) as bv16
  }

  function ShmemOffset(addr: bv64): bv32 {
    (addr & 0xFFFF_FFFF) as bv32
  }

  /** Index and offset are recovered, and an address is one of these exactly when its reserved bits
      are zero. */
  lemma ShmemAddrRoundTrip(index: bv16, offset: bv32, addr: bv64)
    ensures ShmemIndex(ShmemAddr(index, offset)) == index && ShmemOffset(ShmemAddr(index, offset)) == offset
    ensures ShmemAddr(ShmemIndex(addr), ShmemOffset(addr)) == addr <==> addr >> 48 == 0
  {
  }
}
