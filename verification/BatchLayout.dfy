/** The bytes of a commit half: the queue's writer, and the decoder that the documented layout of
    `struct ublk_elem_buffer` prescribes. */
module BatchLayout {
  import opened Options
  import opened Seqs
  import opened Uapi

  type byte = x: int | 0 <= x < 256

  // ---------------------------------------------------------------- integers in memory

  function Pow256(n: nat): nat {
    if n == 0 then 1 else 256 * Pow256(n - 1)
  }

  /** The i-th byte of v, counted from the least significant. */
  function Byte(v: nat, i: nat): byte
    decreases i
  {
    if i == 0 then v % 256 else Byte(v / 256, i - 1)
  }

  /** The n low bytes of v, least significant first. */
  function Bytes(v: nat, n: nat): (bs: seq<byte>)
    ensures |bs| == n
  {
    seq(n, i requires 0 <= i < n => Byte(v, i))
  }

  function Value(bs: seq<byte>): nat
    decreases |bs|
  {
    if bs == [] then 0 else bs[0] + 256 * Value(bs[1..])
  }

  lemma {:induction false} ValueOfBytes(v: nat, n: nat)
    requires v < Pow256(n)
    ensures Value(Bytes(v, n)) == v
    decreases n
  {
    if n > 0 {
      ValueOfBytes(v / 256, n - 1);
      assert Bytes(v, n)[1..] == Bytes(v / 256, n - 1);
    }
  }

  const TWO32: nat := 0x1_0000_0000

  predicate IsInt32(x: int) {
    -0x8000_0000 <= x < 0x8000_0000
  }

  /** Two's complement. */
  function ToU32(x: int): nat
    requires IsInt32(x)
  {
    if x < 0 then x + TWO32 else x
  }

  function FromU32(u: nat): int {
    if u >= 0x8000_0000 then u - TWO32 else u
  }

  lemma Pow256Values()
    ensures Pow256(2) == 0x1_0000 && Pow256(4) == TWO32 && Pow256(8) == 0x1_0000_0000_0000_0000
  {
    assert Pow256(0) == 1;
    assert Pow256(1) == 256;
    assert Pow256(2) == 0x1_0000;
    assert Pow256(3) == 0x100_0000;
    assert Pow256(4) == TWO32;
    assert Pow256(5) == 0x100_0000_0000;
    assert Pow256(6) == 0x1_0000_0000_0000;
    assert Pow256(7) == 0x100_0000_0000_0000;
  }

  // ---------------------------------------------------------------- layout

  const HEADER: nat := 8      // sizeof(ublk_elem_header): tag, buf_index, result
  const WORD: nat := 8        // sizeof(uint64_t)

  const UBLK_BATCH_F_HAS_ZONE_LBA: nat := 1
  const UBLK_BATCH_F_HAS_BUF_ADDR: nat := 2
  const UBLK_BATCH_F_AUTO_BUF_REG_FALLBACK: nat := 4

  function BatchFlags(f: Features): nat {
    (if f.autoBufReg then UBLK_BATCH_F_AUTO_BUF_REG_FALLBACK
     else if NeedBufAddr(f) then UBLK_BATCH_F_HAS_BUF_ADDR
     else 0)
    + if f.zoned then UBLK_BATCH_F_HAS_ZONE_LBA else 0
  }

  /** `commit_element_size_` */
  function ElemSize(f: Features): nat {
    HEADER + (if NeedBufAddr(f) then WORD else 0) + (if f.zoned then WORD else 0)
  }

  function ZoneLbaOffset(f: Features): nat {
    HEADER + if NeedBufAddr(f) then WORD else 0
  }

  /** `commit_buf_size_`: the second half starts here. */
  function HalfSize(f: Features, depth: nat, page: nat): nat
    requires page > 0
  {
    AlignUp(depth * ElemSize(f), page)
  }

  /** What one append puts in a slot. */
  datatype Entry = Entry(tag: nat, res: int, bufAddr: nat, lba: nat, append: bool)

  predicate Fits(f: Features, w: Entry) {
    && w.tag < 0x1_0000 && IsInt32(w.res)
    && w.bufAddr < 0x1_0000_0000_0000_0000 && w.lba < 0x1_0000_0000_0000_0000
    && (w.append ==> f.zoned)      // assert(need_f_zone_lba_())
  }

  // ---------------------------------------------------------------- writer

  function Put(s: seq<byte>, at: nat, bs: seq<byte>): (r: seq<byte>)
    requires at + |bs| <= |s|
    ensures |r| == |s|
  {
    seq(|s|, i requires 0 <= i < |s| => if at <= i < at + |bs| then bs[i - at] else s[i])
  }

  /** `set_result_` followed, for a zone append, by `set_zone_lba_`. */
  function WriteEntry(f: Features, s: seq<byte>, at: nat, w: Entry): (r: seq<byte>)
    requires Fits(f, w) && at + ElemSize(f) <= |s|
    ensures |r| == |s|
  {
    var s1 := Put(s, at, Bytes(w.tag, 2));
    var s2 := Put(s1, at + 4, Bytes(ToU32(w.res), 4));
    var s3 := if f.autoBufReg then Put(s2, at + 2, Bytes(w.tag, 2))
              else if NeedBufAddr(f) then Put(s2, at + HEADER, Bytes(w.bufAddr, 8))
              else s2;
    if w.append then Put(s3, at + ZoneLbaOffset(f), Bytes(w.lba, 8)) else s3
  }

  /** The byte offset of slot n, `n * size`. */
  function Slot(n: nat, size: nat): nat {
    if n == 0 then 0 else Slot(n - 1, size) + size
  }

  lemma {:induction false} SlotIsProduct(n: nat, size: nat)
    ensures Slot(n, size) == n * size
  {
    if n > 0 {
      SlotIsProduct(n - 1, size);
    }
  }

  /** The address of slot i of the half that starts at `base`. */
  function SlotAt(f: Features, base: nat, i: nat): nat {
    base + Slot(i, ElemSize(f))
  }

  /** The first n entries, in slots 0, 1, ... of the half that starts at `base`. */
  function WriteFirst(f: Features, s: seq<byte>, base: nat, ws: seq<Entry>, n: nat): (r: seq<byte>)
    requires n <= |ws| && forall i :: 0 <= i < |ws| ==> Fits(f, ws[i])
    requires SlotAt(f, base, n) <= |s|
    ensures |r| == |s|
    decreases n
  {
    if n == 0 then s
    else WriteEntry(f, WriteFirst(f, s, base, ws, n - 1), SlotAt(f, base, n - 1), ws[n - 1])
  }

  function WriteBatch(f: Features, s: seq<byte>, base: nat, ws: seq<Entry>): (r: seq<byte>)
    requires forall i :: 0 <= i < |ws| ==> Fits(f, ws[i])
    requires SlotAt(f, base, |ws|) <= |s|
    ensures |r| == |s|
  {
    WriteFirst(f, s, base, ws, |ws|)
  }

  // ---------------------------------------------------------------- decoder

  datatype Decoded = Decoded(tag: nat, bufIndex: Option<nat>, res: int, bufAddr: Option<nat>, zoneLba: Option<nat>)

  function ReadValue(s: seq<byte>, at: nat, n: nat): nat
    requires at + n <= |s|
  {
    Value(s[at..at + n])
  }

  predicate HasBufAddr(batchFlags: nat) { (batchFlags / UBLK_BATCH_F_HAS_BUF_ADDR) % 2 == 1 }

  predicate HasBufIndex(batchFlags: nat) { (batchFlags / UBLK_BATCH_F_AUTO_BUF_REG_FALLBACK) % 2 == 1 }

  predicate HasZoneLba(batchFlags: nat) { batchFlags % 2 == 1 }

  /** The element at `at`: header, then the optional words announced by the batch flags, in order. The
      buffer index of the header counts only with automatic registration. */
  function Decode(batchFlags: nat, s: seq<byte>, at: nat): Decoded
    requires at + HEADER + (if HasBufAddr(batchFlags) then WORD else 0)
             + (if HasZoneLba(batchFlags) then WORD else 0) <= |s|
  {
    var off := at + HEADER;
    var bufAddr := if HasBufAddr(batchFlags) then Some(ReadValue(s, off, 8)) else None;
    var off1 := off + if HasBufAddr(batchFlags) then WORD else 0;
    var zoneLba := if HasZoneLba(batchFlags) then Some(ReadValue(s, off1, 8)) else None;
    var bufIndex := if HasBufIndex(batchFlags) then Some(ReadValue(s, at + 2, 2)) else None;
    Decoded(ReadValue(s, at, 2), bufIndex, FromU32(ReadValue(s, at + 4, 4)), bufAddr, zoneLba)
  }

  /** The decoded element says what was written. */
  predicate Says(f: Features, d: Decoded, w: Entry) {
    && d.tag == w.tag
    && d.res == w.res
    && d.bufIndex == (if f.autoBufReg then Some(w.tag) else None)
    && d.bufAddr == (if NeedBufAddr(f) then Some(w.bufAddr) else None)
    && (w.append ==> d.zoneLba == Some(w.lba))
  }

  /** The flags that are sent announce elements of the size that is sent. */
  predicate HasLayout(f: Features) {
    HEADER + (if HasBufAddr(BatchFlags(f)) then WORD else 0)
    + (if HasZoneLba(BatchFlags(f)) then WORD else 0) == ElemSize(f)
  }

  /** The flags announce exactly the words an element has, so the driver's stride is the writer's. */
  lemma FlagsAnnounceLayout(f: Features)
    ensures HasBufIndex(BatchFlags(f)) <==> f.autoBufReg
    ensures HasBufAddr(BatchFlags(f)) <==> NeedBufAddr(f)
    ensures HasZoneLba(BatchFlags(f)) <==> f.zoned
    ensures HasLayout(f) && ElemSize(f) <= 0xff
  {
  }

  /** The flags bit by bit: bit 0 for zoned devices, bit 1 where the server lends its own buffers, bit 2
      with automatic registration, and no other. */
  lemma FlagBits(f: Features)
    ensures BatchFlags(f) < 8
    ensures BatchFlags(f) % 2 == 1 <==> f.zoned
    ensures (BatchFlags(f) / 2) % 2 == 1 <==> !f.autoBufReg && !f.zeroCopy && !f.userCopy
    ensures (BatchFlags(f) / 4) % 2 == 1 <==> f.autoBufReg
  {
  }

  // ---------------------------------------------------------------- reading back

  lemma ReadOwn(s: seq<byte>, at: nat, v: nat, n: nat)
    requires at + n <= |s| && v < Pow256(n)
    ensures ReadValue(Put(s, at, Bytes(v, n)), at, n) == v
  {
    assert Put(s, at, Bytes(v, n))[at..at + n] == Bytes(v, n);
    ValueOfBytes(v, n);
  }

  lemma ReadOther(s: seq<byte>, at: nat, bs: seq<byte>, at': nat, n: nat)
    requires at + |bs| <= |s| && at' + n <= |s|
    requires at' + n <= at || at + |bs| <= at'
    ensures ReadValue(Put(s, at, bs), at', n) == ReadValue(s, at', n)
  {
    assert Put(s, at, bs)[at'..at' + n] == s[at'..at' + n];
  }

  lemma HeaderReadsBack(f: Features, s: seq<byte>, at: nat, w: Entry)
    requires Fits(f, w) && at + ElemSize(f) <= |s|
    ensures var r := WriteEntry(f, s, at, w);
            && ReadValue(r, at, 2) == w.tag
            && FromU32(ReadValue(r, at + 4, 4)) == w.res
            && (f.autoBufReg ==> ReadValue(r, at + 2, 2) == w.tag)
  {
    Pow256Values();
    var b2, b4 := Bytes(w.tag, 2), Bytes(ToU32(w.res), 4);
    var s1 := Put(s, at, b2);
    var s2 := Put(s1, at + 4, b4);
    ReadOwn(s, at, w.tag, 2);
    ReadOther(s1, at + 4, b4, at, 2);
    ReadOwn(s1, at + 4, ToU32(w.res), 4);
    var s3 := if f.autoBufReg then Put(s2, at + 2, b2)
              else if NeedBufAddr(f) then Put(s2, at + HEADER, Bytes(w.bufAddr, 8))
              else s2;
    if f.autoBufReg {
      ReadOther(s2, at + 2, b2, at, 2);
      ReadOther(s2, at + 2, b2, at + 4, 4);
      ReadOwn(s2, at + 2, w.tag, 2);
    } else if NeedBufAddr(f) {
      ReadOther(s2, at + HEADER, Bytes(w.bufAddr, 8), at, 2);
      ReadOther(s2, at + HEADER, Bytes(w.bufAddr, 8), at + 4, 4);
    }
    if w.append {
      var z := at + ZoneLbaOffset(f);
      ReadOther(s3, z, Bytes(w.lba, 8), at, 2);
      ReadOther(s3, z, Bytes(w.lba, 8), at + 2, 2);
      ReadOther(s3, z, Bytes(w.lba, 8), at + 4, 4);
    }
  }

  lemma WordsReadBack(f: Features, s: seq<byte>, at: nat, w: Entry)
    requires Fits(f, w) && at + ElemSize(f) <= |s|
    ensures var r := WriteEntry(f, s, at, w);
            && (NeedBufAddr(f) ==> ReadValue(r, at + HEADER, 8) == w.bufAddr)
            && (w.append ==> ReadValue(r, at + ZoneLbaOffset(f), 8) == w.lba)
  {
    Pow256Values();
    var s2 := Put(Put(s, at, Bytes(w.tag, 2)), at + 4, Bytes(ToU32(w.res), 4));
    var s3 := if f.autoBufReg then Put(s2, at + 2, Bytes(w.tag, 2))
              else if NeedBufAddr(f) then Put(s2, at + HEADER, Bytes(w.bufAddr, 8))
              else s2;
    if NeedBufAddr(f) {
      ReadOwn(s2, at + HEADER, w.bufAddr, 8);
      if w.append { ReadOther(s3, at + ZoneLbaOffset(f), Bytes(w.lba, 8), at + HEADER, 8); }
    }
    if w.append {
      ReadOwn(s3, at + ZoneLbaOffset(f), w.lba, 8);
    }
  }

  /** A slot decodes to what was written to it. */
  lemma EntryReadsBack(f: Features, s: seq<byte>, at: nat, w: Entry)
    requires Fits(f, w) && at + ElemSize(f) <= |s|
    ensures Says(f, Decode(BatchFlags(f), WriteEntry(f, s, at, w), at), w)
  {
    FlagsAnnounceLayout(f);
    HeaderReadsBack(f, s, at, w);
    WordsReadBack(f, s, at, w);
  }

  /** s and s' differ at most in the n bytes from `at`. */
  predicate SameOutside(s: seq<byte>, s': seq<byte>, at: nat, n: nat) {
    |s| == |s'| && forall i :: 0 <= i < |s| && !(at <= i < at + n) ==> s'[i] == s[i]
  }

  lemma PutStays(s: seq<byte>, s0: seq<byte>, at: nat, bs: seq<byte>, from: nat, n: nat)
    requires at + |bs| <= |s| && from <= at && at + |bs| <= from + n
    requires SameOutside(s0, s, from, n)
    ensures SameOutside(s0, Put(s, at, bs), from, n)
  {
  }

  /** Writing a slot changes no byte outside it. */
  lemma EntryStaysInSlot(f: Features, s: seq<byte>, at: nat, w: Entry)
    requires Fits(f, w) && at + ElemSize(f) <= |s|
    ensures SameOutside(s, WriteEntry(f, s, at, w), at, ElemSize(f))
  {
    var n := ElemSize(f);
    var s1 := Put(s, at, Bytes(w.tag, 2));
    var s2 := Put(s1, at + 4, Bytes(ToU32(w.res), 4));
    var s3 := if f.autoBufReg then Put(s2, at + 2, Bytes(w.tag, 2))
              else if NeedBufAddr(f) then Put(s2, at + HEADER, Bytes(w.bufAddr, 8))
              else s2;
    PutStays(s, s, at, Bytes(w.tag, 2), at, n);
    PutStays(s1, s, at + 4, Bytes(ToU32(w.res), 4), at, n);
    if f.autoBufReg { PutStays(s2, s, at + 2, Bytes(w.tag, 2), at, n); }
    else if NeedBufAddr(f) { PutStays(s2, s, at + HEADER, Bytes(w.bufAddr, 8), at, n); }
    if w.append { PutStays(s3, s, at + ZoneLbaOffset(f), Bytes(w.lba, 8), at, n); }
  }

  /** Reading a slot looks at the bytes of the slot only. */
  lemma ReadFrame(f: Features, s: seq<byte>, s': seq<byte>, at: nat)
    requires |s| == |s'| && at + ElemSize(f) <= |s|
    requires forall i :: at <= i < at + ElemSize(f) ==> s[i] == s'[i]
    ensures ReadValue(s, at, 2) == ReadValue(s', at, 2)
    ensures ReadValue(s, at + 2, 2) == ReadValue(s', at + 2, 2)
    ensures ReadValue(s, at + 4, 4) == ReadValue(s', at + 4, 4)
    ensures NeedBufAddr(f) ==> ReadValue(s, at + HEADER, 8) == ReadValue(s', at + HEADER, 8)
    ensures f.zoned ==> ReadValue(s, at + ZoneLbaOffset(f), 8) == ReadValue(s', at + ZoneLbaOffset(f), 8)
  {
    assert s[at..at + 2] == s'[at..at + 2];
    assert s[at + 2..at + 4] == s'[at + 2..at + 4];
    assert s[at + 4..at + 8] == s'[at + 4..at + 8];
    if NeedBufAddr(f) { assert s[at + 8..at + 16] == s'[at + 8..at + 16]; }
    if f.zoned {
      var z := at + ZoneLbaOffset(f);
      assert s[z..z + 8] == s'[z..z + 8];
    }
  }

  lemma {:induction false} SlotsDisjoint(i: nat, j: nat, size: nat)
    requires i < j
    ensures Slot(i, size) + size <= Slot(j, size)
    decreases j
  {
    if i < j - 1 {
      SlotsDisjoint(i, j - 1, size);
    }
  }

  /** The slot at `at` holds what entry w put there. */
  predicate Holds(f: Features, s: seq<byte>, at: nat, w: Entry) {
    && at + ElemSize(f) <= |s|
    && ReadValue(s, at, 2) == w.tag
    && FromU32(ReadValue(s, at + 4, 4)) == w.res
    && (f.autoBufReg ==> ReadValue(s, at + 2, 2) == w.tag)
    && (NeedBufAddr(f) ==> ReadValue(s, at + HEADER, 8) == w.bufAddr)
    && (f.zoned && w.append ==> ReadValue(s, at + ZoneLbaOffset(f), 8) == w.lba)
  }

  /** The slot decodes, by the flags sent, to entry w. */
  predicate SlotSays(f: Features, s: seq<byte>, at: nat, w: Entry) {
    at + ElemSize(f) <= |s| && HasLayout(f) && Says(f, Decode(BatchFlags(f), s, at), w)
  }

  lemma HoldsDecodes(f: Features, s: seq<byte>, at: nat, w: Entry)
    requires Holds(f, s, at, w) && (w.append ==> f.zoned)
    ensures SlotSays(f, s, at, w)
  {
    FlagsAnnounceLayout(f);
  }

  lemma HoldsEntry(f: Features, s: seq<byte>, at: nat, w: Entry)
    requires Fits(f, w) && at + ElemSize(f) <= |s|
    ensures Holds(f, WriteEntry(f, s, at, w), at, w)
  {
    HeaderReadsBack(f, s, at, w);
    WordsReadBack(f, s, at, w);
  }

  lemma HoldsFrame(f: Features, s: seq<byte>, s': seq<byte>, at: nat, at': nat, w: Entry)
    requires SameOutside(s, s', at, ElemSize(f)) && at' + ElemSize(f) <= at && Holds(f, s, at', w)
    ensures Holds(f, s', at', w)
  {
    ReadFrame(f, s, s', at');
  }

  lemma {:induction false} FirstHold(f: Features, s: seq<byte>, base: nat, ws: seq<Entry>, n: nat, i: nat)
    requires i < n <= |ws| && forall j :: 0 <= j < |ws| ==> Fits(f, ws[j])
    requires SlotAt(f, base, n) <= |s|
    ensures Holds(f, WriteFirst(f, s, base, ws, n), SlotAt(f, base, i), ws[i])
    decreases n
  {
    var k, s1 := n - 1, WriteFirst(f, s, base, ws, n - 1);
    if i == k {
      HoldsEntry(f, s1, SlotAt(f, base, k), ws[k]);
    } else {
      FirstHold(f, s, base, ws, k, i);
      SlotsDisjoint(i, k, ElemSize(f));
      EntryStaysInSlot(f, s1, SlotAt(f, base, k), ws[k]);
      HoldsFrame(f, s1, WriteFirst(f, s, base, ws, n), SlotAt(f, base, k), SlotAt(f, base, i), ws[i]);
    }
  }

  /** Round trip: for every feature combination and every batch, decoding with the flags and the
      element size that are sent gives back every element. */
  lemma BatchRoundTrip(f: Features, s: seq<byte>, base: nat, ws: seq<Entry>, i: nat)
    requires forall j :: 0 <= j < |ws| ==> Fits(f, ws[j])
    requires SlotAt(f, base, |ws|) <= |s| && i < |ws|
    ensures SlotSays(f, WriteBatch(f, s, base, ws), SlotAt(f, base, i), ws[i])
  {
    FirstHold(f, s, base, ws, |ws|, i);
    HoldsDecodes(f, WriteBatch(f, s, base, ws), SlotAt(f, base, i), ws[i]);
  }

  lemma {:induction false} FirstStayInHalf(f: Features, s: seq<byte>, base: nat, ws: seq<Entry>, n: nat)
    requires n <= |ws| && forall j :: 0 <= j < |ws| ==> Fits(f, ws[j])
    requires SlotAt(f, base, n) <= |s|
    ensures SameOutside(s, WriteFirst(f, s, base, ws, n), base, Slot(n, ElemSize(f)))
    decreases n
  {
    if n > 0 {
      FirstStayInHalf(f, s, base, ws, n - 1);
      EntryStaysInSlot(f, WriteFirst(f, s, base, ws, n - 1), SlotAt(f, base, n - 1), ws[n - 1]);
    }
  }

  /** A batch changes no byte outside its slots. */
  lemma BatchStaysInHalf(f: Features, s: seq<byte>, base: nat, ws: seq<Entry>)
    requires forall j :: 0 <= j < |ws| ==> Fits(f, ws[j])
    requires SlotAt(f, base, |ws|) <= |s|
    ensures SameOutside(s, WriteBatch(f, s, base, ws), base, Slot(|ws|, ElemSize(f)))
  {
    FirstStayInHalf(f, s, base, ws, |ws|);
  }

  /** A half has the least number of whole pages that holds `depth` elements. */
  lemma HalfIsWholePages(f: Features, depth: nat, page: nat)
    requires page > 0
    ensures HalfSize(f, depth, page) % page == 0
    ensures Slot(depth, ElemSize(f)) <= HalfSize(f, depth, page) < Slot(depth, ElemSize(f)) + page
  {
    SlotIsProduct(depth, ElemSize(f));
    AlignUpBounds(Slot(depth, ElemSize(f)), page);
    AlignUpMultiple(Slot(depth, ElemSize(f)), page);
  }

  lemma FitsHalf(f: Features, depth: nat, page: nat, n: nat)
    requires page > 0 && n <= depth
    ensures Slot(n, ElemSize(f)) <= HalfSize(f, depth, page)
  {
    HalfIsWholePages(f, depth, page);
    if n < depth { SlotsDisjoint(n, depth, ElemSize(f)); }
  }

  lemma OutsideWider(s: seq<byte>, s': seq<byte>, at: nat, n: nat, wider: nat)
    requires SameOutside(s, s', at, n) && n <= wider
    ensures SameOutside(s, s', at, wider)
  {
  }

  /** A batch of up to `depth` elements fits in its half and leaves the other half alone. */
  lemma HalvesDisjoint(f: Features, s: seq<byte>, depth: nat, page: nat, base: nat, ws: seq<Entry>)
    requires page > 0 && |ws| <= depth && |s| == 2 * HalfSize(f, depth, page)
    requires base == 0 || base == HalfSize(f, depth, page)
    requires forall j :: 0 <= j < |ws| ==> Fits(f, ws[j])
    ensures SlotAt(f, base, |ws|) <= base + HalfSize(f, depth, page) <= |s|
    ensures SameOutside(s, WriteBatch(f, s, base, ws), base, HalfSize(f, depth, page))
  {
    FitsHalf(f, depth, page, |ws|);
    BatchStaysInHalf(f, s, base, ws);
    OutsideWider(s, WriteBatch(f, s, base, ws), base, Slot(|ws|, ElemSize(f)), HalfSize(f, depth, page));
  }

  // ---------------------------------------------------------------- the writer, in place

  method StoreBytes(buf: array<byte>, at: nat, v: nat, n: nat)
    requires at + n <= buf.Length
    modifies buf
    ensures buf[..] == Put(old(buf[..]), at, Bytes(v, n))
  {
    var i, rest := 0, v;
    while i < n
      invariant i <= n
      invariant forall j :: 0 <= j < buf.Length && !(at <= j < at + i) ==> buf[j] == old(buf[j])
      invariant forall j: nat :: Byte(rest, j) == Byte(v, i + j)
      invariant forall j :: 0 <= j < i ==> buf[at + j] == Byte(v, j)
    {
      assert Byte(rest, 0) == Byte(v, i);
      forall j: nat ensures Byte(rest / 256, j) == Byte(v, i + 1 + j) {
        assert Byte(rest, j + 1) == Byte(v, i + (j + 1));
      }
      buf[at + i] := rest % 256;
      rest := rest / 256;
      i := i + 1;
    }
    assert buf[..] == Put(old(buf[..]), at, Bytes(v, n));
  }

  /** set_result_ and set_zone_lba_ on the commit buffer. */
  method StoreEntry(buf: array<byte>, f: Features, at: nat, w: Entry)
    requires Fits(f, w) && at + ElemSize(f) <= buf.Length
    modifies buf
    ensures buf[..] == WriteEntry(f, old(buf[..]), at, w)
  {
    StoreBytes(buf, at, w.tag, 2);
    StoreBytes(buf, at + 4, ToU32(w.res), 4);
    if f.autoBufReg {
      StoreBytes(buf, at + 2, w.tag, 2);
    } else if NeedBufAddr(f) {
      StoreBytes(buf, at + HEADER, w.bufAddr, 8);
    }
    if w.append {
      StoreBytes(buf, at + ZoneLbaOffset(f), w.lba, 8);
    }
  }
}
