/** The commit halves of the batch queue as bytes: along every run the bytes decode, slot by slot, to
    the elements that the transition system keeps, so what the driver reads is what was appended. */
module BatchBytes {
  import opened Options
  import opened Uapi
  import opened BatchLayout
  import B = BatchQueue
  import BI = BatchInvariant
  import R = BatchRuns
  import TM = TagMachine

  /** The slot at `at` holds element e. */
  predicate SlotIs(f: Features, s: seq<byte>, at: nat, e: B.Elem) {
    && at + ElemSize(f) <= |s|
    && ReadValue(s, at, 2) == e.tag
    && FromU32(ReadValue(s, at + 4, 4)) == e.res
    && (f.zoned ==> ReadValue(s, at + ZoneLbaOffset(f), 8) == e.lba)
    && (f.autoBufReg ==> ReadValue(s, at + 2, 2) == e.buf)
    && (NeedBufAddr(f) ==> ReadValue(s, at + HEADER, 8) == e.buf)
  }

  /** Decoding such a slot by the flags that are sent gives the element. */
  lemma SlotDecodes(f: Features, s: seq<byte>, at: nat, e: B.Elem)
    requires SlotIs(f, s, at, e)
    ensures HasLayout(f)
    ensures var d := Decode(BatchFlags(f), s, at);
            && d.tag == e.tag && d.res == e.res && d.zoneLba == (if f.zoned then Some(e.lba) else None)
            && d.bufAddr == (if NeedBufAddr(f) then Some(e.buf) else None)
            && d.bufIndex == (if f.autoBufReg then Some(e.buf) else None)
  {
    FlagsAnnounceLayout(f);
  }

  predicate Mirrors(f: Features, s: seq<byte>, base: nat, half: seq<B.Elem>) {
    && base + Slot(|half|, ElemSize(f)) <= |s|
    && forall i :: 0 <= i < |half| ==> SlotIs(f, s, SlotAt(f, base, i), half[i])
  }

  /** The element a write leaves in a slot that held e. */
  function Stored(f: Features, e: B.Elem, w: Entry): B.Elem {
    B.Elem(w.tag, w.res, if w.append then w.lba else e.lba,
           if f.autoBufReg then w.tag else if NeedBufAddr(f) then w.bufAddr else e.buf)
  }

  /** A result without an LBA leaves the LBA word of its slot alone. */
  lemma LbaKept(f: Features, s: seq<byte>, at: nat, w: Entry)
    requires Fits(f, w) && at + ElemSize(f) <= |s| && f.zoned && !w.append
    ensures ReadValue(WriteEntry(f, s, at, w), at + ZoneLbaOffset(f), 8) == ReadValue(s, at + ZoneLbaOffset(f), 8)
  {
    var z := at + ZoneLbaOffset(f);
    var s1 := Put(s, at, Bytes(w.tag, 2));
    var s2 := Put(s1, at + 4, Bytes(ToU32(w.res), 4));
    ReadOther(s, at, Bytes(w.tag, 2), z, 8);
    ReadOther(s1, at + 4, Bytes(ToU32(w.res), 4), z, 8);
    if f.autoBufReg {
      ReadOther(s2, at + 2, Bytes(w.tag, 2), z, 8);
    } else if NeedBufAddr(f) {
      ReadOther(s2, at + HEADER, Bytes(w.bufAddr, 8), z, 8);
    }
  }

  lemma OwnSlot(f: Features, s: seq<byte>, at: nat, e: B.Elem, w: Entry)
    requires Fits(f, w) && SlotIs(f, s, at, e)
    ensures SlotIs(f, WriteEntry(f, s, at, w), at, Stored(f, e, w))
  {
    HeaderReadsBack(f, s, at, w);
    WordsReadBack(f, s, at, w);
    if f.zoned && !w.append {
      LbaKept(f, s, at, w);
    }
  }

  lemma OtherSlot(f: Features, s: seq<byte>, s': seq<byte>, at: nat, at': nat, e: B.Elem)
    requires SameOutside(s, s', at, ElemSize(f)) && SlotIs(f, s, at', e)
    requires at' + ElemSize(f) <= at || at + ElemSize(f) <= at'
    ensures SlotIs(f, s', at', e)
  {
    ReadFrame(f, s, s', at');
  }

  lemma OtherIndex(f: Features, s: seq<byte>, s': seq<byte>, base: nat, half: seq<B.Elem>, k: nat, i: nat)
    requires Mirrors(f, s, base, half) && k < |half| && i < |half| && i != k
    requires SameOutside(s, s', SlotAt(f, base, k), ElemSize(f))
    ensures SlotIs(f, s', SlotAt(f, base, i), half[i])
  {
    var size := ElemSize(f);
    if i < k { SlotsDisjoint(i, k, size); } else { SlotsDisjoint(k, i, size); }
    OtherSlot(f, s, s', SlotAt(f, base, k), SlotAt(f, base, i), half[i]);
  }

  lemma MirrorsUpdate(f: Features, s: seq<byte>, s': seq<byte>, base: nat, half: seq<B.Elem>, k: nat, e: B.Elem)
    requires Mirrors(f, s, base, half) && k < |half|
    requires SameOutside(s, s', SlotAt(f, base, k), ElemSize(f))
    requires SlotIs(f, s', SlotAt(f, base, k), e)
    ensures Mirrors(f, s', base, half[k := e])
  {
    var half' := half[k := e];
    forall i | 0 <= i < |half'| ensures SlotIs(f, s', SlotAt(f, base, i), half'[i]) {
      if i != k { OtherIndex(f, s, s', base, half, k, i); }
    }
  }

  /** Writing a slot changes the slot's element and nothing outside it. */
  lemma SlotWritten(f: Features, s: seq<byte>, at: nat, e: B.Elem, w: Entry)
    requires SlotIs(f, s, at, e) && Fits(f, w)
    ensures SameOutside(s, WriteEntry(f, s, at, w), at, ElemSize(f))
    ensures SlotIs(f, WriteEntry(f, s, at, w), at, Stored(f, e, w))
  {
    EntryStaysInSlot(f, s, at, w);
    OwnSlot(f, s, at, e, w);
  }

  lemma FarIndex(f: Features, s: seq<byte>, s': seq<byte>, at: nat, base: nat, half: seq<B.Elem>, i: nat)
    requires Mirrors(f, s, base, half) && SameOutside(s, s', at, ElemSize(f)) && i < |half|
    requires at + ElemSize(f) <= base || base + Slot(|half|, ElemSize(f)) <= at
    ensures SlotIs(f, s', SlotAt(f, base, i), half[i])
  {
    SlotsDisjoint(i, |half|, ElemSize(f));
    OtherSlot(f, s, s', at, SlotAt(f, base, i), half[i]);
  }

  lemma FarMirrors(f: Features, s: seq<byte>, s': seq<byte>, at: nat, base: nat, half: seq<B.Elem>)
    requires Mirrors(f, s, base, half) && SameOutside(s, s', at, ElemSize(f))
    requires at + ElemSize(f) <= base || base + Slot(|half|, ElemSize(f)) <= at
    ensures Mirrors(f, s', base, half)
  {
    forall i | 0 <= i < |half| ensures SlotIs(f, s', SlotAt(f, base, i), half[i]) {
      FarIndex(f, s, s', at, base, half, i);
    }
  }

  // ---------------------------------------------------------------- along a run

  function Base(index: nat, halfSize: nat): nat {
    if index == 0 then 0 else halfSize
  }

  /** Both halves; the second starts `halfSize` bytes after the first. */
  predicate MirrorsBoth(f: Features, mem: seq<byte>, halfSize: nat, halves: seq<seq<B.Elem>>) {
    && |halves| == 2 && |halves[0]| == |halves[1]|
    && Slot(|halves[0]|, ElemSize(f)) <= halfSize
    && Mirrors(f, mem, 0, halves[0]) && Mirrors(f, mem, halfSize, halves[1])
  }

  lemma MirroredSlot(f: Features, mem: seq<byte>, halfSize: nat, halves: seq<seq<B.Elem>>, i: nat, k: nat)
    requires MirrorsBoth(f, mem, halfSize, halves) && i < 2 && k < |halves[0]|
    ensures SlotIs(f, mem, SlotAt(f, Base(i, halfSize), k), halves[i][k])
  {
    var half := halves[i];
    assert Mirrors(f, mem, Base(i, halfSize), half);
    assert half[k] == halves[i][k];
  }

  lemma FirstUpdated(f: Features, s: seq<byte>, s': seq<byte>, halfSize: nat, h0: seq<B.Elem>, h1: seq<B.Elem>,
                     k: nat, e: B.Elem)
    requires MirrorsBoth(f, s, halfSize, [h0, h1]) && k < |h0|
    requires SameOutside(s, s', SlotAt(f, 0, k), ElemSize(f)) && SlotIs(f, s', SlotAt(f, 0, k), e)
    ensures MirrorsBoth(f, s', halfSize, [h0[k := e], h1])
  {
    MirrorsUpdate(f, s, s', 0, h0, k, e);
    SlotsDisjoint(k, |h0|, ElemSize(f));
    FarMirrors(f, s, s', SlotAt(f, 0, k), halfSize, h1);
  }

  lemma SecondUpdated(f: Features, s: seq<byte>, s': seq<byte>, halfSize: nat, h0: seq<B.Elem>, h1: seq<B.Elem>,
                      k: nat, e: B.Elem)
    requires MirrorsBoth(f, s, halfSize, [h0, h1]) && k < |h1|
    requires SameOutside(s, s', SlotAt(f, halfSize, k), ElemSize(f))
    requires SlotIs(f, s', SlotAt(f, halfSize, k), e)
    ensures MirrorsBoth(f, s', halfSize, [h0, h1[k := e]])
  {
    MirrorsUpdate(f, s, s', halfSize, h1, k, e);
    FarMirrors(f, s, s', SlotAt(f, halfSize, k), 0, h0);
  }

  lemma HalfUpdated(f: Features, s: seq<byte>, s': seq<byte>, halfSize: nat, halves: seq<seq<B.Elem>>, i: nat,
                    k: nat, e: B.Elem)
    requires MirrorsBoth(f, s, halfSize, halves) && i < 2 && k < |halves[0]|
    requires SameOutside(s, s', SlotAt(f, Base(i, halfSize), k), ElemSize(f))
    requires SlotIs(f, s', SlotAt(f, Base(i, halfSize), k), e)
    ensures MirrorsBoth(f, s', halfSize, halves[i := halves[i][k := e]])
  {
    var h0, h1 := halves[0], halves[1];
    assert halves == [h0, h1];
    if i == 0 {
      FirstUpdated(f, s, s', halfSize, h0, h1, k, e);
      assert halves[i := h0[k := e]] == [h0[k := e], h1];
    } else {
      SecondUpdated(f, s, s', halfSize, h0, h1, k, e);
      assert halves[i := h1[k := e]] == [h0, h1[k := e]];
    }
  }

  /** What the worker of tag t writes. */
  function EntryOf(s: B.State, l: B.Label): Entry
    requires BI.Appends(s, l) && l.t < |s.iod|
  {
    var r := BI.ResultOf(s, l);
    var bufAddr := if l.t < |s.srv.bufs| then s.srv.bufs[l.t] else 0;
    Entry(l.t, r.res, bufAddr, r.lba, IsZoneAppend(s.iod[l.t]))
  }

  /** The bytes after a step; None if a result would not fit its field. */
  function MemAfter(c: B.Config, s: B.State, l: B.Label, mem: seq<byte>, halfSize: nat): Option<seq<byte>> {
    if !BI.Appends(s, l) then Some(mem)
    else if l.t >= |s.iod| || !Fits(c.features, EntryOf(s, l)) then None
    else
      var at := SlotAt(c.features, Base(s.srv.index, halfSize), s.srv.pending);
      if at + ElemSize(c.features) > |mem| then None else Some(WriteEntry(c.features, mem, at, EntryOf(s, l)))
  }

  predicate ExecBytes(c: B.Config, s: B.State, mem: seq<byte>, halfSize: nat, ls: seq<B.Label>,
                      s': B.State, mem': seq<byte>)
    decreases |ls|
  {
    if ls == [] then s' == s && mem' == mem
    else
      && B.WellFormed(c, s) && B.Enabled(c, s, ls[0])
      && var m := MemAfter(c, s, ls[0], mem, halfSize);
         m.Some? && ExecBytes(c, B.Apply(c, s, ls[0]), m.value, halfSize, ls[1..], s', mem')
  }

  lemma OtherStepsKeepHalves(c: B.Config, s: B.State, l: B.Label)
    requires BI.Inv(c, s) && B.Enabled(c, s, l) && !BI.Appends(s, l)
    ensures B.Apply(c, s, l).srv.halves == s.srv.halves
  {
    if !l.FlusherRuns? {
      BI.StepFrame(c, s, l);
    }
  }

  lemma AppendHalves(c: B.Config, s: B.State, l: B.Label)
    requires BI.Inv(c, s) && B.Enabled(c, s, l) && BI.Appends(s, l)
    ensures s.srv.pending < c.depth
    ensures var v, i, k := s.srv, s.srv.index, s.srv.pending;
            B.Apply(c, s, l).srv.halves
            == v.halves[i := v.halves[i][k := Stored(c.features, v.halves[i][k], EntryOf(s, l))]]
  {
    BI.ActiveHasRoom(c, s, l.t);
    BI.AppendApply(c, s, l);
  }

  lemma AppendMirrors(c: B.Config, s: B.State, l: B.Label, mem: seq<byte>, halfSize: nat)
    requires BI.Inv(c, s) && B.Enabled(c, s, l) && BI.Appends(s, l)
    requires MirrorsBoth(c.features, mem, halfSize, s.srv.halves) && Fits(c.features, EntryOf(s, l))
    ensures var at := SlotAt(c.features, Base(s.srv.index, halfSize), s.srv.pending);
            && at + ElemSize(c.features) <= |mem|
            && MirrorsBoth(c.features, WriteEntry(c.features, mem, at, EntryOf(s, l)), halfSize,
                           B.Apply(c, s, l).srv.halves)
  {
    AppendHalves(c, s, l);
    var f, i, k, w := c.features, s.srv.index, s.srv.pending, EntryOf(s, l);
    var at, e := SlotAt(f, Base(i, halfSize), k), s.srv.halves[i][k];
    MirroredSlot(f, mem, halfSize, s.srv.halves, i, k);
    SlotWritten(f, mem, at, e, w);
    HalfUpdated(f, mem, WriteEntry(f, mem, at, w), halfSize, s.srv.halves, i, k, Stored(f, e, w));
  }

  /** The bytes of a run get stuck only on a result that does not fit its field. */
  lemma BytesStuckIff(c: B.Config, s: B.State, l: B.Label, mem: seq<byte>, halfSize: nat)
    requires BI.Inv(c, s) && B.Enabled(c, s, l)
    requires MirrorsBoth(c.features, mem, halfSize, s.srv.halves)
    ensures MemAfter(c, s, l, mem, halfSize).None? <==>
            BI.Appends(s, l) && !Fits(c.features, EntryOf(s, l))
  {
    if BI.Appends(s, l) {
      BI.ActiveHasRoom(c, s, l.t);
      MirroredSlot(c.features, mem, halfSize, s.srv.halves, s.srv.index, s.srv.pending);
    }
  }

  lemma AppendMem(c: B.Config, s: B.State, l: B.Label, mem: seq<byte>, halfSize: nat)
    requires BI.Appends(s, l) && MemAfter(c, s, l, mem, halfSize).Some?
    ensures l.t < |s.iod| && Fits(c.features, EntryOf(s, l))
    ensures var at := SlotAt(c.features, Base(s.srv.index, halfSize), s.srv.pending);
            && at + ElemSize(c.features) <= |mem|
            && MemAfter(c, s, l, mem, halfSize).value == WriteEntry(c.features, mem, at, EntryOf(s, l))
  {
  }

  lemma StepMirrors(c: B.Config, s: B.State, l: B.Label, mem: seq<byte>, halfSize: nat)
    requires BI.Inv(c, s) && B.Enabled(c, s, l)
    requires MirrorsBoth(c.features, mem, halfSize, s.srv.halves)
    requires MemAfter(c, s, l, mem, halfSize).Some?
    ensures MirrorsBoth(c.features, MemAfter(c, s, l, mem, halfSize).value, halfSize, B.Apply(c, s, l).srv.halves)
  {
    if BI.Appends(s, l) {
      AppendMirrors(c, s, l, mem, halfSize);
      AppendMem(c, s, l, mem, halfSize);
    } else {
      OtherStepsKeepHalves(c, s, l);
    }
  }

  /** Along every run the bytes of both halves decode to the elements of the transition system. */
  lemma {:induction false} BytesFollow(c: B.Config, s: B.State, mem: seq<byte>, halfSize: nat, ls: seq<B.Label>,
                                       s': B.State, mem': seq<byte>)
    requires BI.Inv(c, s) && MirrorsBoth(c.features, mem, halfSize, s.srv.halves)
    requires ExecBytes(c, s, mem, halfSize, ls, s', mem')
    ensures R.Exec(c, s, ls, s') && BI.Inv(c, s')
    ensures MirrorsBoth(c.features, mem', halfSize, s'.srv.halves)
    decreases |ls|
  {
    if ls != [] {
      BI.StepKeeps(c, s, ls[0]);
      StepMirrors(c, s, ls[0], mem, halfSize);
      BytesFollow(c, B.Apply(c, s, ls[0]), MemAfter(c, s, ls[0], mem, halfSize).value, halfSize, ls[1..], s', mem');
    }
  }

  // ---------------------------------------------------------------- buffers

  /** The first n elements name the buffers of their tags. */
  predicate Named(f: Features, bufs: seq<nat>, half: seq<B.Elem>, n: nat) {
    n <= |half| && forall k :: 0 <= k < n ==> B.Addressed(f, bufs, half[k], half[k].tag)
  }

  /** Every element in use names the buffer of its tag: those of the active half, and those of a commit
      under way. */
  predicate BuffersNamed(f: Features, v: B.Server) {
    && |v.halves| == 2 && v.index < 2
    && Named(f, v.bufs, v.halves[v.index], v.pending)
    && (v.flusher.Committing? ==> Named(f, v.bufs, v.halves[1 - v.index], v.flusher.nr))
  }

  lemma StepNames(c: B.Config, s: B.State, l: B.Label)
    requires BI.Inv(c, s) && B.Enabled(c, s, l) && BuffersNamed(c.features, s.srv)
    ensures BuffersNamed(c.features, B.Apply(c, s, l).srv)
  {
    if BI.Appends(s, l) {
      AppendNames(c, s, l);
    } else if l.FlusherRuns? {
      FlushNames(c.features, s.srv);
    } else {
      BI.StepFrame(c, s, l);
    }
  }

  lemma AppendNames(c: B.Config, s: B.State, l: B.Label)
    requires BI.Inv(c, s) && B.Enabled(c, s, l) && BuffersNamed(c.features, s.srv) && BI.Appends(s, l)
    ensures BuffersNamed(c.features, B.Apply(c, s, l).srv)
  {
    BI.ActiveHasRoom(c, s, l.t);
    BI.AppendApply(c, s, l);
    BI.AppendFields(c.features, s.srv, s.iod[l.t], l.t, BI.ResultOf(s, l));
  }

  lemma FlushNames(f: Features, v: B.Server)
    requires BuffersNamed(f, v) && v.flusher.Running?
    ensures BuffersNamed(f, B.FlusherStep(v))
  {
  }

  /** Along every run each element in use names the buffer of its tag. */
  lemma {:induction false} NamesFollow(c: B.Config, s: B.State, ls: seq<B.Label>, s': B.State)
    requires BI.Inv(c, s) && BuffersNamed(c.features, s.srv) && R.Exec(c, s, ls, s')
    ensures BuffersNamed(c.features, s'.srv)
    decreases |ls|
  {
    if ls != [] {
      BI.StepKeeps(c, s, ls[0]);
      StepNames(c, s, ls[0]);
      NamesFollow(c, B.Apply(c, s, ls[0]), ls[1..], s');
    }
  }

  // ---------------------------------------------------------------- what the driver reads

  /** The decoded element is what a driver step commits: the tag and result of its event, the LBA of a
      zone append, and the tag's buffer in the form of the mode. */
  predicate Commits(c: B.Config, s: B.State, d: Decoded)
    requires B.WellFormed(c, s) && B.Enabled(c, s, B.DriverConsumes)
  {
    && d.tag < c.depth
    && B.EventsOf(c, s, B.DriverConsumes, d.tag)
       == [TM.Commit(TM.Committed(d.res, if IsZoneAppend(s.iod[d.tag]) then d.zoneLba else None))]
    && (NeedBufAddr(c.features) ==> d.tag < |s.srv.bufs| && d.bufAddr == Some(s.srv.bufs[d.tag]))
    && (!NeedBufAddr(c.features) ==> d.bufAddr == None)
    && d.bufIndex == (if c.features.autoBufReg then Some(d.tag) else None)
  }

  function NextAt(c: B.Config, s: B.State, halfSize: nat): nat
    requires B.WellFormed(c, s) && B.Enabled(c, s, B.DriverConsumes)
  {
    SlotAt(c.features, Base(1 - s.srv.index, halfSize), s.srv.flusher.consumed)
  }

  lemma DecodedCommits(c: B.Config, s: B.State, d: Decoded)
    requires BI.Inv(c, s) && BuffersNamed(c.features, s.srv) && B.Enabled(c, s, B.DriverConsumes)
    requires var e := s.srv.halves[1 - s.srv.index][s.srv.flusher.consumed];
             && d.tag == e.tag && d.res == e.res && d.zoneLba == (if c.features.zoned then Some(e.lba) else None)
             && d.bufAddr == (if NeedBufAddr(c.features) then Some(e.buf) else None)
             && d.bufIndex == (if c.features.autoBufReg then Some(e.buf) else None)
    ensures Commits(c, s, d)
  {
    BI.InFlightHead(c, s);
  }

  /** Along every run, when the driver decodes the next element of the half in flight by the flags and
      the element size it was sent, it reads exactly what its step commits. */
  lemma DriverDecodesCommit(c: B.Config, s0: B.State, mem0: seq<byte>, halfSize: nat, ls: seq<B.Label>,
                            s: B.State, mem: seq<byte>)
    requires B.Initial(c, s0) && MirrorsBoth(c.features, mem0, halfSize, s0.srv.halves)
    requires ExecBytes(c, s0, mem0, halfSize, ls, s, mem)
    requires B.WellFormed(c, s) && B.Enabled(c, s, B.DriverConsumes)
    ensures NextAt(c, s, halfSize) + ElemSize(c.features) <= |mem| && HasLayout(c.features)
    ensures Commits(c, s, Decode(BatchFlags(c.features), mem, NextAt(c, s, halfSize)))
  {
    BI.InitialInv(c, s0);
    BytesFollow(c, s0, mem0, halfSize, ls, s, mem);
    NamesFollow(c, s0, ls, s);
    NextDecodes(c, s, mem, halfSize);
  }

  lemma NextDecodes(c: B.Config, s: B.State, mem: seq<byte>, halfSize: nat)
    requires BI.Inv(c, s) && BuffersNamed(c.features, s.srv) && B.Enabled(c, s, B.DriverConsumes)
    requires MirrorsBoth(c.features, mem, halfSize, s.srv.halves)
    ensures NextAt(c, s, halfSize) + ElemSize(c.features) <= |mem| && HasLayout(c.features)
    ensures Commits(c, s, Decode(BatchFlags(c.features), mem, NextAt(c, s, halfSize)))
  {
    var i, k := 1 - s.srv.index, s.srv.flusher.consumed;
    MirroredSlot(c.features, mem, halfSize, s.srv.halves, i, k);
    SlotDecodes(c.features, mem, NextAt(c, s, halfSize), s.srv.halves[i][k]);
    DecodedCommits(c, s, Decode(BatchFlags(c.features), mem, NextAt(c, s, halfSize)));
  }
}
