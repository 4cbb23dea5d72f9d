/** The provided-buffer ring through which the driver hands tags to the server: two buffers of
    `cap` tags, filled incrementally by the driver and read by the fetch callback.

    Assumed of the ring: the driver fills the oldest provided buffer, retires it exactly when it
    is full, and ids are given to pushed buffers in turn: 0, 1, 0, 1, ... */
module FetchRing {
  import opened Seqs
  import opened Uapi

  /** A completion: `res` bytes were written to buffer `bid`, which may have been retired. */
  datatype Cqe = Cqe(bid: nat, res: nat, retired: bool)

  datatype Ring = Ring(
    mem: seq<seq<Tag>>,   // fetch_buf_[0] and fetch_buf_[1]
    provided: nat,        // buffers the driver may still fill, the current one included
    wbid: nat,            // the buffer the driver fills now, or next
    woff: nat,            // where the driver writes next
    cqes: seq<Cqe>,       // completions the callback has not seen
    nextId: nat,          // the id the ring gives to the next buffer pushed
    off: nat)             // where the callback reads next


  /** `fetch_buf_size_` in tags. */
  function Capacity(depth: nat, page: nat): nat
    requires page > 0
  {
    AlignUp(depth * SIZEOF_U16, page) / SIZEOF_U16
  }

  lemma EvenMultiple(x: nat, page: nat)
    requires page > 0 && page % 2 == 0 && x % page == 0
    ensures x % 2 == 0
  {
    var k, half := x / page, page / 2;
    assert x == k * page && page == 2 * half;
    assert x == 2 * (k * half);
  }

  /** One fetch buffer holds a tag for every slot of the queue, in the least number of whole pages. */
  lemma CapacityHoldsAllTags(depth: nat, page: nat)
    requires page > 0
    ensures depth <= Capacity(depth, page)
    ensures page % 2 == 0 ==>
              && (Capacity(depth, page) * SIZEOF_U16) % page == 0
              && Capacity(depth, page) * SIZEOF_U16 < depth * SIZEOF_U16 + page
  {
    AlignUpBounds(depth * SIZEOF_U16, page);
    AlignUpMultiple(depth * SIZEOF_U16, page);
    if page % 2 == 0 {
      EvenMultiple(AlignUp(depth * SIZEOF_U16, page), page);
    }
  }

  function Fresh(mem: seq<seq<Tag>>): Ring {
    Ring(mem, 2, 0, 0, [], 0, 0)
  }

  /** The driver finds a buffer to write to. */
  predicate Available(r: Ring) {
    r.provided > 0
  }

  /** The completions lead from the callback's position to the driver's. */
  predicate Chain(cqes: seq<Cqe>, cap: nat, bid: nat, off: nat, wbid: nat, woff: nat, lag: int)
    decreases |cqes|
  {
    if cqes == [] then bid == wbid && off == woff && lag == 0
    else
      var c := cqes[0];
      var end := off + c.res / SIZEOF_U16;
      && c.bid == bid < 2
      && c.res % SIZEOF_U16 == 0
      && off < end <= cap
      && c.retired == (end == cap)
      && if c.retired then Chain(cqes[1..], cap, 1 - bid, 0, wbid, woff, lag - 1)
         else Chain(cqes[1..], cap, bid, end, wbid, woff, lag)
  }

  predicate Shape(cap: nat, r: Ring) {
    && |r.mem| == 2 && |r.mem[0]| == cap && |r.mem[1]| == cap
    && r.off < cap && r.woff < cap
    && r.provided <= 2 && r.nextId < 2
    && r.wbid == (if r.provided == 1 then 1 - r.nextId else r.nextId)
    && (r.provided == 0 ==> r.woff == 0)
    && (r.provided == 2 ==> r.off <= r.woff)
  }

  predicate Inv(cap: nat, r: Ring) {
    Shape(cap, r) && Chain(r.cqes, cap, r.nextId, r.off, r.wbid, r.woff, 2 - r.provided)
  }

  /** The tags written by the driver that the callback has not read, oldest first. */
  function Unread(cap: nat, r: Ring): seq<Tag>
    requires Shape(cap, r)
  {
    var b := r.nextId;
    if r.provided == 2 then r.mem[b][r.off..r.woff]
    else if r.provided == 1 then r.mem[b][r.off..] + r.mem[1 - b][..r.woff]
    else r.mem[b][r.off..] + r.mem[1 - b]
  }

  function Overwrite(m: seq<Tag>, at: nat, tags: seq<Tag>): seq<Tag>
    requires at + |tags| <= |m|
  {
    m[..at] + tags + m[at + |tags|..]
  }

  /** The driver writes one batch of tags and posts a completion. */
  function Write(cap: nat, r: Ring, tags: seq<Tag>): Ring
    requires Shape(cap, r) && Available(r)
    requires 0 < |tags| <= cap - r.woff
  {
    var b := r.wbid;
    var end := r.woff + |tags|;
    var r1 := r.(mem := r.mem[b := Overwrite(r.mem[b], r.woff, tags)],
                 cqes := r.cqes + [Cqe(b, |tags| * SIZEOF_U16, end == cap)]);
    if end == cap then r1.(provided := r.provided - 1, wbid := 1 - b, woff := 0) else r1.(woff := end)
  }

  /** The tags the callback reads for the oldest completion. */
  function ReadTags(r: Ring): seq<Tag>
    requires r.cqes != []
    requires r.cqes[0].bid < |r.mem|
    requires r.off + r.cqes[0].res / SIZEOF_U16 <= |r.mem[r.cqes[0].bid]|
  {
    r.mem[r.cqes[0].bid][r.off..r.off + r.cqes[0].res / SIZEOF_U16]
  }

  /** The callback's bookkeeping for the oldest completion. */
  function Consume(r: Ring): Ring
    requires r.cqes != []
  {
    var c := r.cqes[0];
    var r1 := r.(cqes := r.cqes[1..], off := r.off + c.res / SIZEOF_U16);
    if c.retired then r1.(provided := r.provided + 1, nextId := if r.nextId == 0 then 1 else 0, off := 0)
    else r1
  }

  lemma FreshInv(cap: nat, mem: seq<seq<Tag>>)
    requires 0 < cap && |mem| == 2 && |mem[0]| == cap && |mem[1]| == cap
    ensures Inv(cap, Fresh(mem))
    ensures Unread(cap, Fresh(mem)) == []
  {
  }

  lemma {:induction false} ChainAppend(cqes: seq<Cqe>, cap: nat, bid: nat, off: nat, wbid: nat, woff: nat,
                                       lag: int, n: nat)
    requires Chain(cqes, cap, bid, off, wbid, woff, lag)
    requires bid < 2 && wbid < 2 && 0 < n && woff + n <= cap
    ensures var c := Cqe(wbid, n * SIZEOF_U16, woff + n == cap);
            if c.retired then Chain(cqes + [c], cap, bid, off, 1 - wbid, 0, lag + 1)
            else Chain(cqes + [c], cap, bid, off, wbid, woff + n, lag)
    decreases |cqes|
  {
    var c := Cqe(wbid, n * SIZEOF_U16, woff + n == cap);
    assert c.res / SIZEOF_U16 == n && c.res % SIZEOF_U16 == 0;
    if cqes == [] {
      assert (cqes + [c])[1..] == [];
    } else {
      assert (cqes + [c])[1..] == cqes[1..] + [c];
      var end := off + cqes[0].res / SIZEOF_U16;
      if cqes[0].retired {
        ChainAppend(cqes[1..], cap, 1 - bid, 0, wbid, woff, lag - 1, n);
      } else {
        ChainAppend(cqes[1..], cap, bid, end, wbid, woff, lag, n);
      }
    }
  }

  lemma OverwriteSlices(m: seq<Tag>, i: nat, at: nat, tags: seq<Tag>)
    requires i <= at && at + |tags| <= |m|
    ensures |Overwrite(m, at, tags)| == |m|
    ensures Overwrite(m, at, tags)[i..at + |tags|] == m[i..at] + tags
  {
  }

  lemma WriteKeeps(cap: nat, r: Ring, tags: seq<Tag>)
    requires Inv(cap, r) && Available(r)
    requires 0 < |tags| <= cap - r.woff
    ensures Inv(cap, Write(cap, r, tags))
  {
    ChainAppend(r.cqes, cap, r.nextId, r.off, r.wbid, r.woff, 2 - r.provided, |tags|);
  }

  lemma WriteSlices(cap: nat, r: Ring, tags: seq<Tag>)
    requires Shape(cap, r) && Available(r)
    requires 0 < |tags| <= cap - r.woff
    requires Shape(cap, Write(cap, r, tags))
    ensures Unread(cap, Write(cap, r, tags)) == Unread(cap, r) + tags
  {
    var m, m' := r.mem[r.wbid], Overwrite(r.mem[r.wbid], r.woff, tags);
    var other := r.mem[1 - r.wbid];
    if r.provided == 2 {
      OverwriteSlices(m, r.off, r.woff, tags);
      assert m'[r.off..cap] + other[..0] == m'[r.off..cap] == m'[r.off..];
    } else {
      OverwriteSlices(m, 0, r.woff, tags);
      assert m[..r.woff] == m[0..r.woff] && m'[..r.woff + |tags|] == m'[0..r.woff + |tags|] && m'[0..cap] == m';
      Regroup(other[r.off..], m[..r.woff], tags);
    }
  }

  /** A write never touches an unread tag, and appends exactly the tags written. */
  lemma WriteAppends(cap: nat, r: Ring, tags: seq<Tag>)
    requires Inv(cap, r) && Available(r)
    requires 0 < |tags| <= cap - r.woff
    ensures Inv(cap, Write(cap, r, tags))
    ensures Unread(cap, Write(cap, r, tags)) == Unread(cap, r) + tags
  {
    WriteKeeps(cap, r, tags);
    WriteSlices(cap, r, tags);
  }

  lemma {:induction false} ChainLag(cqes: seq<Cqe>, cap: nat, bid: nat, off: nat, wbid: nat, woff: nat, lag: int)
    requires Chain(cqes, cap, bid, off, wbid, woff, lag)
    ensures lag >= 0 && (lag == 0 ==> off <= woff)
    decreases |cqes|
  {
    if cqes != [] {
      if cqes[0].retired {
        ChainLag(cqes[1..], cap, 1 - bid, 0, wbid, woff, lag - 1);
      } else {
        ChainLag(cqes[1..], cap, bid, off + cqes[0].res / SIZEOF_U16, wbid, woff, lag);
      }
    }
  }

  lemma ConsumeKeeps(cap: nat, r: Ring)
    requires Inv(cap, r) && r.cqes != []
    ensures r.cqes[0].bid == r.nextId
    ensures 0 < r.cqes[0].res / SIZEOF_U16 && r.off + r.cqes[0].res / SIZEOF_U16 <= cap
    ensures r.cqes[0].retired ==> r.provided < 2 && r.off + r.cqes[0].res / SIZEOF_U16 == cap
    ensures !r.cqes[0].retired && r.provided == 2 ==> r.off + r.cqes[0].res / SIZEOF_U16 <= r.woff
    ensures Inv(cap, Consume(r))
  {
    var c, b := r.cqes[0], r.nextId;
    if c.retired {
      ChainLag(r.cqes[1..], cap, 1 - b, 0, r.wbid, r.woff, 2 - r.provided - 1);
    } else {
      ChainLag(r.cqes[1..], cap, b, r.off + c.res / SIZEOF_U16, r.wbid, r.woff, 2 - r.provided);
    }
  }

  lemma SliceSplit(m: seq<Tag>, i: nat, j: nat, k: nat)
    requires i <= j <= k <= |m|
    ensures m[i..k] == m[i..j] + m[j..k]
  {
  }

  lemma RetireSlices(cap: nat, r: Ring)
    requires Shape(cap, r) && r.cqes != [] && Shape(cap, Consume(r))
    requires r.cqes[0].bid == r.nextId && r.cqes[0].retired
    requires r.provided < 2 && r.off + r.cqes[0].res / SIZEOF_U16 == cap
    ensures Unread(cap, r) == ReadTags(r) + Unread(cap, Consume(r))
  {
    var m, other := r.mem[r.nextId], r.mem[1 - r.nextId];
    assert m[r.off..] == m[r.off..cap];
    if r.provided == 1 {
      assert other[0..r.woff] == other[..r.woff];
    } else {
      assert other[0..] + m[..0] == other;
    }
  }

  lemma ConsumeSlices(cap: nat, r: Ring, n: nat)
    requires Shape(cap, r) && r.cqes != [] && Shape(cap, Consume(r))
    requires r.cqes[0].bid == r.nextId && r.cqes[0].res / SIZEOF_U16 == n
    requires r.off + n <= cap
    requires r.cqes[0].retired ==> r.provided < 2 && r.off + n == cap
    requires !r.cqes[0].retired && r.provided == 2 ==> r.off + n <= r.woff
    ensures Unread(cap, r) == ReadTags(r) + Unread(cap, Consume(r))
  {
    var m, other, end := r.mem[r.nextId], r.mem[1 - r.nextId], r.off + n;
    assert ReadTags(r) == m[r.off..end];
    if r.cqes[0].retired {
      RetireSlices(cap, r);
    } else if r.provided == 2 {
      SliceSplit(m, r.off, end, r.woff);
    } else {
      SliceSplit(m, r.off, end, cap);
      assert m[r.off..] == m[r.off..cap] && m[end..] == m[end..cap];
      Regroup(m[r.off..end], m[end..], if r.provided == 1 then other[..r.woff] else other);
    }
  }

  /** The callback reads the next unread tags, in order and within the buffer, and the buffer it
      pushes again keeps its id. */
  lemma ConsumeReads(cap: nat, r: Ring)
    requires Inv(cap, r) && r.cqes != []
    ensures r.cqes[0].bid < 2
    ensures 0 < r.cqes[0].res / SIZEOF_U16 && r.off + r.cqes[0].res / SIZEOF_U16 <= cap
    ensures r.cqes[0].retired ==> r.nextId == r.cqes[0].bid
    ensures Inv(cap, Consume(r))
    ensures ReadTags(r) != []
    ensures Unread(cap, r) == ReadTags(r) + Unread(cap, Consume(r))
  {
    ConsumeKeeps(cap, r);
    ConsumeSlices(cap, r, r.cqes[0].res / SIZEOF_U16);
  }

  /** With no completion outstanding every tag has been read. */
  lemma DrainedReadsAll(cap: nat, r: Ring)
    requires Inv(cap, r)
    ensures r.cqes == [] <==> Unread(cap, r) == []
  {
    if r.cqes != [] {
      ConsumeReads(cap, r);
    }
  }

  /** Distinct unread tags cannot fill both buffers, so the driver always finds one. */
  lemma NeverStarved(cap: nat, depth: nat, r: Ring)
    requires Inv(cap, r) && depth <= cap
    requires Distinct(Unread(cap, r)) && Below(Unread(cap, r), depth)
    ensures Available(r)
  {
    Pigeonhole(Unread(cap, r), depth);
  }

  lemma Regroup(x: seq<Tag>, y: seq<Tag>, z: seq<Tag>)
    ensures (x + y) + z == x + (y + z)
  {
  }

  /** One move of either side. */
  datatype Move = DriverWrites(tags: seq<Tag>) | CallbackRuns

  ghost predicate Allowed(cap: nat, r: Ring, m: Move) {
    && Inv(cap, r)
    && match m
       case DriverWrites(tags) => Available(r) && 0 < |tags| <= cap - r.woff
       case CallbackRuns => r.cqes != []
  }

  ghost function Moved(cap: nat, r: Ring, m: Move): Ring
    requires Allowed(cap, r, m)
  {
    match m
    case DriverWrites(tags) => Write(cap, r, tags)
    case CallbackRuns => Consume(r)
  }

  ghost function NextTags(cap: nat, r: Ring): seq<Tag>
    requires Inv(cap, r) && r.cqes != []
  {
    ConsumeReads(cap, r);
    ReadTags(r)
  }

  /** The moves, the tags written and the tags read along them. */
  ghost predicate Stream(cap: nat, r: Ring, moves: seq<Move>, written: seq<Tag>, read: seq<Tag>, r': Ring)
    decreases |moves|
  {
    if moves == [] then written == [] && read == [] && r' == r
    else
      && Allowed(cap, r, moves[0])
      && var mid := Moved(cap, r, moves[0]);
         match moves[0]
         case DriverWrites(tags) => tags <= written && Stream(cap, mid, moves[1..], written[|tags|..], read, r')
         case CallbackRuns =>
           var tags := NextTags(cap, r);
           tags <= read && Stream(cap, mid, moves[1..], written, read[|tags|..], r')
  }

  lemma WroteMore(unread: seq<Tag>, tags: seq<Tag>, written: seq<Tag>, all: seq<Tag>)
    requires tags <= written && (unread + tags) + written[|tags|..] == all
    ensures unread + written == all
  {
    assert written == tags + written[|tags|..];
    Regroup(unread, tags, written[|tags|..]);
  }

  lemma ReadMore(got: seq<Tag>, unread: seq<Tag>, written: seq<Tag>, read: seq<Tag>, left: seq<Tag>)
    requires got <= read && unread + written == read[|got|..] + left
    ensures (got + unread) + written == read + left
  {
    assert read == got + read[|got|..];
    Regroup(got, unread, written);
    Regroup(got, read[|got|..], left);
  }

  /** However the driver splits its tags into completions and retirements, and however late the
      callback runs, the tags read followed by the tags still unread are the tags written. */
  lemma {:induction false} StreamReconstruction(cap: nat, r: Ring, moves: seq<Move>, written: seq<Tag>,
                                                read: seq<Tag>, r': Ring)
    requires Inv(cap, r)
    requires Stream(cap, r, moves, written, read, r')
    ensures Inv(cap, r')
    ensures Unread(cap, r) + written == read + Unread(cap, r')
    decreases |moves|
  {
    if moves != [] {
      match moves[0]
      case DriverWrites(tags) =>
        WriteAppends(cap, r, tags);
        StreamReconstruction(cap, Write(cap, r, tags), moves[1..], written[|tags|..], read, r');
        WroteMore(Unread(cap, r), tags, written, read + Unread(cap, r'));
      case CallbackRuns =>
        ConsumeReads(cap, r);
        var got := ReadTags(r);
        StreamReconstruction(cap, Consume(r), moves[1..], written, read[|got|..], r');
        ReadMore(got, Unread(cap, Consume(r)), written, read, Unread(cap, r'));
    }
  }
}
