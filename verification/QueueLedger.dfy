/** The memory the queue classes acquire and release. Every acquisition may be the one that fails;
    a release must name a live resource with the size it was acquired with. */
module QueueLedger {
  import opened Options
  import opened Seqs
  import opened Uapi

  type Addr = nat

  datatype Handle =
    | MappingOf(addr: Addr, size: nat)
    | BlockOf(addr: Addr, size: nat, alignment: nat)

  /** The process: live resources, and how many acquiring calls will still succeed. */
  class Ledger {
    var live: set<Handle>
    var budget: nat

    constructor (budget: nat)
      ensures live == {} && this.budget == budget
    {
      live, this.budget := {}, budget;
    }

    method Spend() returns (ok: bool)
      modifies this`budget
      ensures ok == (old(budget) > 0)
      ensures budget == if ok then old(budget) - 1 else 0
    {
      ok := budget > 0;
      if ok { budget := budget - 1; }
    }

    method Mmap(size: nat) returns (r: Option<Addr>)
      modifies this
      ensures r.None? <==> old(budget) == 0
      ensures budget == if r.Some? then old(budget) - 1 else 0
      ensures r.None? ==> live == old(live)
      ensures r.Some? ==> live == old(live) + {MappingOf(r.value, size)}
      ensures r.Some? ==> forall h :: h in old(live) ==> h.addr != r.value
    {
      var ok := Spend();
      if !ok { return None; }
      var a := FreshAddr(live);
      live := live + {MappingOf(a, size)};
      r := Some(a);
    }

    /** alloc_aligned; None when it throws. */
    method AllocAligned(size: nat, alignment: nat) returns (r: Option<Addr>)
      modifies this
      ensures r.None? <==> old(budget) == 0
      ensures budget == if r.Some? then old(budget) - 1 else 0
      ensures r.None? ==> live == old(live)
      ensures r.Some? ==> live == old(live) + {BlockOf(r.value, size, alignment)}
      ensures r.Some? ==> forall h :: h in old(live) ==> h.addr != r.value
    {
      var ok := Spend();
      if !ok { return None; }
      var a := FreshAddr(live);
      live := live + {BlockOf(a, size, alignment)};
      r := Some(a);
    }

    method Munmap(addr: Addr, size: nat)
      requires MappingOf(addr, size) in live
      modifies this`live
      ensures live == old(live) - {MappingOf(addr, size)}
    {
      live := live - {MappingOf(addr, size)};
    }

    method FreeAligned(addr: Addr, size: nat, alignment: nat)
      requires BlockOf(addr, size, alignment) in live
      modifies this`live
      ensures live == old(live) - {BlockOf(addr, size, alignment)}
    {
      live := live - {BlockOf(addr, size, alignment)};
    }
  }

  /** An address no live resource has. */
  method FreshAddr(live: set<Handle>) returns (a: Addr)
    ensures forall h :: h in live ==> h.addr != a
  {
    a := 1;
    var rest := live;
    while rest != {}
      invariant rest <= live
      invariant forall h :: h in live - rest ==> h.addr < a
      decreases rest
    {
      var h :| h in rest;
      if h.addr >= a { a := h.addr + 1; }
      rest := rest - {h};
    }
  }

  ghost function Blocks(bases: seq<Addr>, size: nat, page: nat): set<Handle> {
    set i | 0 <= i < |bases| :: BlockOf(bases[i], size, page)
  }

  ghost function MappingSet(base: Option<Addr>, size: nat): set<Handle> {
    if base.Some? then {MappingOf(base.value, size)} else {}
  }

  ghost function BlockSet(base: Option<Addr>, size: nat, page: nat): set<Handle> {
    if base.Some? then {BlockOf(base.value, size, page)} else {}
  }

  predicate DistinctAddrs(bases: seq<Addr>) {
    forall i, j :: 0 <= i < j < |bases| ==> bases[i] != bases[j]
  }

  lemma BlocksSnoc(bases: seq<Addr>, a: Addr, size: nat, page: nat)
    ensures Blocks(bases + [a], size, page) == Blocks(bases, size, page) + {BlockOf(a, size, page)}
  {
    var bs := bases + [a];
    forall h | h in Blocks(bases, size, page) ensures h in Blocks(bs, size, page) {
      var i :| 0 <= i < |bases| && h == BlockOf(bases[i], size, page);
      assert bs[i] == bases[i];
    }
    assert bs[|bases|] == a;
  }

  lemma BlocksHead(bases: seq<Addr>, i: nat, size: nat, page: nat)
    requires i < |bases| && DistinctAddrs(bases)
    ensures Blocks(bases[i..], size, page) == Blocks(bases[i + 1..], size, page) + {BlockOf(bases[i], size, page)}
    ensures BlockOf(bases[i], size, page) !in Blocks(bases[i + 1..], size, page)
  {
    var s, t := bases[i..], bases[i + 1..];
    forall h | h in Blocks(t, size, page) ensures h in Blocks(s, size, page) && h != BlockOf(bases[i], size, page) {
      var j :| 0 <= j < |t| && h == BlockOf(t[j], size, page);
      assert s[j + 1] == t[j] == bases[i + 1 + j];
    }
    forall h | h in Blocks(s, size, page) ensures h in Blocks(t, size, page) + {BlockOf(bases[i], size, page)} {
      var j :| 0 <= j < |s| && h == BlockOf(s[j], size, page);
      if j > 0 { assert t[j - 1] == s[j]; }
    }
    assert s[0] == bases[i];
  }

  /** The loop of both constructors over `queue_depth_` buffers; the buffers allocated before a
      failure are returned. */
  method AllocBuffers(l: Ledger, n: nat, size: nat, page: nat) returns (ok: bool, bases: seq<Addr>)
    modifies l
    ensures l.live == old(l.live) + Blocks(bases, size, page) && old(l.live) !! Blocks(bases, size, page)
    ensures DistinctAddrs(bases)
    ensures forall i, h :: 0 <= i < |bases| && h in old(l.live) ==> h.addr != bases[i]
    ensures ok ==> |bases| == n
    ensures ok <==> old(l.budget) >= n
  {
    ok, bases := true, [];
    while |bases| < n
      invariant |bases| <= n && l.budget + |bases| == old(l.budget)
      invariant l.live == old(l.live) + Blocks(bases, size, page) && old(l.live) !! Blocks(bases, size, page)
      invariant DistinctAddrs(bases)
      invariant forall i, h :: 0 <= i < |bases| && h in old(l.live) ==> h.addr != bases[i]
      decreases n - |bases|
    {
      var r := l.AllocAligned(size, page);
      if r.None? {
        return false, bases;
      }
      forall i | 0 <= i < |bases| ensures bases[i] != r.value {
        assert BlockOf(bases[i], size, page) in Blocks(bases, size, page);
      }
      BlocksSnoc(bases, r.value, size, page);
      bases := bases + [r.value];
    }
  }

  /** The loop of both `cleanup_` functions over the buffers. */
  method FreeBuffers(l: Ledger, bases: seq<Addr>, size: nat, page: nat, ghost rest: set<Handle>)
    requires DistinctAddrs(bases)
    requires l.live == rest + Blocks(bases, size, page) && rest !! Blocks(bases, size, page)
    modifies l`live
    ensures l.live == rest
  {
    var i := 0;
    assert bases[0..] == bases;
    while i < |bases|
      invariant i <= |bases|
      invariant l.live == rest + Blocks(bases[i..], size, page) && rest !! Blocks(bases[i..], size, page)
    {
      BlocksHead(bases, i, size, page);
      l.FreeAligned(bases[i], size, page);
      i := i + 1;
    }
    assert Blocks(bases[|bases|..], size, page) == {};
  }

  class IoQueue {
    const features: Features
    const queueDepth: nat
    const maxIoBufBytes: nat
    const page: nat
    var iodBase: Option<Addr>
    var bufBases: seq<Addr>

    constructor (features: Features, queueDepth: nat, maxIoBufBytes: nat, page: nat)
      requires page > 0
      ensures this.page == page && iodBase == None && bufBases == []
    {
      this.features, this.queueDepth, this.maxIoBufBytes, this.page := features, queueDepth, maxIoBufBytes, page;
      iodBase, bufBases := None, [];
    }

    ghost function Held(): set<Handle>
      reads this
    {
      MappingSet(iodBase, queueDepth * SIZEOF_IO_DESC) + Blocks(bufBases, maxIoBufBytes, page)
    }

    /** The queue's resources are live, apart from `rest`. */
    ghost predicate Owns(l: Ledger, rest: set<Handle>)
      reads this, l
    {
      DistinctAddrs(bufBases) && l.live == rest + Held() && rest !! Held()
    }

    /** The body of the constructor. On failure the deferred cleanup has run. */
    method Acquire(l: Ledger) returns (ok: bool)
      requires iodBase == None && bufBases == []
      modifies this, l
      ensures !ok ==> l.live == old(l.live) && Held() == {}
      ensures ok ==> Owns(l, old(l.live)) && iodBase.Some?
      ensures ok ==> |bufBases| == if features.zeroCopy || features.userCopy then 0 else queueDepth
      ensures ok <==> old(l.budget) >= 1 + if features.zeroCopy || features.userCopy then 0 else queueDepth
    {
      var r := l.Mmap(queueDepth * SIZEOF_IO_DESC);
      if r.None? {
        return false;
      }
      iodBase := r;
      ok := true;
      if NeedAllocBuf(features) {
        ok, bufBases := AllocBuffers(l, queueDepth, maxIoBufBytes, page);
      }
      if !ok {
        Cleanup(l, old(l.live));
      }
    }

    /** cleanup_, also the destructor: everything held is released, once. A further call is harmless. */
    method Cleanup(l: Ledger, ghost rest: set<Handle>)
      requires Owns(l, rest)
      modifies this, l`live
      ensures l.live == rest && Held() == {} && Owns(l, rest)
    {
      FreeBuffers(l, bufBases, maxIoBufBytes, page, rest + MappingSet(iodBase, queueDepth * SIZEOF_IO_DESC));
      bufBases := [];
      if iodBase.Some? {
        l.Munmap(iodBase.value, queueDepth * SIZEOF_IO_DESC);
        iodBase := None;
      }
    }
  }

  class BatchIoQueue {
    const features: Features
    const queueDepth: nat
    const maxIoBufBytes: nat
    const elemSize: nat
    const page: nat
    var iodBase: Option<Addr>
    var commitBufSize: nat
    var commitBuf: Option<Addr>
    var fetchBufSize: nat
    var fetchBuf: Option<Addr>
    var bufBases: seq<Addr>

    constructor (features: Features, queueDepth: nat, maxIoBufBytes: nat, elemSize: nat, page: nat)
      requires page > 0
      ensures this.page == page
      ensures iodBase == None && commitBuf == None && fetchBuf == None && bufBases == []
    {
      this.features, this.queueDepth, this.maxIoBufBytes := features, queueDepth, maxIoBufBytes;
      this.elemSize, this.page := elemSize, page;
      iodBase, commitBuf, fetchBuf, bufBases := None, None, None, [];
      commitBufSize, fetchBufSize := 0, 0;
    }

    ghost function Held(): set<Handle>
      reads this
    {
      MappingSet(iodBase, queueDepth * SIZEOF_IO_DESC)
      + BlockSet(commitBuf, commitBufSize * 2, page)
      + BlockSet(fetchBuf, fetchBufSize * 2, page)
      + Blocks(bufBases, maxIoBufBytes, page)
    }

    /** The size is the least number of whole pages that holds `need` bytes. */
    predicate Rounded(need: nat, size: nat)
      requires page > 0
    {
      size % page == 0 && need <= size < need + page
    }

    /** The addresses the queue holds are distinct. */
    ghost predicate Separate()
      reads this
    {
      && DistinctAddrs(bufBases)
      && (commitBuf.Some? && fetchBuf.Some? ==> commitBuf != fetchBuf)
      && (forall i :: 0 <= i < |bufBases| ==> Some(bufBases[i]) != commitBuf && Some(bufBases[i]) != fetchBuf)
    }

    ghost predicate Owns(l: Ledger, rest: set<Handle>)
      reads this, l
    {
      Separate() && l.live == rest + Held() && rest !! Held()
    }

    /** The body of the constructor, block by block. On failure the deferred cleanup has run. */
    method Acquire(l: Ledger) returns (ok: bool)
      requires page > 0
      requires iodBase == None && commitBuf == None && fetchBuf == None && bufBases == []
      modifies this, l
      ensures !ok ==> l.live == old(l.live) && iodBase == None && bufBases == []
      ensures ok ==> Owns(l, old(l.live)) && iodBase.Some? && commitBuf.Some? && fetchBuf.Some?
      ensures ok ==> |bufBases| == if features.zeroCopy || features.userCopy then 0 else queueDepth
      ensures ok ==> Rounded(queueDepth * elemSize, commitBufSize) && Rounded(queueDepth * SIZEOF_U16, fetchBufSize)
      ensures ok <==> old(l.budget) >= 5 + if features.zeroCopy || features.userCopy then 0 else queueDepth
    {
      ghost var rest := l.live;
      var r := l.Mmap(queueDepth * SIZEOF_IO_DESC);
      iodBase := r;
      ok := r.Some?;
      if ok { ok := AcquireCommitBuf(l, rest); }
      if ok { ok := AcquireFetchBuf(l, rest); }
      if ok && NeedAllocBuf(features) { ok := AcquireIoBufs(l, rest); }
      if !ok {
        Cleanup(l, rest);
      }
    }

    method AcquireCommitBuf(l: Ledger, ghost rest: set<Handle>) returns (ok: bool)
      requires page > 0 && Owns(l, rest) && commitBuf == None && fetchBuf == None && bufBases == []
      modifies this`commitBuf, this`commitBufSize, l
      ensures Owns(l, rest)
      ensures ok ==> commitBuf.Some? && Rounded(queueDepth * elemSize, commitBufSize)
      ensures l.budget == if old(l.budget) >= 2 then old(l.budget) - 2 else 0
      ensures ok <==> old(l.budget) >= 2
    {
      AlignUpBounds(queueDepth * elemSize, page);
      AlignUpMultiple(queueDepth * elemSize, page);
      commitBufSize := AlignUp(queueDepth * elemSize, page);
      var r := l.AllocAligned(commitBufSize * 2, page);
      if r.None? { return false; }
      commitBuf := r;
      ok := l.Spend();     // mlock
    }

    method AcquireFetchBuf(l: Ledger, ghost rest: set<Handle>) returns (ok: bool)
      requires page > 0 && Owns(l, rest) && commitBuf.Some? && fetchBuf == None && bufBases == []
      modifies this`fetchBuf, this`fetchBufSize, l
      ensures Owns(l, rest)
      ensures ok ==> fetchBuf.Some? && Rounded(queueDepth * SIZEOF_U16, fetchBufSize)
      ensures l.budget == if old(l.budget) >= 2 then old(l.budget) - 2 else 0
      ensures ok <==> old(l.budget) >= 2
    {
      AlignUpBounds(queueDepth * SIZEOF_U16, page);
      AlignUpMultiple(queueDepth * SIZEOF_U16, page);
      fetchBufSize := AlignUp(queueDepth * SIZEOF_U16, page);
      assert BlockOf(commitBuf.value, commitBufSize * 2, page) in l.live;
      var r := l.AllocAligned(fetchBufSize * 2, page);
      if r.None? { return false; }
      fetchBuf := r;
      ok := l.Spend();     // mlock
    }

    method AcquireIoBufs(l: Ledger, ghost rest: set<Handle>) returns (ok: bool)
      requires Owns(l, rest) && commitBuf.Some? && fetchBuf.Some? && bufBases == []
      modifies this`bufBases, l
      ensures Owns(l, rest)
      ensures ok ==> |bufBases| == queueDepth
      ensures ok <==> old(l.budget) >= queueDepth
    {
      assert Blocks([], maxIoBufBytes, page) == {};
      assert BlockOf(commitBuf.value, commitBufSize * 2, page) in l.live;
      assert BlockOf(fetchBuf.value, fetchBufSize * 2, page) in l.live;
      ok, bufBases := AllocBuffers(l, queueDepth, maxIoBufBytes, page);
    }

    /** cleanup_, also the destructor: everything held is released, once. The commit and fetch pointers
        stay set, so a further call would be allowed if and only if there were none: it would free them
        again. The source calls it once, from a failed constructor or from the destructor. */
    method Cleanup(l: Ledger, ghost rest: set<Handle>)
      requires Owns(l, rest)
      modifies this`iodBase, this`bufBases, l`live
      ensures l.live == rest
      ensures iodBase == None && bufBases == []
      ensures Owns(l, rest) <==> commitBuf == None && fetchBuf == None
    {
      ghost var m := MappingSet(iodBase, queueDepth * SIZEOF_IO_DESC);
      ghost var c := BlockSet(commitBuf, commitBufSize * 2, page);
      ghost var f := BlockSet(fetchBuf, fetchBufSize * 2, page);
      FreeBuffers(l, bufBases, maxIoBufBytes, page, rest + m + c + f);
      bufBases := [];
      if fetchBuf.Some? {
        l.FreeAligned(fetchBuf.value, fetchBufSize * 2, page);
      }
      assert l.live == rest + m + c;
      if commitBuf.Some? {
        l.FreeAligned(commitBuf.value, commitBufSize * 2, page);
      }
      assert l.live == rest + m;
      if iodBase.Some? {
        l.Munmap(iodBase.value, queueDepth * SIZEOF_IO_DESC);
        iodBase := None;
      }
      assert Blocks(bufBases, maxIoBufBytes, page) == {};
      if commitBuf.Some? {
        assert BlockOf(commitBuf.value, commitBufSize * 2, page) in Held();
      } else if fetchBuf.Some? {
        assert BlockOf(fetchBuf.value, fetchBufSize * 2, page) in Held();
      }
    }
  }

  /** Construction and destruction leave the process as it was, wherever a call fails. */
  method Lifecycle(features: Features, queueDepth: nat, maxIoBufBytes: nat, elemSize: nat, page: nat, budget: nat)
      returns (left: set<Handle>)
    requires page > 0
    ensures left == {}
  {
    var l := new Ledger(budget);
    var simple := new IoQueue(features, queueDepth, maxIoBufBytes, page);
    var ok := simple.Acquire(l);
    if ok { simple.Cleanup(l, {}); }
    var batch := new BatchIoQueue(features, queueDepth, maxIoBufBytes, elemSize, page);
    ok := batch.Acquire(l);
    if ok { batch.Cleanup(l, {}); }
    left := l.live;
  }
}
