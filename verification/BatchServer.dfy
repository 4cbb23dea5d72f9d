/** The code of the batch queue between suspension points, in place on the queue's memory. Each
    method is proved to do what the corresponding function of BatchQueue says. */
module BatchServer {
  import opened Uapi
  import opened Seqs
  import opened BatchQueue
  import BI = BatchInvariant
  import FR = FetchRing

  class BatchIoQueue {
    const features: Features
    const depth: nat

    // buf_bases_
    const bufBases: seq<nat>

    // commit_buf_: one allocation of two halves
    const commitBuf: array<Elem>

    // FlusherState, WorkerState and the locals of run()
    var index: nat
    var pending: nat
    var flag: seq<bool>
    var stopped: bool
    var runningWorkers: nat
    var off: nat
    var nextId: nat

    // where the scheduler has the tasks
    var flusher: Flusher
    var workers: seq<Phase>

    ghost predicate Valid()
      reads this, commitBuf
    {
      && 0 < depth < U16
      && commitBuf.Length == 2 * depth
      && |flag| == |workers| == depth
      && index < 2 && pending <= depth && nextId < 2
      && (NeedAllocBuf(features) ==> |bufBases| == depth)
    }

    ghost function Abs(): Server
      reads this, commitBuf
      requires Valid()
    {
      Server(stopped, flag, workers, runningWorkers, index, pending,
             [commitBuf[..depth], commitBuf[depth..]], bufBases, flusher, false)
    }

    /** The constructor and the head of run(), with the elements prepared for `prep_io_cmds`. */
    constructor (features: Features, depth: nat, bufBases: seq<nat>)
      requires 0 < depth < U16 && (NeedAllocBuf(features) ==> |bufBases| == depth)
      ensures Valid() && fresh(commitBuf)
      ensures this.features == features && this.depth == depth && this.bufBases == bufBases
      ensures !stopped && runningWorkers == depth && index == 0 && pending == 0 && off == 0 && nextId == 0
      ensures flusher == Running
      ensures forall t :: 0 <= t < depth ==> !flag[t] && workers[t] == AtTop
      ensures forall t :: 0 <= t < depth ==> commitBuf[t].res == 0 && Addressed(features, bufBases, commitBuf[t], t)
    {
      this.features, this.depth, this.bufBases := features, depth, bufBases;
      var buf := new Elem[2 * depth](_ => Elem(0, 0, 0, 0));
      for t := 0 to depth
        invariant forall u :: 0 <= u < t ==> buf[u].res == 0 && Addressed(features, bufBases, buf[u], u)
      {
        buf[t] := Elem(t, 0, buf[t].lba, BufField(features, bufBases, t, buf[t].buf));
      }
      commitBuf := buf;
      index, pending, off, nextId := 0, 0, 0, 0;
      stopped, runningWorkers, flusher := false, depth, Running;
      flag := seq(depth, _ => false);
      workers := seq(depth, _ => AtTop);
    }

    method NotifyFlusher()
      requires Valid()
      modifies this`flusher
      ensures Valid() && Abs() == BatchQueue.NotifyFlusher(old(Abs()))
    {
      if flusher.Asleep? {
        flusher := Running;
      }
    }

    /** futex.notify_one() on the futex of tag t. */
    method NotifyWorker(t: Tag)
      requires Valid() && t < depth
      modifies this`workers
      ensures Valid() && workers == Wake(old(workers), [t])
    {
      if workers[t].Parked? {
        workers := workers[t := Woken];
      }
    }

    /** flusher_: one pass through the loop, up to its suspension. */
    method FlusherSegment()
      requires Valid() && flusher.Running?
      modifies this`index, this`pending, this`flusher
      ensures Valid() && Abs() == FlusherStep(old(Abs()))
    {
      var nr := pending;
      if nr > 0 {
        index := 1 - index;
        pending := 0;
        flusher := Committing(nr, 0);
      } else if runningWorkers == 0 {
        flusher := Finished;
      } else {
        flusher := Asleep;
      }
    }

    /** The continuation of a worker's task. */
    method WorkerLeaves(t: Tag, p: Phase)
      requires Valid() && t < depth && runningWorkers > 0
      modifies this`workers, this`runningWorkers, this`flusher
      ensures Valid() && Abs() == Leave(old(Abs()), t, p)
    {
      workers := workers[t := p];
      runningWorkers := runningWorkers - 1;
      if runningWorkers == 0 {
        NotifyFlusher();
      }
    }

    /** worker_: from the head of the loop, or from the futex wait, to the next suspension. */
    method WorkerSegment(t: Tag, q: Request)
      requires Valid() && t < depth
      requires workers[t].AtTop? || workers[t].Woken?
      requires workers[t].Woken? ==> flag[t] || stopped
      requires runningWorkers > 0
      modifies this`flag, this`workers, this`runningWorkers, this`flusher
      ensures Valid() && Abs() == Resume(features, old(Abs()), q, t)
    {
      if workers[t].AtTop? {
        if !stopped && !flag[t] {
          workers := workers[t := Parked];
          return;
        }
      }
      if stopped {
        WorkerLeaves(t, Exited);
        return;
      }
      assert flag[t];
      flag := flag[t := false];
      if NeedIoBuf(features, q) {
        workers := workers[t := Registering];
      } else {
        workers := workers[t := Handling(false)];
      }
    }

    /** set_result_: writes tag, result and the buffer field of the mode, and leaves the rest alone. */
    method SetResult(i: nat, pos: nat, t: Tag, res: int)
      requires Valid() && i < 2 && pos < depth && t < depth
      modifies commitBuf
      ensures Valid()
      ensures var k := (if i == 0 then 0 else depth) + pos;
              && Addressed(features, bufBases, commitBuf[k], t)
              && commitBuf[k].res == res && commitBuf[k].lba == old(commitBuf[k]).lba
              && commitBuf[k].buf == BufField(features, bufBases, t, old(commitBuf[k]).buf)
              && commitBuf[..] == old(commitBuf[..])[k := commitBuf[k]]
    {
      var k := (if i == 0 then 0 else depth) + pos;
      commitBuf[k] := commitBuf[k].(tag := t);
      commitBuf[k] := commitBuf[k].(res := res);
      if features.autoBufReg {
        commitBuf[k] := commitBuf[k].(buf := t);
      } else if NeedBufAddr(features) {
        commitBuf[k] := commitBuf[k].(buf := bufBases[t]);
      }
    }

    method SetZoneLba(i: nat, pos: nat, lba: nat)
      requires Valid() && i < 2 && pos < depth && features.zoned
      modifies commitBuf
      ensures Valid()
      ensures var k := (if i == 0 then 0 else depth) + pos;
              commitBuf[..] == old(commitBuf[..])[k := old(commitBuf[k]).(lba := lba)]
    {
      var k := (if i == 0 then 0 else depth) + pos;
      commitBuf[k] := commitBuf[k].(lba := lba);
    }

    /** worker_: storing a result after the handler, or after the buffer was unregistered. */
    method WorkerAppends(t: Tag, q: Request, r: IoResult)
      requires Valid() && t < depth && pending < depth
      requires IsZoneAppend(q) ==> features.zoned
      modifies this`pending, this`workers, this`flusher, commitBuf
      ensures Valid() && Abs() == Append(features, old(Abs()), q, t, r)
    {
      ghost var before := commitBuf[..];
      var curIndex, slot := index, pending;
      SetResult(curIndex, slot, t, r.res);
      if IsZoneAppend(q) {
        SetZoneLba(curIndex, slot, r.lba);
      }
      HalvesUpdate(before, commitBuf[..], depth, curIndex, slot);
      pending := (slot + 1) % U16;
      workers := workers[t := AtTop];
      if slot == 0 {
        NotifyFlusher();
      }
    }

    /** The fetch callback, run for the oldest completion. */
    method FetchCallback(r: FR.Ring)
      requires Valid() && |r.mem| == 2
      requires r.cqes != [] && r.off == off && r.nextId == nextId
      requires r.cqes[0].bid < 2 && off + r.cqes[0].res / SIZEOF_U16 <= |r.mem[r.cqes[0].bid]|
      requires r.cqes[0].retired ==> r.nextId == r.cqes[0].bid
      requires Below(FR.ReadTags(r), depth)
      modifies this`flag, this`workers, this`off, this`nextId
      ensures Valid() && Abs() == Announce(old(Abs()), FR.ReadTags(r))
      ensures off == FR.Consume(r).off && nextId == FR.Consume(r).nextId
    {
      var cqe := r.cqes[0];
      var fetchBuf := r.mem[cqe.bid];
      var nrTags := cqe.res / SIZEOF_U16;
      var end := off + nrTags;
      ghost var tags := FR.ReadTags(r);
      var j := off;
      RaiseNone(flag, workers);
      while j < end
        invariant old(off) <= j <= end && off == old(off) && nextId == old(nextId)
        invariant Valid()
        invariant flag == Raise(old(flag), tags[..j - off])
        invariant workers == Wake(old(workers), tags[..j - off])
      {
        var tag := fetchBuf[j];
        assert tag == tags[j - off];
        flag := flag[tag := true];
        NotifyWorker(tag);
        RaiseSnoc(old(flag), old(workers), tags[..j - off], tag);
        assert tags[..j + 1 - off] == tags[..j - off] + [tag];
        j := j + 1;
      }
      assert tags[..end - off] == tags;
      off := end;
      if cqe.retired {
        var id := nextId;
        nextId := 1 - nextId;
        assert id == cqe.bid;
        off := 0;
      }
    }

    /** The end of the multishot fetch. */
    method StopWorkers()
      requires Valid()
      modifies this`stopped, this`workers
      ensures Valid() && Abs() == StopAll(old(Abs()))
    {
      stopped := true;
      var t := 0;
      while t < depth
        invariant t <= depth && Valid() && stopped
        invariant forall u :: 0 <= u < t ==> workers[u] == WakeAll(old(workers))[u]
        invariant forall u :: t <= u < depth ==> workers[u] == old(workers[u])
      {
        NotifyWorker(t);
        t := t + 1;
      }
      assert workers == WakeAll(old(workers));
    }
  }

  /** What the methods above ask of their callers holds whenever their step is enabled in a state that
      satisfies the invariant of the transition system: for WorkerSegment, ... */
  lemma MayResume(c: Config, s: State, t: Tag)
    requires BI.Inv(c, s) && Enabled(c, s, WorkerResumes(t))
    ensures t < c.depth && s.srv.running > 0
    ensures s.srv.workers[t].Woken? ==> s.srv.flag[t] || s.srv.stopped
  {
    BI.CountLiveZero(s.srv.workers, t);
  }

  /** ... for WorkerAppends, with SetResult and SetZoneLba, ... */
  lemma MayAppend(c: Config, s: State, l: Label)
    requires BI.Inv(c, s) && Enabled(c, s, l) && BI.Appends(s, l)
    ensures l.t < c.depth && s.srv.index < 2 && s.srv.pending < c.depth
    ensures IsZoneAppend(s.iod[l.t]) ==> c.features.zoned
    ensures NeedAllocBuf(c.features) ==> |s.srv.bufs| == c.depth
  {
    BI.ActiveHasRoom(c, s, l.t);
  }

  /** ... for WorkerLeaves after a failed call, ... */
  lemma MayLeave(c: Config, s: State, l: Label)
    requires BI.Inv(c, s) && Enabled(c, s, l) && (l.RegisterReturns? || l.UnregisterReturns?)
    ensures l.t < c.depth && s.srv.running > 0
  {
    BI.CountLiveZero(s.srv.workers, l.t);
  }

  /** ... and for FetchCallback. */
  lemma MayCallBack(c: Config, s: State)
    requires BI.Inv(c, s) && Enabled(c, s, FetchCallback)
    ensures var r := s.ring;
            && |r.mem| == 2 && r.cqes != [] && r.nextId < 2 && r.cqes[0].bid < 2
            && r.off + r.cqes[0].res / SIZEOF_U16 <= |r.mem[r.cqes[0].bid]|
            && (r.cqes[0].retired ==> r.nextId == r.cqes[0].bid)
            && Below(FR.ReadTags(r), c.depth)
  {
    FR.ConsumeReads(c.cap, s.ring);
    BI.AnnounceSteps(c, s, FetchCallback);
  }

  /** An update of one slot of the buffer is an update of one half. */
  lemma HalvesUpdate(before: seq<Elem>, after: seq<Elem>, depth: nat, i: nat, pos: nat)
    requires |before| == |after| == 2 * depth && i < 2 && pos < depth
    requires var k := (if i == 0 then 0 else depth) + pos; after == before[k := after[k]]
    ensures var h := [before[..depth], before[depth..]];
            var k := (if i == 0 then 0 else depth) + pos;
            [after[..depth], after[depth..]] == h[i := h[i][pos := after[k]]]
  {
    if i == 0 {
      assert after[..depth] == before[..depth][pos := after[pos]];
      assert after[depth..] == before[depth..];
    } else {
      assert after[..depth] == before[..depth];
      assert after[depth..] == before[depth..][pos := after[depth + pos]];
    }
  }

  lemma RaiseNone(flag: seq<bool>, ws: seq<Phase>)
    ensures Raise(flag, []) == flag && Wake(ws, []) == ws
  {
  }

  lemma RaiseSnoc(flag: seq<bool>, ws: seq<Phase>, tags: seq<Tag>, t: Tag)
    requires t < |flag| && t < |ws|
    ensures Raise(flag, tags + [t]) == Raise(flag, tags)[t := true]
    ensures Wake(ws, tags + [t]) == Wake(Wake(ws, tags), [t])
  {
    assert forall u :: u in tags + [t] <==> u in tags || u == t;
  }
}
