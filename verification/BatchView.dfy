/** The batch queue seen as places that hold tags: where each tag is, and what a step moves. */
module BatchView {
  import opened Uapi
  import opened Seqs
  import opened BatchQueue

  datatype View = View(
    owned: seq<bool>,        // with the driver
    iod: seq<Request>,
    unread: seq<Tag>,        // in the fetch ring
    flag: seq<bool>,         // announced to the worker
    workers: seq<Phase>,     // with the worker, if busy; abandoned, if failed
    active: seq<Elem>,       // results in the active half
    inFlight: seq<Elem>)     // results handed to the driver, not yet consumed

  function Tags(es: seq<Elem>): seq<Tag> {
    seq(|es|, i requires 0 <= i < |es| => es[i].tag)
  }

  function Count(b: bool): nat {
    if b then 1 else 0
  }

  predicate Sized(depth: nat, w: View) {
    |w.owned| == |w.iod| == |w.flag| == |w.workers| == depth
  }

  /** The number of places that hold tag t. */
  function Places(w: View, t: Tag): nat
    requires t < |w.owned| && t < |w.flag| && t < |w.workers|
  {
    Count(w.owned[t])
    + Count(t in w.unread)
    + Count(w.flag[t])
    + Count(Busy(w.workers[t]))
    + Count(w.workers[t].Failed?)
    + Count(t in Tags(w.active))
    + Count(t in Tags(w.inFlight))
  }

  /** Each tag is in exactly one place, once. */
  predicate Conserved(depth: nat, w: View) {
    && Sized(depth, w)
    && Distinct(w.unread) && Below(w.unread, depth)
    && Distinct(Tags(w.active)) && Below(Tags(w.active), depth)
    && Distinct(Tags(w.inFlight)) && Below(Tags(w.inFlight), depth)
    && forall t :: 0 <= t < depth ==> Places(w, t) == 1
  }

  // ---------------------------------------------------------------- moves

  function Delivered(w: View, tags: seq<Tag>, reqs: seq<Request>): View
    requires |reqs| == |w.iod|
  {
    w.(owned := Release(w.owned, tags), iod := Rewrite(w.iod, tags, reqs), unread := w.unread + tags)
  }

  function Announced(w: View, n: nat): View
    requires n <= |w.unread|
  {
    w.(unread := w.unread[n..], flag := Raise(w.flag, w.unread[..n]), workers := Wake(w.workers, w.unread[..n]))
  }

  function Roused(w: View): View {
    w.(workers := WakeAll(w.workers))
  }

  function WorkerMoved(w: View, t: Tag, flag: bool, p: Phase): View
    requires t < |w.flag| && t < |w.workers|
  {
    w.(flag := w.flag[t := flag], workers := w.workers[t := p])
  }

  function Appended(w: View, t: Tag, e: Elem): View
    requires t < |w.workers|
  {
    w.(workers := w.workers[t := AtTop], active := w.active + [e])
  }

  function Submitted(w: View): View {
    w.(active := [], inFlight := w.active)
  }

  function Consumed(w: View): View
    requires w.inFlight != [] && w.inFlight[0].tag < |w.owned|
  {
    w.(owned := w.owned[w.inFlight[0].tag := true], inFlight := w.inFlight[1..])
  }

  /** The element carries result r of request q with tag t. */
  predicate Carries(e: Elem, t: Tag, q: Request, r: IoResult) {
    e.tag == t && e.res == r.res && (IsZoneAppend(q) ==> e.lba == r.lba)
  }

  predicate AppendMoves(w: View, t: Tag, r: IoResult, w': View)
    requires t < |w.workers| && t < |w.iod|
  {
    && |w'.active| == |w.active| + 1
    && Carries(w'.active[|w.active|], t, w.iod[t], r)
    && w' == Appended(w, t, w'.active[|w.active|])
  }

  /** What step l may do to the view. */
  predicate Moves(f: Features, w: View, l: Label, w': View)
    requires Sized(|w.owned|, w)
  {
    match l
    case Deliver(tags, reqs) =>
      && Distinct(tags) && Below(tags, |w.owned|) && |reqs| == |w.owned|
      && (forall t :: 0 <= t < |w.owned| && t in tags ==> w.owned[t])
      && w' == Delivered(w, tags, reqs)
    case CloseFetch => w' == w
    case FetchCallback => |w'.unread| < |w.unread| && w' == Announced(w, |w.unread| - |w'.unread|)
    case FetchEnded => w' == Roused(w)
    case WorkerResumes(t) =>
      && t < |w.workers|
      && (w.workers[t].AtTop? || w.workers[t].Woken?)
      && ((w.workers[t].AtTop? && !w.flag[t] && w' == WorkerMoved(w, t, false, Parked))
          || w' == WorkerMoved(w, t, w.flag[t], Exited)
          || (w.flag[t]
              && w' == WorkerMoved(w, t, false, if NeedIoBuf(f, w.iod[t]) then Registering else Handling(false))))
    case RegisterReturns(t, ok) =>
      && t < |w.workers| && w.workers[t].Registering?
      && w' == WorkerMoved(w, t, w.flag[t], if ok then Handling(true) else Failed(false))
    case HandlerCompletes(t, o) =>
      && t < |w.workers| && w.workers[t].Handling?
      && if w.workers[t].ioBuf then w' == WorkerMoved(w, t, w.flag[t], Unregistering(WrapHandleIo(o)))
         else AppendMoves(w, t, WrapHandleIo(o), w')
    case UnregisterReturns(t, ok) =>
      && t < |w.workers| && w.workers[t].Unregistering?
      && if ok then AppendMoves(w, t, w.workers[t].r, w')
         else w' == WorkerMoved(w, t, w.flag[t], Failed(true))
    case FlusherRuns => (w.inFlight == [] && w' == Submitted(w)) || w' == w
    case DriverConsumes => w.inFlight != [] && w.inFlight[0].tag < |w.owned| && w' == Consumed(w)
    case CommitReturns(_) => w' == w
  }

  // ---------------------------------------------------------------- moves conserve tags

  lemma DistinctConcat(x: seq<Tag>, y: seq<Tag>)
    requires Distinct(x) && Distinct(y)
    requires forall i :: 0 <= i < |y| ==> y[i] !in x
    ensures Distinct(x + y)
  {
  }

  lemma DistinctSplit(x: seq<Tag>, y: seq<Tag>)
    requires Distinct(x + y)
    ensures Distinct(x) && Distinct(y)
    ensures forall i :: 0 <= i < |x| ==> x[i] !in y
  {
    var z := x + y;
    forall i, j | 0 <= i < |x| && 0 <= j < |y| ensures x[i] != y[j] {
      assert z[i] == x[i] && z[|x| + j] == y[j];
    }
    forall i, j | 0 <= i < j < |x| ensures x[i] != x[j] {
      assert z[i] == x[i] && z[j] == x[j];
    }
    forall i, j | 0 <= i < j < |y| ensures y[i] != y[j] {
      assert z[|x| + i] == y[i] && z[|x| + j] == y[j];
    }
  }

  lemma DeliveredConserves(depth: nat, w: View, tags: seq<Tag>, reqs: seq<Request>)
    requires Conserved(depth, w) && |reqs| == depth
    requires Distinct(tags) && Below(tags, depth)
    requires forall t :: 0 <= t < depth && t in tags ==> w.owned[t]
    ensures Conserved(depth, Delivered(w, tags, reqs))
  {
    var w' := Delivered(w, tags, reqs);
    forall i | 0 <= i < |tags| ensures tags[i] !in w.unread {
      assert tags[i] in tags;
      assert Places(w, tags[i]) == 1;
    }
    DistinctConcat(w.unread, tags);
    forall t | 0 <= t < depth ensures Places(w', t) == 1 {
      assert Places(w, t) == 1;
      assert t in w'.unread <==> t in w.unread || t in tags;
    }
  }

  lemma AnnouncedConserves(depth: nat, w: View, n: nat)
    requires Conserved(depth, w) && n <= |w.unread|
    ensures Conserved(depth, Announced(w, n))
  {
    var w' := Announced(w, n);
    var tags, rest := w.unread[..n], w.unread[n..];
    assert w.unread == tags + rest;
    DistinctSplit(tags, rest);
    forall t | 0 <= t < depth ensures Places(w', t) == 1 {
      assert Places(w, t) == 1;
      assert t in w.unread <==> t in tags || t in rest;
    }
  }

  lemma RousedConserves(depth: nat, w: View)
    requires Conserved(depth, w)
    ensures Conserved(depth, Roused(w))
  {
    forall t | 0 <= t < depth ensures Places(Roused(w), t) == 1 {
      assert Places(w, t) == 1;
    }
  }

  lemma WorkerMovedConserves(depth: nat, w: View, t: Tag, flag: bool, p: Phase)
    requires Conserved(depth, w) && t < depth
    requires Count(flag) + Count(Busy(p)) + Count(p.Failed?)
             == Count(w.flag[t]) + Count(Busy(w.workers[t])) + Count(w.workers[t].Failed?)
    ensures Conserved(depth, WorkerMoved(w, t, flag, p))
  {
    var w' := WorkerMoved(w, t, flag, p);
    forall u | 0 <= u < depth ensures Places(w', u) == 1 {
      assert Places(w, u) == 1;
    }
  }

  lemma TagsAppend(es: seq<Elem>, e: Elem)
    ensures Tags(es + [e]) == Tags(es) + [e.tag]
  {
  }

  /** A busy tag's result fits in the active half. */
  lemma AppendedConserves(depth: nat, w: View, t: Tag, e: Elem)
    requires Conserved(depth, w) && t < depth && Busy(w.workers[t]) && e.tag == t
    ensures |w.active| < depth
    ensures Conserved(depth, Appended(w, t, e))
  {
    var w' := Appended(w, t, e);
    TagsAppend(w.active, e);
    assert Places(w, t) == 1;
    DistinctConcat(Tags(w.active), [t]);
    Pigeonhole(Tags(w'.active), depth);
    forall u | 0 <= u < depth ensures Places(w', u) == 1 {
      assert Places(w, u) == 1;
      assert u in Tags(w'.active) <==> u in Tags(w.active) || u == t;
    }
  }

  lemma SubmittedConserves(depth: nat, w: View)
    requires Conserved(depth, w) && w.inFlight == []
    ensures Conserved(depth, Submitted(w))
  {
    var w' := Submitted(w);
    forall u | 0 <= u < depth ensures Places(w', u) == 1 {
      assert Places(w, u) == 1;
    }
  }

  lemma ConsumedConserves(depth: nat, w: View)
    requires Conserved(depth, w) && w.inFlight != []
    ensures w.inFlight[0].tag < depth && !w.owned[w.inFlight[0].tag]
    ensures Conserved(depth, Consumed(w))
  {
    var t, ts, rest := w.inFlight[0].tag, Tags(w.inFlight), Tags(w.inFlight[1..]);
    assert ts[0] == t && ts[0] in ts && ts == [t] + rest;
    assert Places(w, t) == 1;
    var w' := Consumed(w);
    DistinctSplit([t], rest);
    forall i | 0 <= i < |rest| ensures rest[i] < depth {
      assert rest[i] == ts[1 + i];
    }
    assert [t][0] !in rest;
    forall u | 0 <= u < depth ensures Places(w', u) == 1 {
      assert Places(w, u) == 1;
      assert u in ts <==> u == t || u in rest;
    }
  }

  predicate OfWorker(l: Label) {
    l.WorkerResumes? || l.RegisterReturns? || l.HandlerCompletes? || l.UnregisterReturns?
  }

  lemma WorkerConserves(depth: nat, f: Features, w: View, l: Label, w': View)
    requires Conserved(depth, w) && Moves(f, w, l, w') && OfWorker(l)
    ensures Conserved(depth, w')
  {
    var t := l.t;
    if |w'.active| > |w.active| {
      AppendedConserves(depth, w, t, w'.active[|w.active|]);
    } else {
      assert Places(w, t) == 1;
      WorkerMovedConserves(depth, w, t, w'.flag[t], w'.workers[t]);
    }
  }

  lemma OtherConserves(depth: nat, f: Features, w: View, l: Label, w': View)
    requires Conserved(depth, w) && Moves(f, w, l, w') && !OfWorker(l)
    ensures Conserved(depth, w')
  {
    match l
    case Deliver(tags, reqs) => DeliveredConserves(depth, w, tags, reqs);
    case CloseFetch =>
    case FetchCallback => AnnouncedConserves(depth, w, |w.unread| - |w'.unread|);
    case FetchEnded => RousedConserves(depth, w);
    case FlusherRuns => if w' != w { SubmittedConserves(depth, w); }
    case DriverConsumes => ConsumedConserves(depth, w);
    case CommitReturns(_) =>
  }

  /** No move loses or duplicates a tag. */
  lemma MovesConserve(depth: nat, f: Features, w: View, l: Label, w': View)
    requires Conserved(depth, w) && Moves(f, w, l, w')
    ensures Conserved(depth, w')
  {
    if OfWorker(l) {
      WorkerConserves(depth, f, w, l, w');
    } else {
      OtherConserves(depth, f, w, l, w');
    }
  }
}
