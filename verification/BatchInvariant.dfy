/** What every step of the batch queue keeps. */
module BatchInvariant {
  import opened Uapi
  import opened Seqs
  import opened BatchQueue
  import opened BatchView
  import FR = FetchRing

  /** The results in the active half. */
  function Active(v: Server): seq<Elem>
    requires v.index < 2 && |v.halves| == 2 && v.pending <= |v.halves[v.index]|
  {
    v.halves[v.index][..v.pending]
  }

  predicate Submitting(v: Server) {
    v.flusher.Committing? || v.flusher.Broken?
  }

  /** The results the driver was given and has not consumed. */
  function InFlight(v: Server): seq<Elem>
    requires v.index < 2 && |v.halves| == 2
    requires Submitting(v) ==> v.flusher.consumed <= v.flusher.nr <= |v.halves[1 - v.index]|
  {
    if Submitting(v) then v.halves[1 - v.index][v.flusher.consumed..v.flusher.nr] else []
  }

  function ViewOf(c: Config, s: State): View
    requires WellFormed(c, s) && s.srv.pending <= c.depth
  {
    View(s.owned, s.iod, FR.Unread(c.cap, s.ring), s.srv.flag, s.srv.workers, Active(s.srv), InFlight(s.srv))
  }

  function CountLive(ws: seq<Phase>): nat
    decreases |ws|
  {
    if ws == [] then 0
    else CountLive(ws[..|ws| - 1]) + Count(Live(ws[|ws| - 1]))
  }

  /** No notification is lost. `drained` says that the callback has no completion left to see. */
  predicate Wakeups(v: Server, open: bool, drained: bool) {
    && (v.flusher.Asleep? ==> v.pending == 0 && v.running > 0)
    && (v.flusher.Finished? ==> v.pending == 0 && v.running == 0)
    && v.running == CountLive(v.workers)
    && (v.stopped ==> !open && drained)
    && |v.flag| == |v.workers|
    && forall t :: 0 <= t < |v.workers| ==>
         && (v.workers[t].Parked? ==> !v.flag[t] && !v.stopped)
         && (v.workers[t].Woken? ==> v.flag[t] || v.stopped)
         && (v.workers[t].Exited? ==> v.stopped)
  }

  predicate Holding(p: Phase) {
    p == Handling(true) || p.Unregistering? || p == Failed(true)
  }

  predicate PhaseFits(f: Features, p: Phase, q: Request) {
    && (p.Registering? || p.Unregistering? || p == Failed(true) ==> NeedIoBuf(f, q))
    && (p.Handling? ==> (p.ioBuf <==> NeedIoBuf(f, q)))
  }

  predicate Deliverable(f: Features, q: Request) {
    && (IsZoneAppend(q) ==> f.zoned)
    && (q.needRegBuf ==> f.autoBufReg)
  }

  /** Phases agree with the descriptors and with the buffer table. */
  predicate Buffers(f: Features, owned: seq<bool>, iod: seq<Request>, table: set<Tag>, ws: seq<Phase>) {
    && |owned| == |iod| == |ws|
    && (forall t :: t in table ==> t < |ws|)
    && forall t :: 0 <= t < |ws| ==>
         && (t in table <==> Holding(ws[t]))
         && PhaseFits(f, ws[t], iod[t])
         && (!owned[t] ==> Deliverable(f, iod[t]))
  }

  predicate Inv(c: Config, s: State) {
    && WellFormed(c, s)
    && s.srv.pending <= c.depth
    && (s.srv.flusher.Committing? ==> 0 < s.srv.flusher.nr)
    && !s.srv.fault
    && Conserved(c.depth, ViewOf(c, s))
    && Wakeups(s.srv, s.open, s.ring.cqes == [])
    && Buffers(c.features, s.owned, s.iod, s.table, s.srv.workers)
  }

  // ---------------------------------------------------------------- counting workers

  lemma {:induction false} CountLiveUpdate(ws: seq<Phase>, t: nat, p: Phase)
    requires t < |ws|
    ensures CountLive(ws[t := p]) == CountLive(ws) - Count(Live(ws[t])) + Count(Live(p))
    decreases |ws|
  {
    var k := |ws| - 1;
    if t == k {
      assert ws[t := p][..k] == ws[..k];
    } else {
      assert ws[t := p][..k] == ws[..k][t := p];
      CountLiveUpdate(ws[..k], t, p);
    }
  }

  lemma {:induction false} CountLiveSame(ws: seq<Phase>, ws': seq<Phase>)
    requires |ws| == |ws'|
    requires forall t :: 0 <= t < |ws| ==> (Live(ws[t]) <==> Live(ws'[t]))
    ensures CountLive(ws) == CountLive(ws')
    decreases |ws|
  {
    if ws != [] {
      var k := |ws| - 1;
      CountLiveSame(ws[..k], ws'[..k]);
    }
  }

  lemma {:induction false} CountLiveZero(ws: seq<Phase>, t: nat)
    requires t < |ws| && Live(ws[t])
    ensures CountLive(ws) > 0
    decreases |ws|
  {
    var k := |ws| - 1;
    if t < k {
      CountLiveZero(ws[..k], t);
    }
  }

  lemma {:induction false} CountLiveFull(ws: seq<Phase>)
    requires forall t :: 0 <= t < |ws| ==> Live(ws[t])
    ensures CountLive(ws) == |ws|
    decreases |ws|
  {
    if ws != [] {
      CountLiveFull(ws[..|ws| - 1]);
    }
  }

  // ---------------------------------------------------------------- initial states

  lemma InitialInv(c: Config, s: State)
    requires Initial(c, s)
    ensures Inv(c, s)
  {
    CountLiveFull(s.srv.workers);
    FR.FreshInv(c.cap, s.ring.mem);
    var w := ViewOf(c, s);
    forall t | 0 <= t < c.depth ensures Places(w, t) == 1 {
    }
  }

  // ---------------------------------------------------------------- waking and buffers, part by part

  lemma WakeupsResume(f: Features, v: Server, q: Request, t: Tag, open: bool, drained: bool)
    requires Wakeups(v, open, drained) && t < |v.workers| && !v.fault
    requires v.workers[t].AtTop? || v.workers[t].Woken?
    ensures !Resume(f, v, q, t).fault
    ensures Wakeups(Resume(f, v, q, t), open, drained)
  {
    var v' := Resume(f, v, q, t);
    CountLiveUpdate(v.workers, t, v'.workers[t]);
  }

  lemma WakeupsPhase(v: Server, t: Tag, p: Phase, open: bool, drained: bool)
    requires Wakeups(v, open, drained) && t < |v.workers|
    requires Busy(v.workers[t]) && Busy(p)
    ensures Wakeups(v.(workers := v.workers[t := p]), open, drained)
  {
    CountLiveUpdate(v.workers, t, p);
  }

  lemma WakeupsLeave(v: Server, t: Tag, p: Phase, open: bool, drained: bool)
    requires Wakeups(v, open, drained) && t < |v.workers|
    requires Busy(v.workers[t]) && p.Failed?
    ensures Wakeups(Leave(v, t, p), open, drained)
  {
    CountLiveUpdate(v.workers, t, p);
    CountLiveZero(v.workers, t);
  }

  lemma WakeupsAppend(f: Features, v: Server, q: Request, t: Tag, r: IoResult, open: bool, drained: bool)
    requires Wakeups(v, open, drained) && t < |v.workers| && v.index < |v.halves|
    requires Busy(v.workers[t]) && !v.fault
    requires v.pending < |v.halves[v.index]| < U16 && (IsZoneAppend(q) ==> f.zoned)
    requires NeedBufAddr(f) ==> t < |v.bufs|
    ensures !Append(f, v, q, t, r).fault
    ensures Wakeups(Append(f, v, q, t, r), open, drained)
  {
    CountLiveUpdate(v.workers, t, AtTop);
    CountLiveZero(v.workers, t);
  }

  lemma WakeupsAnnounce(v: Server, tags: seq<Tag>, open: bool, drained: bool)
    requires Wakeups(v, open, false) && Below(tags, |v.workers|) && !v.fault
    ensures !Announce(v, tags).fault
    ensures Wakeups(Announce(v, tags), open, drained)
  {
    CountLiveSame(v.workers, Wake(v.workers, tags));
  }

  lemma WakeupsStop(v: Server)
    requires Wakeups(v, false, true)
    ensures Wakeups(StopAll(v), false, true)
  {
    CountLiveSame(v.workers, WakeAll(v.workers));
  }

  lemma WakeupsSame(v: Server, v': Server, open: bool, open': bool, drained: bool, drained': bool)
    requires Wakeups(v, open, drained)
    requires v'.workers == v.workers && v'.flag == v.flag && v'.running == v.running && v'.stopped == v.stopped
    requires v.stopped ==> !open' && drained'
    requires v'.flusher.Asleep? ==> v'.pending == 0 && v'.running > 0
    requires v'.flusher.Finished? ==> v'.pending == 0 && v'.running == 0
    ensures Wakeups(v', open', drained')
  {
  }

  lemma BuffersUpdate(f: Features, owned: seq<bool>, iod: seq<Request>, table: set<Tag>, ws: seq<Phase>, t: Tag,
                      p: Phase)
    requires Buffers(f, owned, iod, table, ws) && t < |ws|
    requires PhaseFits(f, p, iod[t])
    ensures Buffers(f, owned, iod, if Holding(p) then table + {t} else table - {t}, ws[t := p])
  {
  }

  lemma BuffersWake(f: Features, owned: seq<bool>, iod: seq<Request>, table: set<Tag>, ws: seq<Phase>, ws': seq<Phase>)
    requires Buffers(f, owned, iod, table, ws) && |ws'| == |ws|
    requires forall t :: 0 <= t < |ws| ==> ws'[t] == ws[t] || (ws[t].Parked? && ws'[t].Woken?)
    ensures Buffers(f, owned, iod, table, ws')
  {
  }

  lemma BuffersDeliver(f: Features, owned: seq<bool>, iod: seq<Request>, table: set<Tag>, ws: seq<Phase>,
                       tags: seq<Tag>, reqs: seq<Request>)
    requires Buffers(f, owned, iod, table, ws) && |reqs| == |iod|
    requires forall t :: 0 <= t < |ws| && t in tags ==> Deliverable(f, reqs[t]) && !Busy(ws[t]) && !ws[t].Failed?
    ensures Buffers(f, Release(owned, tags), Rewrite(iod, tags, reqs), table, ws)
  {
  }

  // ---------------------------------------------------------------- steps move tags

  lemma PlaceIs(c: Config, s: State, t: Tag)
    requires Inv(c, s) && t < c.depth
    ensures Places(ViewOf(c, s), t) == 1
  {
  }

  /** The facts about a step that the other proofs start from. */
  ghost predicate Steps(c: Config, s: State, l: Label, s': State) {
    && Inv(c, s) && Enabled(c, s, l) && s' == Apply(c, s, l)
    && WellFormed(c, s') && s'.srv.pending <= c.depth && !s'.srv.fault
    && (s'.srv.flusher.Committing? ==> 0 < s'.srv.flusher.nr)
    && Moves(c.features, ViewOf(c, s), l, ViewOf(c, s'))
  }

  lemma DeliverSteps(c: Config, s: State, l: Label)
    requires Inv(c, s) && l.Deliver? && Enabled(c, s, l)
    ensures Steps(c, s, l, Apply(c, s, l))
  {
    FR.NeverStarved(c.cap, c.depth, s.ring);
    FR.WriteAppends(c.cap, s.ring, l.tags);
    var s' := s.(owned := Release(s.owned, l.tags), iod := Rewrite(s.iod, l.tags, l.reqs),
                 ring := FR.Write(c.cap, s.ring, l.tags));
    assert ViewOf(c, s') == Delivered(ViewOf(c, s), l.tags, l.reqs);
  }

  lemma AnnounceView(c: Config, s: State)
    requires WellFormed(c, s) && s.srv.pending <= c.depth && s.ring.cqes != []
    requires Below(FR.Unread(c.cap, s.ring), c.depth)
    ensures var tags := FR.ReadTags(s.ring);
            var s' := s.(ring := FR.Consume(s.ring), srv := Announce(s.srv, tags));
            && Below(tags, c.depth) && 0 < |tags| && WellFormed(c, s')
            && ViewOf(c, s') == Announced(ViewOf(c, s), |tags|)
  {
    FR.ConsumeReads(c.cap, s.ring);
    var tags, u := FR.ReadTags(s.ring), FR.Unread(c.cap, s.ring);
    forall i | 0 <= i < |tags| ensures tags[i] < c.depth {
      assert u[i] == tags[i];
    }
    assert u[..|tags|] == tags && u[|tags|..] == FR.Unread(c.cap, FR.Consume(s.ring));
  }

  lemma AnnounceSteps(c: Config, s: State, l: Label)
    requires Inv(c, s) && l.FetchCallback? && Enabled(c, s, l)
    ensures Steps(c, s, l, Apply(c, s, l))
    ensures Below(FR.ReadTags(s.ring), c.depth)
  {
    FR.ConsumeReads(c.cap, s.ring);
    AnnounceView(c, s);
  }

  lemma StopSteps(c: Config, s: State, l: Label)
    requires Inv(c, s) && (l.FetchEnded? || l.CloseFetch?) && Enabled(c, s, l)
    ensures Steps(c, s, l, Apply(c, s, l))
  {
    var s' := if l.CloseFetch? then s.(open := false) else s.(srv := StopAll(s.srv));
    assert ViewOf(c, s') == if l.CloseFetch? then ViewOf(c, s) else Roused(ViewOf(c, s));
  }

  /** A step of one worker that leaves the commit halves alone. */
  lemma WorkerView(c: Config, s: State, table: set<Tag>, v': Server, t: Tag)
    requires WellFormed(c, s) && s.srv.pending <= c.depth && t < c.depth
    requires |v'.flag| == |v'.workers| == c.depth
    requires v'.flag == s.srv.flag[t := v'.flag[t]] && v'.workers == s.srv.workers[t := v'.workers[t]]
    requires v'.index == s.srv.index && v'.pending == s.srv.pending
    requires v'.halves == s.srv.halves && v'.bufs == s.srv.bufs
    requires v'.flusher == s.srv.flusher || (s.srv.flusher.Asleep? && v'.flusher.Running?)
    ensures WellFormed(c, s.(table := table, srv := v'))
    ensures ViewOf(c, s.(table := table, srv := v')) == WorkerMoved(ViewOf(c, s), t, v'.flag[t], v'.workers[t])
  {
  }

  lemma ResumeSteps(c: Config, s: State, l: Label)
    requires Inv(c, s) && l.WorkerResumes? && Enabled(c, s, l)
    ensures Steps(c, s, l, Apply(c, s, l))
  {
    var t, v := l.t, s.srv;
    var v' := Resume(c.features, v, s.iod[t], t);
    WakeupsResume(c.features, v, s.iod[t], t, s.open, s.ring.cqes == []);
    WorkerView(c, s, s.table, v', t);
  }

  /** Registration uses a free slot inside the table. */
  lemma SlotIsFree(c: Config, s: State, t: Tag)
    requires Inv(c, s) && t < c.depth && s.srv.workers[t].Registering?
    ensures t < c.tableSize && t !in s.table
  {
    PlaceIs(c, s, t);
  }

  lemma RegisterSteps(c: Config, s: State, l: Label)
    requires Inv(c, s) && Enabled(c, s, l) && l.RegisterReturns?
    ensures Steps(c, s, l, Apply(c, s, l))
  {
    SlotIsFree(c, s, l.t);
    var s' := Apply(c, s, l);
    WorkerView(c, s, s'.table, s'.srv, l.t);
  }

  lemma CompletionSteps(c: Config, s: State, l: Label)
    requires Inv(c, s) && Enabled(c, s, l) && (l.HandlerCompletes? || l.UnregisterReturns?) && !Appends(s, l)
    ensures Steps(c, s, l, Apply(c, s, l))
  {
    var s' := Apply(c, s, l);
    WorkerView(c, s, s'.table, s'.srv, l.t);
  }

  /** The steps in which a worker stores a result. */
  predicate Appends(s: State, l: Label) {
    || (l.UnregisterReturns? && l.ok && l.t < |s.srv.workers| && s.srv.workers[l.t].Unregistering?)
    || (l.HandlerCompletes? && l.t < |s.srv.workers| && s.srv.workers[l.t].Handling? && !s.srv.workers[l.t].ioBuf)
  }

  /** The result stored by such a step. */
  function ResultOf(s: State, l: Label): IoResult
    requires Appends(s, l)
  {
    if l.HandlerCompletes? then WrapHandleIo(l.o) else s.srv.workers[l.t].r
  }

  /** The active half has room for the result of a tag that is being handled. */
  lemma ActiveHasRoom(c: Config, s: State, t: Tag)
    requires Inv(c, s) && t < c.depth && Busy(s.srv.workers[t])
    ensures s.srv.pending < c.depth
    ensures IsZoneAppend(s.iod[t]) ==> c.features.zoned
  {
    AppendedConserves(c.depth, ViewOf(c, s), t, Elem(t, 0, 0, 0));
    PlaceIs(c, s, t);
  }

  lemma AppendFields(f: Features, v: Server, q: Request, t: Tag, r: IoResult)
    requires t < |v.workers| && v.index < |v.halves| == 2
    requires v.pending < |v.halves[v.index]| < U16 && (IsZoneAppend(q) ==> f.zoned)
    requires NeedBufAddr(f) ==> t < |v.bufs|
    ensures var v', h := Append(f, v, q, t, r), v.halves[v.index];
            && v'.fault == v.fault && v'.index == v.index && v'.pending == v.pending + 1
            && v'.flag == v.flag && v'.workers == v.workers[t := AtTop] && v'.bufs == v.bufs
            && (v'.flusher == v.flusher || (v.flusher.Asleep? && v'.flusher.Running?))
            && |v'.halves| == 2 && v'.halves[1 - v.index] == v.halves[1 - v.index]
            && v'.halves[v.index]
               == h[v.pending := Elem(t, r.res, if IsZoneAppend(q) then r.lba else h[v.pending].lba,
                                      BufField(f, v.bufs, t, h[v.pending].buf))]
  {
  }

  lemma AppendView(c: Config, s: State, table: set<Tag>, t: Tag, r: IoResult)
    requires WellFormed(c, s) && t < c.depth && s.srv.pending < c.depth
    requires IsZoneAppend(s.iod[t]) ==> c.features.zoned
    ensures var v' := Append(c.features, s.srv, s.iod[t], t, r);
            && v'.fault == s.srv.fault && v'.index == s.srv.index && v'.pending == s.srv.pending + 1
            && v'.halves[1 - s.srv.index] == s.srv.halves[1 - s.srv.index]
            && (v'.flusher == s.srv.flusher || (s.srv.flusher.Asleep? && v'.flusher.Running?))
            && WellFormed(c, s.(table := table, srv := v'))
            && AppendMoves(ViewOf(c, s), t, r, ViewOf(c, s.(table := table, srv := v')))
  {
    var v' := Append(c.features, s.srv, s.iod[t], t, r);
    AppendFields(c.features, s.srv, s.iod[t], t, r);
    var h, h' := s.srv.halves[s.srv.index], v'.halves[s.srv.index];
    assert h'[..s.srv.pending + 1] == h[..s.srv.pending] + [h'[s.srv.pending]];
  }

  lemma AppendApply(c: Config, s: State, l: Label)
    requires WellFormed(c, s) && Enabled(c, s, l) && Appends(s, l)
    ensures Apply(c, s, l) == s.(table := Apply(c, s, l).table,
                                  srv := Append(c.features, s.srv, s.iod[l.t], l.t, ResultOf(s, l)))
  {
  }

  lemma AppendSteps(c: Config, s: State, l: Label)
    requires Inv(c, s) && Enabled(c, s, l) && Appends(s, l)
    ensures Steps(c, s, l, Apply(c, s, l))
  {
    ActiveHasRoom(c, s, l.t);
    AppendApply(c, s, l);
    var s' := Apply(c, s, l);
    AppendView(c, s, s'.table, l.t, ResultOf(s, l));
    assert Moves(c.features, ViewOf(c, s), l, ViewOf(c, s'));
  }

  lemma FlusherSteps(c: Config, s: State, l: Label)
    requires Inv(c, s) && l.FlusherRuns? && Enabled(c, s, l)
    ensures Steps(c, s, l, Apply(c, s, l))
    ensures s.srv.pending > 0 ==> ViewOf(c, Apply(c, s, l)) == Submitted(ViewOf(c, s))
  {
    var s' := s.(srv := FlusherStep(s.srv));
    if s.srv.pending > 0 {
      assert s.srv.halves[s.srv.index][..s.srv.pending] == s.srv.halves[1 - s'.srv.index][0..s.srv.pending];
      assert ViewOf(c, s') == Submitted(ViewOf(c, s));
    } else {
      assert ViewOf(c, s') == ViewOf(c, s);
    }
  }

  lemma ConsumeView(c: Config, s: State)
    requires WellFormed(c, s) && s.srv.pending <= c.depth
    requires s.srv.flusher.Committing? && s.srv.flusher.consumed < s.srv.flusher.nr
    requires s.srv.halves[1 - s.srv.index][s.srv.flusher.consumed].tag < c.depth
    ensures var w, e := ViewOf(c, s), s.srv.halves[1 - s.srv.index][s.srv.flusher.consumed];
            var s' := s.(owned := s.owned[e.tag := true],
                         srv := s.srv.(flusher := Committing(s.srv.flusher.nr, s.srv.flusher.consumed + 1)));
            w.inFlight != [] && w.inFlight[0] == e && WellFormed(c, s') && ViewOf(c, s') == Consumed(w)
  {
  }

  /** The next element of the half in flight names a tag that the server still has. */
  lemma InFlightHead(c: Config, s: State)
    requires Inv(c, s) && s.srv.flusher.Committing? && s.srv.flusher.consumed < s.srv.flusher.nr
    ensures var t := s.srv.halves[1 - s.srv.index][s.srv.flusher.consumed].tag;
            t < c.depth && !s.owned[t] && Deliverable(c.features, s.iod[t])
  {
    var w := ViewOf(c, s);
    assert w.inFlight[0] == s.srv.halves[1 - s.srv.index][s.srv.flusher.consumed];
    ConsumedConserves(c.depth, w);
  }

  lemma ConsumeApply(c: Config, s: State)
    requires Inv(c, s) && Enabled(c, s, DriverConsumes)
    ensures var t := s.srv.halves[1 - s.srv.index][s.srv.flusher.consumed].tag;
            t < c.depth
            && Apply(c, s, DriverConsumes)
               == s.(owned := s.owned[t := true],
                     srv := s.srv.(flusher := Committing(s.srv.flusher.nr, s.srv.flusher.consumed + 1)))
  {
    InFlightHead(c, s);
  }

  lemma ConsumeSteps(c: Config, s: State, l: Label)
    requires Inv(c, s) && l.DriverConsumes? && Enabled(c, s, l)
    ensures Steps(c, s, l, Apply(c, s, l))
  {
    ConsumeApply(c, s);
    ConsumeView(c, s);
  }

  lemma FewerBytes(k: nat, nr: nat, size: nat)
    requires k < nr && 0 < size
    ensures k * size < nr * size
  {
    assert nr * size == k * size + (nr - k) * size;
  }

  lemma ReturnSteps(c: Config, s: State, l: Label)
    requires Inv(c, s) && l.CommitReturns? && Enabled(c, s, l)
    ensures Steps(c, s, l, Apply(c, s, l))
    ensures Apply(c, s, l).srv.flusher.Running? <==> s.srv.flusher.consumed == s.srv.flusher.nr
  {
    var k, nr := s.srv.flusher.consumed, s.srv.flusher.nr;
    if k < nr {
      FewerBytes(k, nr, c.elemSize);
    }
    var s' := Apply(c, s, l);
    assert ViewOf(c, s') == ViewOf(c, s);
  }

  lemma StepSteps(c: Config, s: State, l: Label)
    requires Inv(c, s) && Enabled(c, s, l)
    ensures Steps(c, s, l, Apply(c, s, l))
  {
    match l
    case Deliver(_, _) => DeliverSteps(c, s, l);
    case CloseFetch => StopSteps(c, s, l);
    case FetchEnded => StopSteps(c, s, l);
    case FetchCallback => AnnounceSteps(c, s, l);
    case WorkerResumes(_) => ResumeSteps(c, s, l);
    case RegisterReturns(_, _) => RegisterSteps(c, s, l);
    case HandlerCompletes(t, _) => if Appends(s, l) { AppendSteps(c, s, l); } else { CompletionSteps(c, s, l); }
    case UnregisterReturns(_, ok) => if Appends(s, l) { AppendSteps(c, s, l); } else { CompletionSteps(c, s, l); }
    case FlusherRuns => FlusherSteps(c, s, l);
    case DriverConsumes => ConsumeSteps(c, s, l);
    case CommitReturns(_) => ReturnSteps(c, s, l);
  }

  // ---------------------------------------------------------------- what most steps leave alone

  /** The commit halves and their counters are untouched, and no commit starts. */
  predicate Framed(v: Server, v': Server) {
    && v'.halves == v.halves && v'.bufs == v.bufs && v'.index == v.index && v'.pending == v.pending
    && (v'.flusher.Committing? ==> v.flusher.Committing? && v'.flusher.nr == v.flusher.nr)
  }

  lemma ResumeFrame(f: Features, v: Server, q: Request, t: Tag)
    requires t < |v.workers| && t < |v.flag|
    ensures Framed(v, Resume(f, v, q, t)) && (v.flusher.Committing? ==> Resume(f, v, q, t).flusher == v.flusher)
  {
  }

  lemma LeaveFrame(v: Server, t: Tag, p: Phase)
    requires t < |v.workers|
    ensures Framed(v, Leave(v, t, p)) && (v.flusher.Committing? ==> Leave(v, t, p).flusher == v.flusher)
  {
  }

  lemma CallFrame(c: Config, s: State, l: Label)
    requires Inv(c, s) && Enabled(c, s, l) && OfWorker(l) && !l.WorkerResumes? && !Appends(s, l)
    ensures Framed(s.srv, Apply(c, s, l).srv)
    ensures s.srv.flusher.Committing? ==> Apply(c, s, l).srv.flusher == s.srv.flusher
  {
    if !l.HandlerCompletes? && !l.ok {
      LeaveFrame(s.srv, l.t, Failed(l.UnregisterReturns?));
    }
  }

  lemma OtherFrame(c: Config, s: State, l: Label)
    requires Inv(c, s) && Enabled(c, s, l) && !OfWorker(l) && !l.FlusherRuns?
    ensures Framed(s.srv, Apply(c, s, l).srv)
    ensures s.srv.flusher.Committing? && !l.CommitReturns? ==> Apply(c, s, l).srv.flusher.Committing?
  {
  }

  /** Only a worker that stores a result and the flusher touch the halves and their counters, and only
      the return of the commit call ends a commit. */
  lemma StepFrame(c: Config, s: State, l: Label)
    requires Inv(c, s) && Enabled(c, s, l) && !Appends(s, l) && !l.FlusherRuns?
    ensures Framed(s.srv, Apply(c, s, l).srv)
    ensures s.srv.flusher.Committing? && !l.CommitReturns? ==> Apply(c, s, l).srv.flusher.Committing?
  {
    if l.WorkerResumes? {
      ResumeFrame(c.features, s.srv, s.iod[l.t], l.t);
    } else if OfWorker(l) {
      CallFrame(c, s, l);
    } else {
      OtherFrame(c, s, l);
    }
  }

  // ---------------------------------------------------------------- steps keep wakeups and buffers

  lemma WorkerWakeups(c: Config, s: State, l: Label)
    requires Inv(c, s) && Enabled(c, s, l) && OfWorker(l) && !Appends(s, l)
    ensures Wakeups(Apply(c, s, l).srv, s.open, s.ring.cqes == [])
  {
    var t, v, open, drained := l.t, s.srv, s.open, s.ring.cqes == [];
    match l
    case WorkerResumes(_) => WakeupsResume(c.features, v, s.iod[t], t, open, drained);
    case RegisterReturns(_, ok) =>
      SlotIsFree(c, s, t);
      if ok { WakeupsPhase(v, t, Handling(true), open, drained); }
      else { WakeupsLeave(v, t, Failed(false), open, drained); }
    case HandlerCompletes(_, o) => WakeupsPhase(v, t, Unregistering(WrapHandleIo(o)), open, drained);
    case UnregisterReturns(_, _) => WakeupsLeave(v, t, Failed(true), open, drained);
  }

  lemma AppendWakeups(c: Config, s: State, l: Label)
    requires Inv(c, s) && Enabled(c, s, l) && Appends(s, l)
    ensures Wakeups(Apply(c, s, l).srv, s.open, s.ring.cqes == [])
  {
    ActiveHasRoom(c, s, l.t);
    WakeupsAppend(c.features, s.srv, s.iod[l.t], l.t, ResultOf(s, l), s.open, s.ring.cqes == []);
  }

  lemma FetchWakeups(c: Config, s: State, l: Label)
    requires Inv(c, s) && Enabled(c, s, l) && (l.FetchCallback? || l.FetchEnded?)
    ensures Wakeups(Apply(c, s, l).srv, Apply(c, s, l).open, Apply(c, s, l).ring.cqes == [])
  {
    if l.FetchCallback? {
      AnnounceSteps(c, s, l);
      WakeupsAnnounce(s.srv, FR.ReadTags(s.ring), s.open, Apply(c, s, l).ring.cqes == []);
    } else {
      WakeupsStop(s.srv);
    }
  }

  lemma DriverWakeups(c: Config, s: State, l: Label)
    requires Inv(c, s) && Enabled(c, s, l) && !OfWorker(l) && !l.FetchCallback? && !l.FetchEnded?
    ensures Wakeups(Apply(c, s, l).srv, Apply(c, s, l).open, Apply(c, s, l).ring.cqes == [])
  {
    var s' := Apply(c, s, l);
    WakeupsSame(s.srv, s'.srv, s.open, s'.open, s.ring.cqes == [], s'.ring.cqes == []);
  }

  lemma StepWakeups(c: Config, s: State, l: Label)
    requires Inv(c, s) && Enabled(c, s, l)
    ensures Wakeups(Apply(c, s, l).srv, Apply(c, s, l).open, Apply(c, s, l).ring.cqes == [])
  {
    if Appends(s, l) {
      AppendWakeups(c, s, l);
    } else if OfWorker(l) {
      WorkerWakeups(c, s, l);
    } else if l.FetchCallback? || l.FetchEnded? {
      FetchWakeups(c, s, l);
    } else {
      DriverWakeups(c, s, l);
    }
  }

  lemma BuffersOther(c: Config, s: State, l: Label, s': State)
    requires Steps(c, s, l, s') && !OfWorker(l)
    ensures Buffers(c.features, s'.owned, s'.iod, s'.table, s'.srv.workers)
  {
    var f, ws, ws' := c.features, s.srv.workers, s'.srv.workers;
    match l
    case Deliver(tags, reqs) =>
      forall t | 0 <= t < c.depth && t in tags
        ensures Deliverable(f, reqs[t]) && !Busy(ws[t]) && !ws[t].Failed?
      {
        PlaceIs(c, s, t);
      }
      BuffersDeliver(f, s.owned, s.iod, s.table, ws, tags, reqs);
    case FetchCallback => BuffersWake(f, s.owned, s.iod, s.table, ws, ws');
    case FetchEnded => BuffersWake(f, s.owned, s.iod, s.table, ws, ws');
    case CloseFetch =>
    case FlusherRuns =>
    case DriverConsumes =>
    case CommitReturns(_) =>
  }

  /** Only the worker's phase changes, and the buffer table follows it. */
  predicate TableFollows(s: State, t: Tag, s': State) {
    && t < |s.srv.workers| && t < |s'.srv.workers|
    && var p := s'.srv.workers[t];
    && s'.owned == s.owned && s'.iod == s.iod
    && s'.srv.workers == s.srv.workers[t := p]
    && s'.table == if Holding(p) then s.table + {t} else s.table - {t}
  }

  lemma ResumeTable(c: Config, s: State, l: Label, s': State)
    requires Steps(c, s, l, s') && l.WorkerResumes?
    ensures TableFollows(s, l.t, s')
  {
  }

  lemma AppendTable(c: Config, s: State, l: Label, s': State)
    requires Steps(c, s, l, s') && Appends(s, l)
    ensures TableFollows(s, l.t, s')
  {
    ActiveHasRoom(c, s, l.t);
    AppendApply(c, s, l);
    AppendFields(c.features, s.srv, s.iod[l.t], l.t, ResultOf(s, l));
    AppendedTable(c, s, l);
  }

  lemma AppendedTable(c: Config, s: State, l: Label)
    requires WellFormed(c, s) && Enabled(c, s, l) && Appends(s, l)
    requires Buffers(c.features, s.owned, s.iod, s.table, s.srv.workers)
    ensures Apply(c, s, l).table == s.table - {l.t}
  {
  }

  lemma RegisterTable(c: Config, s: State, l: Label, s': State)
    requires Steps(c, s, l, s') && l.RegisterReturns?
    ensures TableFollows(s, l.t, s')
  {
    SlotIsFree(c, s, l.t);
  }

  lemma LeaveTable(c: Config, s: State, l: Label, s': State)
    requires Steps(c, s, l, s') && (l.HandlerCompletes? || l.UnregisterReturns?) && !Appends(s, l)
    ensures TableFollows(s, l.t, s')
  {
  }

  lemma CompletionTable(c: Config, s: State, l: Label, s': State)
    requires Steps(c, s, l, s') && OfWorker(l) && !l.WorkerResumes?
    ensures TableFollows(s, l.t, s')
  {
    if Appends(s, l) {
      AppendTable(c, s, l, s');
    } else if l.RegisterReturns? {
      RegisterTable(c, s, l, s');
    } else {
      LeaveTable(c, s, l, s');
    }
  }

  lemma BuffersWorker(c: Config, s: State, l: Label, s': State)
    requires Steps(c, s, l, s') && OfWorker(l)
    ensures Buffers(c.features, s'.owned, s'.iod, s'.table, s'.srv.workers)
  {
    if l.WorkerResumes? { ResumeTable(c, s, l, s'); } else { CompletionTable(c, s, l, s'); }
    PlaceIs(c, s, l.t);
    BuffersUpdate(c.features, s.owned, s.iod, s.table, s.srv.workers, l.t, s'.srv.workers[l.t]);
  }

  /** Every step keeps the invariant. */
  lemma StepKeeps(c: Config, s: State, l: Label)
    requires Inv(c, s) && Enabled(c, s, l)
    ensures Inv(c, Apply(c, s, l))
  {
    var s' := Apply(c, s, l);
    StepSteps(c, s, l);
    MovesConserve(c.depth, c.features, ViewOf(c, s), l, ViewOf(c, s'));
    StepWakeups(c, s, l);
    if OfWorker(l) { BuffersWorker(c, s, l, s'); } else { BuffersOther(c, s, l, s'); }
  }
}
