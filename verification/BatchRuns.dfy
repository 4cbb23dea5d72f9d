/** The main results about the batch queue: what holds of every run. */
module BatchRuns {
  import opened Options
  import opened Uapi
  import opened Seqs
  import opened BatchQueue
  import opened BatchView
  import opened BatchInvariant
  import opened BatchRefinement
  import opened BatchProgress
  import TM = TagMachine
  import FR = FetchRing

  /** The steps ls lead from s to s'. */
  predicate Exec(c: Config, s: State, ls: seq<Label>, s': State)
    decreases |ls|
  {
    if ls == [] then s' == s
    else WellFormed(c, s) && Enabled(c, s, ls[0]) && Exec(c, Apply(c, s, ls[0]), ls[1..], s')
  }

  /** The events of tag t along the steps ls from s. */
  function Trace(c: Config, s: State, ls: seq<Label>, t: Tag): seq<TM.Event>
    decreases |ls|
  {
    if ls == [] || !WellFormed(c, s) || !Enabled(c, s, ls[0]) then []
    else EventsOf(c, s, ls[0], t) + Trace(c, Apply(c, s, ls[0]), ls[1..], t)
  }

  ghost predicate Reaches(c: Config, s0: State, ls: seq<Label>, s: State) {
    Initial(c, s0) && Exec(c, s0, ls, s)
  }

  lemma {:induction false} RunKeeps(c: Config, s: State, ls: seq<Label>, s': State)
    requires Inv(c, s) && Exec(c, s, ls, s')
    ensures Inv(c, s')
    decreases |ls|
  {
    if ls != [] {
      StepKeeps(c, s, ls[0]);
      RunKeeps(c, Apply(c, s, ls[0]), ls[1..], s');
    }
  }

  lemma ReachesInv(c: Config, s0: State, ls: seq<Label>, s: State)
    requires Reaches(c, s0, ls, s)
    ensures Inv(c, s)
  {
    InitialInv(c, s0);
    RunKeeps(c, s0, ls, s);
  }

  /** In every reachable state each tag is in exactly one place: with the driver, unread in the
      fetch ring, flagged, with its worker, abandoned by a failed worker, in one slot of the active
      half, or in one slot of the half in flight that the driver has not consumed. */
  lemma ExactlyOnePlace(c: Config, s0: State, ls: seq<Label>, s: State, t: Tag)
    requires Reaches(c, s0, ls, s) && t < c.depth
    ensures Inv(c, s)
    ensures Places(ViewOf(c, s), t) == 1
    ensures Distinct(FR.Unread(c.cap, s.ring))
    ensures Distinct(Tags(Active(s.srv))) && Distinct(Tags(InFlight(s.srv)))
  {
    ReachesInv(c, s0, ls, s);
  }

  /** No assertion fails, no index is out of range, no tag is committed twice, no table slot is
      registered twice, the driver never runs out of fetch buffers, and the 16-bit counter never
      wraps. */
  lemma NeverFaults(c: Config, s0: State, ls: seq<Label>, s: State)
    requires Reaches(c, s0, ls, s)
    ensures !s.srv.fault
    ensures s.srv.pending <= c.depth < U16
    ensures WellFormed(c, s) && FR.Available(s.ring)
    ensures forall t :: t in s.table ==> t < c.depth && Holding(s.srv.workers[t])
  {
    ReachesInv(c, s0, ls, s);
    FR.NeverStarved(c.cap, c.depth, s.ring);
  }

  lemma {:induction false} SomeLive(ws: seq<Phase>) returns (t: nat)
    requires CountLive(ws) > 0
    ensures t < |ws| && Live(ws[t])
    decreases |ws|
  {
    var k := |ws| - 1;
    if Live(ws[k]) {
      t := k;
    } else {
      t := SomeLive(ws[..k]);
    }
  }

  /** A sleeping flusher has nothing to commit and a worker left to wake it; a parked worker has
      nothing to handle and has not been told to stop; a woken one has been given either. */
  lemma NoLostWakeup(c: Config, s0: State, ls: seq<Label>, s: State)
    requires Reaches(c, s0, ls, s)
    ensures s.srv.flusher.Asleep? ==>
              s.srv.pending == 0 && exists t :: 0 <= t < |s.srv.workers| && Live(s.srv.workers[t])
    ensures |s.srv.flag| == |s.srv.workers| == c.depth
    ensures forall t :: 0 <= t < c.depth && s.srv.workers[t].Parked? ==> !s.srv.flag[t] && !s.srv.stopped
    ensures forall t :: 0 <= t < c.depth && s.srv.workers[t].Woken? ==> s.srv.flag[t] || s.srv.stopped
  {
    ReachesInv(c, s0, ls, s);
    if s.srv.flusher.Asleep? {
      var t := SomeLive(s.srv.workers);
    }
  }

  /** The commit goes on, and the half it reads is untouched. */
  predicate HalfKept(v: Server, v': Server) {
    && v.flusher.Committing? && v'.flusher.Committing? && v'.flusher.nr == v.flusher.nr
    && v'.index == v.index < 2 && |v.halves| == |v'.halves| == 2
    && v'.halves[1 - v.index] == v.halves[1 - v.index]
  }

  lemma AppendKeepsHalf(c: Config, s: State, l: Label)
    requires Inv(c, s) && Enabled(c, s, l) && s.srv.flusher.Committing? && Appends(s, l)
    ensures HalfKept(s.srv, Apply(c, s, l).srv)
  {
    ActiveHasRoom(c, s, l.t);
    AppendApply(c, s, l);
    AppendView(c, s, s.table, l.t, ResultOf(s, l));
  }

  lemma StepKeepsHalf(c: Config, s: State, l: Label)
    requires Inv(c, s) && Enabled(c, s, l) && s.srv.flusher.Committing? && !l.CommitReturns?
    ensures HalfKept(s.srv, Apply(c, s, l).srv)
  {
    if Appends(s, l) {
      AppendKeepsHalf(c, s, l);
    } else {
      StepFrame(c, s, l);
    }
  }

  /** While a commit is outstanding, nobody writes to the half the driver is reading, whatever the
      driver redelivers and the workers append in the meantime. */
  lemma {:induction false} DoubleBufferExclusion(c: Config, s: State, ls: seq<Label>, s': State)
    requires Inv(c, s) && Exec(c, s, ls, s')
    requires s.srv.flusher.Committing?
    requires forall i :: 0 <= i < |ls| ==> !ls[i].CommitReturns?
    ensures Inv(c, s') && HalfKept(s.srv, s'.srv)
    decreases |ls|
  {
    if ls != [] {
      StepKeeps(c, s, ls[0]);
      StepKeepsHalf(c, s, ls[0]);
      var mid := Apply(c, s, ls[0]);
      DoubleBufferExclusion(c, mid, ls[1..], s');
      HalfKeptChain(s.srv, mid.srv, s'.srv);
    }
  }

  lemma HalfKeptChain(v: Server, v1: Server, v2: Server)
    requires HalfKept(v, v1) && HalfKept(v1, v2)
    ensures HalfKept(v, v2)
  {
  }

  lemma {:induction false} RunFollows(c: Config, s: State, ls: seq<Label>, s': State, t: Tag, a: TM.TagState)
    requires Inv(c, s) && Exec(c, s, ls, s') && t < c.depth && Represents(ViewOf(c, s), t, a)
    ensures Inv(c, s')
    ensures TM.Run(c.features, a, Trace(c, s, ls, t)).Some?
    ensures Represents(ViewOf(c, s'), t, TM.Run(c.features, a, Trace(c, s, ls, t)).value)
    decreases |ls|
  {
    if ls != [] {
      StepFollows(c, s, ls[0], t, a);
      var es, mid := EventsOf(c, s, ls[0], t), Apply(c, s, ls[0]);
      var a1 := TM.Run(c.features, a, es).value;
      RunFollows(c, mid, ls[1..], s', t, a1);
      TM.RunConcat(c.features, a, es, Trace(c, mid, ls[1..], t));
    }
  }

  /** Refinement: projected to one tag, a run of the batch queue is a run of the tag's machine.
      Hence its events are complete services followed by one in progress: what is committed is the
      result of the delivery, once. */
  lemma BatchRefinesTag(c: Config, s0: State, ls: seq<Label>, s: State, t: Tag)
      returns (a: TM.TagState, served: seq<(Request, IoResult)>)
    requires Reaches(c, s0, ls, s) && t < c.depth
    ensures Inv(c, s) && Represents(ViewOf(c, s), t, a)
    ensures TM.Run(c.features, TM.Idle, Trace(c, s0, ls, t)) == Some(a)
    ensures Trace(c, s0, ls, t) == TM.Cycles(c.features, served) + TM.InProgress(c.features, a)
  {
    InitialInv(c, s0);
    RunFollows(c, s0, ls, s, t, TM.Idle);
    a := TM.Run(c.features, TM.Idle, Trace(c, s0, ls, t)).value;
    TM.TraceGrammar(c.features, Trace(c, s0, ls, t), a);
    served :| Trace(c, s0, ls, t) == TM.Cycles(c.features, served) + TM.InProgress(c.features, a);
  }

  /** Between two deliveries the queue takes a bounded number of steps, however they interleave. */
  lemma {:induction false} InternalRunsEnd(c: Config, s: State, ls: seq<Label>, s': State)
    requires Inv(c, s) && Exec(c, s, ls, s')
    requires forall i :: 0 <= i < |ls| ==> !ls[i].Deliver?
    ensures Inv(c, s') && |ls| + Measure(c, s') <= Measure(c, s)
    decreases |ls|
  {
    if ls != [] {
      MeasureDecreases(c, s, ls[0]);
      InternalRunsEnd(c, Apply(c, s, ls[0]), ls[1..], s');
    }
  }

  /** Once the driver has ended the fetch every run is finite, whatever it consists of. */
  lemma {:induction false} ClosedRunsEnd(c: Config, s: State, ls: seq<Label>, s': State)
    requires Inv(c, s) && Exec(c, s, ls, s') && !s.open
    ensures Inv(c, s') && !s'.open
    ensures |ls| + Measure(c, s') <= Measure(c, s)
    decreases |ls|
  {
    if ls != [] {
      MeasureDecreases(c, s, ls[0]);
      ClosedRunsEnd(c, Apply(c, s, ls[0]), ls[1..], s');
    }
  }

  /** From p to p' a worker fails just if its registration failed, or its unregistration. */
  predicate Fails(p: Phase, p': Phase, registering: bool, unregistering: bool) {
    && (p' == Failed(false) <==> p == Failed(false) || registering)
    && (p' == Failed(true) <==> p == Failed(true) || unregistering)
  }

  /** One step: a worker fails only by a failed driver call of its own, and keeps its buffer registered only
      if that was the unregistration; the stop flag is set only by the end of the fetch. */
  predicate StepEnds(v: Server, v': Server, l: Label, t: Tag) {
    && t < |v.workers| == |v'.workers|
    && Fails(v.workers[t], v'.workers[t], l == RegisterReturns(t, false), l == UnregisterReturns(t, false))
    && (v'.stopped <==> v.stopped || l == FetchEnded)
  }

  lemma AppendEnds(c: Config, s: State, l: Label, t: Tag)
    requires Inv(c, s) && Enabled(c, s, l) && t < c.depth && Appends(s, l)
    ensures StepEnds(s.srv, Apply(c, s, l).srv, l, t)
  {
    ActiveHasRoom(c, s, l.t);
    AppendApply(c, s, l);
    AppendFields(c.features, s.srv, s.iod[l.t], l.t, ResultOf(s, l));
    AppendLeavesStop(c.features, s.srv, s.iod[l.t], l.t, ResultOf(s, l));
  }

  lemma AppendLeavesStop(f: Features, v: Server, q: Request, t: Tag, r: IoResult)
    requires t < |v.workers| && v.index < |v.halves|
    ensures Append(f, v, q, t, r).stopped == v.stopped
  {
  }

  lemma ResumeEnds(c: Config, s: State, l: Label, t: Tag)
    requires Inv(c, s) && Enabled(c, s, l) && t < c.depth && l.WorkerResumes?
    ensures StepEnds(s.srv, Apply(c, s, l).srv, l, t)
  {
  }

  lemma RegisterEnds(c: Config, s: State, l: Label, t: Tag)
    requires Inv(c, s) && Enabled(c, s, l) && t < c.depth && l.RegisterReturns?
    ensures StepEnds(s.srv, Apply(c, s, l).srv, l, t)
  {
    SlotIsFree(c, s, l.t);
  }

  lemma CompletionEnds(c: Config, s: State, l: Label, t: Tag)
    requires Inv(c, s) && Enabled(c, s, l) && t < c.depth
    requires (l.HandlerCompletes? || l.UnregisterReturns?) && !Appends(s, l)
    ensures StepEnds(s.srv, Apply(c, s, l).srv, l, t)
  {
  }

  lemma OtherEnds(c: Config, s: State, l: Label, t: Tag)
    requires Inv(c, s) && Enabled(c, s, l) && t < c.depth && !OfWorker(l)
    ensures StepEnds(s.srv, Apply(c, s, l).srv, l, t)
  {
  }

  lemma AnyStepEnds(c: Config, s: State, l: Label, t: Tag)
    requires Inv(c, s) && Enabled(c, s, l) && t < c.depth
    ensures StepEnds(s.srv, Apply(c, s, l).srv, l, t)
  {
    if Appends(s, l) { AppendEnds(c, s, l, t); }
    else if l.WorkerResumes? { ResumeEnds(c, s, l, t); }
    else if l.RegisterReturns? { RegisterEnds(c, s, l, t); }
    else if OfWorker(l) { CompletionEnds(c, s, l, t); }
    else { OtherEnds(c, s, l, t); }
  }

  /** The same over a run. */
  predicate RunEnded(v: Server, v': Server, ls: seq<Label>, t: Tag) {
    && t < |v.workers| == |v'.workers|
    && Fails(v.workers[t], v'.workers[t], RegisterReturns(t, false) in ls, UnregisterReturns(t, false) in ls)
    && (v'.stopped <==> v.stopped || FetchEnded in ls)
  }

  lemma RunEndedCons(v: Server, v1: Server, v2: Server, l: Label, ls: seq<Label>, t: Tag)
    requires StepEnds(v, v1, l, t) && RunEnded(v1, v2, ls, t)
    ensures RunEnded(v, v2, [l] + ls, t)
  {
    assert forall x :: x in [l] + ls <==> x == l || x in ls;
  }

  lemma {:induction false} RunEnds(c: Config, s: State, ls: seq<Label>, s': State, t: Tag)
    requires Inv(c, s) && Exec(c, s, ls, s') && t < c.depth
    ensures RunEnded(s.srv, s'.srv, ls, t)
    decreases |ls|
  {
    if ls != [] {
      var mid := Apply(c, s, ls[0]);
      StepKeeps(c, s, ls[0]);
      AnyStepEnds(c, s, ls[0], t);
      RunEnds(c, mid, ls[1..], s', t);
      RunEndedCons(s.srv, mid.srv, s'.srv, ls[0], ls[1..], t);
      assert ls == [ls[0]] + ls[1..];
    }
  }

  /** Along every run a worker has failed if and only if its registration or unregistration failed, holding
      its buffer in the second case; and the stop flag is set if and only if the fetch has ended. */
  lemma WorkerFailsIff(c: Config, s0: State, ls: seq<Label>, s: State, t: Tag)
    requires Reaches(c, s0, ls, s) && t < c.depth
    ensures |s.srv.workers| == c.depth
    ensures s.srv.workers[t] == Failed(false) <==> RegisterReturns(t, false) in ls
    ensures s.srv.workers[t] == Failed(true) <==> UnregisterReturns(t, false) in ls
    ensures s.srv.stopped <==> FetchEnded in ls
  {
    InitialInv(c, s0);
    RunEnds(c, s0, ls, s, t);
  }

  /** After the stop a step of a worker that waits or is at the head of its loop ends it, and no step takes a
      delivery. */
  lemma StoppedStep(c: Config, s: State, l: Label, t: Tag)
    requires Inv(c, s) && Enabled(c, s, l) && s.srv.stopped && t < c.depth
    ensures var v, v' := s.srv, Apply(c, s, l).srv;
            && v'.stopped && t < |v'.workers| && t < |v'.flag|
            && (v.flag[t] ==> v'.flag[t])
            && (v.workers[t].Exited? || l == WorkerResumes(t) ==> v'.workers[t].Exited?)
  {
    if Appends(s, l) {
      AppendEnds(c, s, l, t);
      ActiveHasRoom(c, s, l.t);
      AppendApply(c, s, l);
      AppendFields(c.features, s.srv, s.iod[l.t], l.t, ResultOf(s, l));
    } else if OfWorker(l) && !l.WorkerResumes? {
      StoppedCall(c, s, l, t);
    }
  }

  lemma StoppedCall(c: Config, s: State, l: Label, t: Tag)
    requires Inv(c, s) && Enabled(c, s, l) && s.srv.stopped && t < c.depth
    requires OfWorker(l) && !l.WorkerResumes? && !Appends(s, l)
    ensures var v, v' := s.srv, Apply(c, s, l).srv;
            v'.stopped && v'.flag == v.flag && |v'.workers| == |v.workers|
            && (v.workers[t].Exited? ==> v'.workers[t].Exited?)
  {
    if l.RegisterReturns? { SlotIsFree(c, s, l.t); }
  }

  /** Once the stop flag is set no delivery is taken any more, and every worker that resumes exits. */
  lemma {:induction false} StopTakesNothing(c: Config, s: State, ls: seq<Label>, s': State, t: Tag)
    requires Inv(c, s) && Exec(c, s, ls, s') && s.srv.stopped && t < c.depth
    ensures |s'.srv.flag| == |s'.srv.workers| == c.depth
    ensures s.srv.flag[t] ==> s'.srv.flag[t]
    ensures s.srv.workers[t].Exited? || WorkerResumes(t) in ls ==> s'.srv.workers[t].Exited?
    decreases |ls|
  {
    if ls != [] {
      StepKeeps(c, s, ls[0]);
      StoppedStep(c, s, ls[0], t);
      StopTakesNothing(c, Apply(c, s, ls[0]), ls[1..], s', t);
      assert ls == [ls[0]] + ls[1..];
    }
  }

  /** Every delivery is committed: when the queue has nothing left to do, the flusher and the tag's
      own worker have not failed and the fetch has not ended, the tag's events are complete services
      and nothing else, whatever happened to other tags. */
  lemma EveryDeliveryIsCommitted(c: Config, s0: State, ls: seq<Label>, s: State, t: Tag)
      returns (served: seq<(Request, IoResult)>)
    requires Reaches(c, s0, ls, s) && t < c.depth
    requires WellFormed(c, s) && Quiescent(c, s) && !s.srv.stopped
    requires !s.srv.flusher.Broken? && !s.srv.workers[t].Failed?
    ensures Trace(c, s0, ls, t) == TM.Cycles(c.features, served)
  {
    var a, done := BatchRefinesTag(c, s0, ls, s, t);
    QuiescentTag(c, s, t);
    PlaceIs(c, s, t);
    served := done;
    assert a == TM.Idle;
  }

  /** A flusher that has finished without error, in whatever state the rest of the queue is, has left
      nothing behind: every worker has exited or failed, and every result that was stored has been
      committed. What a tag can still miss is a delivery its worker never took, or one whose driver
      call failed before the result was stored. */
  lemma FinishedCommitted(c: Config, s0: State, ls: seq<Label>, s: State, t: Tag)
      returns (a: TM.TagState, served: seq<(Request, IoResult)>)
    requires Reaches(c, s0, ls, s) && t < c.depth && s.srv.flusher.Finished?
    ensures Inv(c, s) && s.srv.pending == 0 && InFlight(s.srv) == []
    ensures forall u :: 0 <= u < c.depth ==> !Live(s.srv.workers[u])
    ensures Represents(ViewOf(c, s), t, a) && !a.Ready?
    ensures Trace(c, s0, ls, t) == TM.Cycles(c.features, served) + TM.InProgress(c.features, a)
    ensures !a.Idle? && !a.Delivered? ==> s.srv.workers[t].Failed?
  {
    a, served := BatchRefinesTag(c, s0, ls, s, t);
    forall u | 0 <= u < c.depth ensures !Live(s.srv.workers[u]) {
      if Live(s.srv.workers[u]) { CountLiveZero(s.srv.workers, u); }
    }
    FinishedTag(c, s, t, a);
  }

  lemma FinishedTag(c: Config, s: State, t: Tag, a: TM.TagState)
    requires Inv(c, s) && t < c.depth && s.srv.flusher.Finished? && Represents(ViewOf(c, s), t, a)
    requires !Live(s.srv.workers[t])
    ensures InFlight(s.srv) == [] && !a.Ready?
    ensures !a.Idle? && !a.Delivered? ==> s.srv.workers[t].Failed?
  {
    PlaceIs(c, s, t);
  }

  /** After the fetch has ended, a queue with nothing left to do and no failed commit has only
      finished tasks and nothing pending. A tag whose worker did not fail has had every result
      committed; all it can miss is a delivery no worker had taken when the stop arrived. A tag whose
      worker failed misses that one delivery. */
  lemma StoppedQueueIsDrained(c: Config, s0: State, ls: seq<Label>, s: State, t: Tag)
      returns (a: TM.TagState, served: seq<(Request, IoResult)>)
    requires Reaches(c, s0, ls, s) && t < c.depth
    requires WellFormed(c, s) && Quiescent(c, s) && !s.srv.flusher.Broken? && !s.open
    ensures s.srv.flusher.Finished? && s.srv.pending == 0
    ensures forall u :: 0 <= u < c.depth ==> s.srv.workers[u].Exited? || s.srv.workers[u].Failed?
    ensures Trace(c, s0, ls, t) == TM.Cycles(c.features, served) + TM.InProgress(c.features, a) && !a.Ready?
    ensures !s.srv.workers[t].Failed? ==> a == if s.srv.flag[t] then TM.Delivered(s.iod[t]) else TM.Idle
  {
    ReachesInv(c, s0, ls, s);
    QuiescentStop(c, s);
    a, served := FinishedCommitted(c, s0, ls, s, t);
    if !s.srv.workers[t].Failed? {
      DroppedAtStop(c, s, t, a);
    }
  }

  lemma DroppedAtStop(c: Config, s: State, t: Tag, a: TM.TagState)
    requires Inv(c, s) && Quiescent(c, s) && t < c.depth && s.srv.flusher.Finished?
    requires Represents(ViewOf(c, s), t, a) && !s.srv.workers[t].Failed?
    ensures a == if s.srv.flag[t] then TM.Delivered(s.iod[t]) else TM.Idle
  {
    QuiescentTag(c, s, t);
    PlaceIs(c, s, t);
    if s.srv.flag[t] {
      Unstored(c.depth, ViewOf(c, s), t);
    }
  }
}
