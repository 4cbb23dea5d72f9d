/** A measure that every step except a delivery decreases, and what a state looks like when no
    further step is possible. Together: what is delivered gets committed, and a stopped queue
    drains. */
module BatchProgress {
  import opened Uapi
  import opened Seqs
  import opened BatchQueue
  import opened BatchView
  import opened BatchInvariant
  import FR = FetchRing

  function PhaseRank(p: Phase): nat {
    match p
    case Exited => 0
    case Failed(_) => 0
    case Parked => 1
    case AtTop => 2
    case Woken => 2
    case Unregistering(_) => 7
    case Handling(_) => 8
    case Registering => 9
  }

  /** How much work tag t can still cause. */
  function Rank(w: View, t: Tag): nat
    requires t < |w.flag| && t < |w.workers|
  {
    PhaseRank(w.workers[t]) + 8 * Count(w.flag[t]) + 10 * Count(t in w.unread)
    + 3 * Count(t in Tags(w.active)) + Count(t in Tags(w.inFlight))
  }

  function Ranks(w: View, depth: nat): seq<nat>
    requires Sized(depth, w)
  {
    seq(depth, t requires 0 <= t < depth => Rank(w, t))
  }

  function FlusherRank(p: Flusher): nat {
    match p
    case Committing(_, _) => 2
    case Running => 1
    case _ => 0
  }

  function Measure(c: Config, s: State): nat
    requires WellFormed(c, s) && s.srv.pending <= c.depth
  {
    Total(Ranks(ViewOf(c, s), c.depth)) + FlusherRank(s.srv.flusher)
    + (if s.srv.stopped then 0 else c.depth + 1) + (if s.open then 1 else 0)
  }

  // ---------------------------------------------------------------- sums

  /** No rank rises, and the rank of t drops by d. */
  predicate Drops(depth: nat, w: View, w': View, t: Tag, d: nat)
    requires Sized(depth, w) && Sized(depth, w') && t < depth
  {
    && (forall u :: 0 <= u < depth ==> Rank(w', u) <= Rank(w, u))
    && Rank(w', t) + d <= Rank(w, t)
  }

  lemma RanksDrop(depth: nat, w: View, w': View, t: Tag, d: nat)
    requires Sized(depth, w) && Sized(depth, w') && t < depth
    requires Drops(depth, w, w', t, d)
    ensures Total(Ranks(w', depth)) + d <= Total(Ranks(w, depth))
  {
    TotalDrops(Ranks(w, depth), Ranks(w', depth), t, d);
  }

  // ---------------------------------------------------------------- moves and ranks

  lemma AnnounceDrops(depth: nat, f: Features, w: View, w': View)
    requires Conserved(depth, w) && Moves(f, w, FetchCallback, w')
    ensures w.unread[0] < depth && Drops(depth, w, w', w.unread[0], 1)
  {
    var n := |w.unread| - |w'.unread|;
    var tags, rest := w.unread[..n], w.unread[n..];
    assert w.unread == tags + rest;
    DistinctSplit(tags, rest);
    forall u | 0 <= u < depth
      ensures Rank(w', u) <= Rank(w, u)
      ensures u in tags ==> Rank(w', u) + 1 <= Rank(w, u)
    {
      assert Places(w, u) == 1;
      assert u in w.unread <==> u in tags || u in rest;
    }
    assert tags[0] in tags && w.unread[0] == tags[0];
  }

  /** What a worker's own move does to its flag and phase. */
  lemma WorkerMoves(depth: nat, f: Features, w: View, l: Label, w': View)
    requires Conserved(depth, w) && Moves(f, w, l, w') && OfWorker(l) && |w'.active| == |w.active|
    ensures Sized(depth, w') && l.t < depth && w' == WorkerMoved(w, l.t, w'.flag[l.t], w'.workers[l.t])
    ensures PhaseRank(w'.workers[l.t]) + 8 * Count(w'.flag[l.t])
            + (if w'.workers[l.t].Exited? || w'.workers[l.t].Failed? then 2 else 1)
            <= PhaseRank(w.workers[l.t]) + 8 * Count(w.flag[l.t])
  {
  }

  lemma WorkerDrops(depth: nat, f: Features, w: View, l: Label, w': View)
    requires Conserved(depth, w) && Moves(f, w, l, w') && OfWorker(l) && |w'.active| == |w.active|
    ensures Sized(depth, w')
    ensures Drops(depth, w, w', l.t, if w'.workers[l.t].Exited? || w'.workers[l.t].Failed? then 2 else 1)
  {
    WorkerMoves(depth, f, w, l, w');
    MovedRank(w, l.t, w'.flag[l.t], w'.workers[l.t]);
  }

  /** A worker's move affects its own rank only. */
  lemma MovedRank(w: View, t: Tag, flag: bool, p: Phase)
    requires Sized(|w.owned|, w) && t < |w.owned|
    ensures var w' := WorkerMoved(w, t, flag, p);
            && Sized(|w.owned|, w')
            && (forall u :: 0 <= u < |w.owned| && u != t ==> Rank(w', u) == Rank(w, u))
            && Rank(w', t) + PhaseRank(w.workers[t]) + 8 * Count(w.flag[t])
               == Rank(w, t) + PhaseRank(p) + 8 * Count(flag)
  {
  }

  lemma AppendDrops(depth: nat, f: Features, w: View, l: Label, w': View)
    requires Conserved(depth, w) && Moves(f, w, l, w') && OfWorker(l) && |w'.active| > |w.active|
    ensures Sized(depth, w')
    ensures Drops(depth, w, w', l.t, 2)
  {
    assert Places(w, l.t) == 1;
    TagsAppend(w.active, w'.active[|w.active|]);
    forall u | 0 <= u < depth ensures Rank(w', u) <= Rank(w, u) {
      assert u in Tags(w'.active) <==> u in Tags(w.active) || u == l.t;
    }
  }

  lemma SubmitDrops(depth: nat, w: View)
    requires Conserved(depth, w) && w.inFlight == [] && w.active != []
    ensures w.active[0].tag < depth && Drops(depth, w, Submitted(w), w.active[0].tag, 2)
  {
    var ts := Tags(w.active);
    assert ts[0] == w.active[0].tag && ts[0] in ts;
  }

  lemma ConsumeDrops(depth: nat, w: View)
    requires Conserved(depth, w) && w.inFlight != []
    ensures w.inFlight[0].tag < depth && Drops(depth, w, Consumed(w), w.inFlight[0].tag, 1)
  {
    ConsumedConserves(depth, w);
    var w', t, ts, rest := Consumed(w), w.inFlight[0].tag, Tags(w.inFlight), Tags(w.inFlight[1..]);
    assert ts == [t] + rest;
    DistinctSplit([t], rest);
    assert [t][0] !in rest;
    forall u | 0 <= u < depth ensures u in ts <==> u == t || u in rest {
    }
  }

  // ---------------------------------------------------------------- the measure

  predicate Internal(l: Label) {
    !l.Deliver? && !l.CloseFetch?
  }

  /** Work done on the flusher's behalf: at most a wake-up. */
  predicate WakesAtMost(v: Server, v': Server, n: nat) {
    v'.stopped == v.stopped && FlusherRank(v'.flusher) <= FlusherRank(v.flusher) + n
  }

  lemma ResumeWakes(f: Features, v: Server, q: Request, t: Tag)
    requires t < |v.workers| && t < |v.flag|
    ensures var v' := Resume(f, v, q, t);
            |v'.workers| == |v.workers| && WakesAtMost(v, v', Count(!Live(v'.workers[t])))
  {
  }

  lemma AppendWakes(f: Features, v: Server, q: Request, t: Tag, r: IoResult)
    requires t < |v.workers| && v.index < |v.halves|
    ensures WakesAtMost(v, Append(f, v, q, t, r), 1)
  {
  }

  /** A worker wakes the flusher only when it stores a result or leaves. */
  lemma WorkerWakesFlusher(c: Config, s: State, l: Label)
    requires WellFormed(c, s) && Enabled(c, s, l) && OfWorker(l)
    ensures Apply(c, s, l).open == s.open && |Apply(c, s, l).srv.workers| == c.depth
    ensures WakesAtMost(s.srv, Apply(c, s, l).srv, Count(Appends(s, l) || !Live(Apply(c, s, l).srv.workers[l.t])))
  {
    var t := l.t;
    match l
    case WorkerResumes(_) => ResumeWakes(c.features, s.srv, s.iod[t], t);
    case RegisterReturns(_, _) =>
    case HandlerCompletes(_, o) => AppendWakes(c.features, s.srv, s.iod[t], t, WrapHandleIo(o));
    case UnregisterReturns(_, _) => AppendWakes(c.features, s.srv, s.iod[t], t, s.srv.workers[t].r);
  }

  lemma WorkerDecreases(c: Config, s: State, l: Label, s': State)
    requires Steps(c, s, l, s') && OfWorker(l)
    ensures Measure(c, s') < Measure(c, s)
  {
    WorkerWakesFlusher(c, s, l);
    WorkerRanks(c.depth, c.features, ViewOf(c, s), l, ViewOf(c, s'));
  }

  lemma WorkerRanks(depth: nat, f: Features, w: View, l: Label, w': View)
    requires Conserved(depth, w) && Moves(f, w, l, w') && OfWorker(l)
    ensures Sized(depth, w')
    ensures Total(Ranks(w', depth)) + 1 + Count(|w'.active| > |w.active| || !Live(w'.workers[l.t]))
            <= Total(Ranks(w, depth))
  {
    if |w'.active| > |w.active| {
      AppendDrops(depth, f, w, l, w');
      RanksDrop(depth, w, w', l.t, 2);
    } else {
      WorkerDrops(depth, f, w, l, w');
      RanksDrop(depth, w, w', l.t, if w'.workers[l.t].Exited? || w'.workers[l.t].Failed? then 2 else 1);
    }
  }

  lemma FetchDecreases(c: Config, s: State, l: Label, s': State)
    requires Steps(c, s, l, s') && (l.FetchCallback? || l.FetchEnded?)
    ensures Measure(c, s') < Measure(c, s)
  {
    if l.FetchCallback? {
      AnnounceDecreases(c, s, l, s');
    } else {
      RousedTotal(c.depth, ViewOf(c, s));
    }
  }

  lemma AnnounceDecreases(c: Config, s: State, l: Label, s': State)
    requires Steps(c, s, l, s') && l.FetchCallback?
    ensures Measure(c, s') < Measure(c, s)
  {
    AnnouncedTotal(c.depth, c.features, ViewOf(c, s), ViewOf(c, s'));
  }

  lemma AnnouncedTotal(depth: nat, f: Features, w: View, w': View)
    requires Conserved(depth, w) && Sized(depth, w') && Moves(f, w, FetchCallback, w')
    ensures Total(Ranks(w', depth)) < Total(Ranks(w, depth))
  {
    AnnounceDrops(depth, f, w, w');
    RanksDrop(depth, w, w', w.unread[0], 1);
  }

  lemma RousedTotal(depth: nat, w: View)
    requires Sized(depth, w)
    ensures Sized(depth, Roused(w)) && Total(Ranks(Roused(w), depth)) <= Total(Ranks(w, depth)) + depth
  {
    TotalRises(Ranks(w, depth), Ranks(Roused(w), depth));
  }

  lemma SubmitDecreases(c: Config, s: State, l: Label, s': State)
    requires Steps(c, s, l, s') && l.FlusherRuns? && s.srv.pending > 0
    ensures Measure(c, s') < Measure(c, s)
  {
    var w := ViewOf(c, s);
    FlusherSteps(c, s, l);
    SubmitDrops(c.depth, w);
    RanksDrop(c.depth, w, Submitted(w), w.active[0].tag, 2);
  }

  lemma ConsumedTotal(depth: nat, w: View)
    requires Conserved(depth, w) && w.inFlight != []
    ensures w.inFlight[0].tag < depth && Sized(depth, Consumed(w))
    ensures Total(Ranks(Consumed(w), depth)) < Total(Ranks(w, depth))
  {
    ConsumeDrops(depth, w);
    RanksDrop(depth, w, Consumed(w), w.inFlight[0].tag, 1);
  }

  lemma ConsumeDecreases(c: Config, s: State, l: Label, s': State)
    requires Steps(c, s, l, s') && l.DriverConsumes?
    ensures Measure(c, s') < Measure(c, s)
  {
    ConsumedTotal(c.depth, ViewOf(c, s));
    ConsumeApply(c, s);
  }

  lemma FlusherDecreases(c: Config, s: State, l: Label, s': State)
    requires Steps(c, s, l, s') && (l.FlusherRuns? || l.DriverConsumes? || l.CommitReturns?)
    ensures Measure(c, s') < Measure(c, s)
  {
    if l.FlusherRuns? && s.srv.pending > 0 {
      SubmitDecreases(c, s, l, s');
    } else if l.DriverConsumes? {
      ConsumeDecreases(c, s, l, s');
    } else {
      assert ViewOf(c, s') == ViewOf(c, s);
    }
  }

  /** Every step that is not a delivery decreases the measure. */
  lemma MeasureDecreases(c: Config, s: State, l: Label)
    requires Inv(c, s) && Enabled(c, s, l) && !l.Deliver?
    ensures Inv(c, Apply(c, s, l))
    ensures Measure(c, Apply(c, s, l)) < Measure(c, s)
  {
    StepSteps(c, s, l);
    StepKeeps(c, s, l);
    var s' := Apply(c, s, l);
    if OfWorker(l) {
      WorkerDecreases(c, s, l, s');
    } else if l.FetchCallback? || l.FetchEnded? {
      FetchDecreases(c, s, l, s');
    } else if l.CloseFetch? {
      assert ViewOf(c, s') == ViewOf(c, s);
    } else {
      FlusherDecreases(c, s, l, s');
    }
  }

  // ---------------------------------------------------------------- quiescence

  /** Nothing is left to do without the driver delivering or ending the fetch. */
  ghost predicate Quiescent(c: Config, s: State)
    requires WellFormed(c, s)
  {
    forall l :: Internal(l) ==> !Enabled(c, s, l)
  }

  lemma QuiescentWorker(c: Config, s: State, t: Tag)
    requires Inv(c, s) && Quiescent(c, s) && t < c.depth
    ensures s.srv.workers[t].Parked? || s.srv.workers[t].Exited? || s.srv.workers[t].Failed?
    ensures s.srv.stopped ==> !Live(s.srv.workers[t])
    ensures t !in FR.Unread(c.cap, s.ring)
    ensures s.srv.flag[t] ==> s.srv.stopped || s.srv.workers[t].Failed?
  {
    assert !Enabled(c, s, FetchCallback);
    FR.DrainedReadsAll(c.cap, s.ring);
    assert !Enabled(c, s, WorkerResumes(t));
    assert !Enabled(c, s, RegisterReturns(t, true));
    assert !Enabled(c, s, HandlerCompletes(t, Value(0)));
    assert !Enabled(c, s, UnregisterReturns(t, true));
  }

  lemma QuiescentFlusher(c: Config, s: State)
    requires Inv(c, s) && Quiescent(c, s)
    ensures s.srv.flusher.Asleep? || s.srv.flusher.Finished? || s.srv.flusher.Broken?
    ensures !s.srv.flusher.Broken? ==> s.srv.pending == 0 && InFlight(s.srv) == []
  {
    assert !Enabled(c, s, FlusherRuns);
    if s.srv.flusher.Committing? {
      assert Enabled(c, s, CommitReturns(Bytes(s.srv.flusher.consumed * c.elemSize)));
    }
  }

  /** When nothing is left to do, a tag is back with the driver, or a driver call for it failed, or
      its delivery was dropped at a stop. */
  lemma QuiescentTag(c: Config, s: State, t: Tag)
    requires Inv(c, s) && Quiescent(c, s) && t < c.depth
    ensures s.owned[t]
            || s.srv.workers[t].Failed?
            || (s.srv.stopped && s.srv.flag[t])
            || (s.srv.flusher.Broken? && (t in Tags(Active(s.srv)) || t in Tags(InFlight(s.srv))))
  {
    PlaceIs(c, s, t);
    QuiescentWorker(c, s, t);
    QuiescentFlusher(c, s);
  }

  lemma {:induction false} CountLiveNone(ws: seq<Phase>)
    requires forall t :: 0 <= t < |ws| ==> !Live(ws[t])
    ensures CountLive(ws) == 0
    decreases |ws|
  {
    if ws != [] {
      CountLiveNone(ws[..|ws| - 1]);
    }
  }

  /** Once the fetch has ended, nothing is left to do only when `run` can return: every worker and
      the flusher have exited, and a flusher that exited without error left no result behind. */
  lemma QuiescentStop(c: Config, s: State)
    requires Inv(c, s) && Quiescent(c, s) && !s.open
    ensures s.srv.stopped
    ensures forall t :: 0 <= t < c.depth ==> !Live(s.srv.workers[t])
    ensures s.srv.flusher.Finished? || s.srv.flusher.Broken?
    ensures s.srv.flusher.Finished? ==> s.srv.pending == 0 && InFlight(s.srv) == []
  {
    assert !Enabled(c, s, FetchCallback);
    assert !Enabled(c, s, FetchEnded);
    forall t | 0 <= t < c.depth ensures !Live(s.srv.workers[t]) {
      QuiescentWorker(c, s, t);
    }
    CountLiveNone(s.srv.workers);
    QuiescentFlusher(c, s);
  }
}
