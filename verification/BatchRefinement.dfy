/** Tag by tag, the batch queue behaves like the machine of TagMachine. */
module BatchRefinement {
  import opened Options
  import opened Uapi
  import opened Seqs
  import opened BatchQueue
  import opened BatchView
  import opened BatchInvariant
  import TM = TagMachine

  predicate Stored(es: seq<Elem>, t: Tag, q: Request, r: IoResult) {
    exists i :: 0 <= i < |es| && Carries(es[i], t, q, r)
  }

  /** The view represents state a of tag t. */
  predicate Represents(w: View, t: Tag, a: TM.TagState)
    requires Sized(|w.owned|, w) && t < |w.owned|
  {
    var p := w.workers[t];
    if a.Idle? then w.owned[t]
    else
      && !w.owned[t] && w.iod[t] == a.q
      && match a
         case Delivered(q) =>
           t in w.unread || w.flag[t] || p.Registering? || p == Handling(false) || p == Failed(false)
         case Registered(q) => p == Handling(true)
         case Handled(q, r) => p == Unregistering(r) || p == Failed(true)
         case Ready(q, r) => Stored(w.active, t, q, r) || Stored(w.inFlight, t, q, r)
  }

  /** The event of tag t in a step, read off the view. */
  function ViewEvents(w: View, l: Label, t: Tag): seq<TM.Event>
    requires Sized(|w.owned|, w) && t < |w.owned|
    requires l.Deliver? ==> |l.reqs| == |w.owned|
    requires l.DriverConsumes? ==> w.inFlight != []
  {
    match l
    case Deliver(tags, reqs) => if t in tags then [TM.Deliver(reqs[t])] else []
    case RegisterReturns(u, ok) => if u == t && ok then [TM.Register] else []
    case HandlerCompletes(u, o) => if u == t then [TM.Handle(WrapHandleIo(o))] else []
    case UnregisterReturns(u, ok) => if u == t && ok then [TM.Unregister] else []
    case DriverConsumes =>
      var e := w.inFlight[0];
      if e.tag != t then []
      else [TM.Commit(TM.Committed(e.res, if IsZoneAppend(w.iod[t]) then Some(e.lba) else None))]
    case _ => []
  }

  /** What a move does to the abstract state of tag t. */
  predicate Follows(f: Features, w: View, l: Label, w': View, t: Tag, a: TM.TagState)
    requires Sized(|w.owned|, w) && Sized(|w.owned|, w') && t < |w.owned|
    requires l.Deliver? ==> |l.reqs| == |w.owned|
    requires l.DriverConsumes? ==> w.inFlight != []
  {
    var a' := TM.Run(f, a, ViewEvents(w, l, t));
    a'.Some? && Represents(w', t, a'.value)
  }

  lemma RunOne(f: Features, a: TM.TagState, e: TM.Event)
    ensures TM.Run(f, a, [e]) == TM.Next(f, a, e)
  {
    if TM.Next(f, a, e).Some? {
      assert TM.Run(f, TM.Next(f, a, e).value, [e][1..]) == TM.Next(f, a, e);
    }
  }

  /** Moves that change nothing about tag t that matters here. */
  lemma Frame(w: View, w': View, t: Tag, a: TM.TagState)
    requires Sized(|w.owned|, w) && Sized(|w.owned|, w') && t < |w.owned|
    requires Represents(w, t, a)
    requires w'.owned[t] == w.owned[t] && w'.iod[t] == w.iod[t]
    requires t in w.unread || w.flag[t] ==> t in w'.unread || w'.flag[t]
    requires w'.workers[t] == w.workers[t] || (!Busy(w.workers[t]) && !w.workers[t].Failed?)
    requires a.Ready? && (Stored(w.active, t, a.q, a.r) || Stored(w.inFlight, t, a.q, a.r)) ==>
               Stored(w'.active, t, a.q, a.r) || Stored(w'.inFlight, t, a.q, a.r)
    ensures Represents(w', t, a)
  {
  }

  lemma StoredTag(es: seq<Elem>, t: Tag)
    requires t !in Tags(es)
    ensures forall q, r :: !Stored(es, t, q, r)
  {
    forall i | 0 <= i < |es| ensures es[i].tag != t {
      assert Tags(es)[i] == es[i].tag;
    }
  }

  lemma StoredAppend(es: seq<Elem>, e: Elem, t: Tag, q: Request, r: IoResult)
    ensures Stored(es, t, q, r) || Carries(e, t, q, r) ==> Stored(es + [e], t, q, r)
  {
    var es' := es + [e];
    if Stored(es, t, q, r) {
      var i :| 0 <= i < |es| && Carries(es[i], t, q, r);
      assert es'[i] == es[i];
    }
    assert es'[|es|] == e;
  }

  /** A tag with its worker has no stored result. */
  lemma Unstored(depth: nat, w: View, t: Tag)
    requires Conserved(depth, w) && t < depth
    requires w.owned[t] || t in w.unread || w.flag[t] || Busy(w.workers[t]) || w.workers[t].Failed?
    ensures forall q, r :: !Stored(w.active, t, q, r) && !Stored(w.inFlight, t, q, r)
  {
    assert Places(w, t) == 1;
    StoredTag(w.active, t);
    StoredTag(w.inFlight, t);
  }

  lemma DeliverFollows(depth: nat, f: Features, w: View, l: Label, w': View, t: Tag, a: TM.TagState)
    requires Conserved(depth, w) && l.Deliver? && Moves(f, w, l, w') && t < depth && Represents(w, t, a)
    ensures Follows(f, w, l, w', t, a)
  {
    assert t in w'.unread <==> t in w.unread || t in l.tags;
    if t in l.tags {
      Unstored(depth, w, t);
      assert Places(w, t) == 1;
      RunOne(f, a, TM.Deliver(l.reqs[t]));
    } else {
      Frame(w, w', t, a);
    }
  }

  lemma FetchFollows(depth: nat, f: Features, w: View, l: Label, w': View, t: Tag, a: TM.TagState)
    requires Conserved(depth, w) && Moves(f, w, l, w') && t < depth && Represents(w, t, a)
    requires l.FetchCallback? || l.CloseFetch? || l.FetchEnded?
    ensures Follows(f, w, l, w', t, a)
  {
    if l.FetchCallback? {
      var n := |w.unread| - |w'.unread|;
      assert w.unread == w.unread[..n] + w.unread[n..];
    }
    Frame(w, w', t, a);
  }

  lemma ResumeFollows(depth: nat, f: Features, w: View, l: Label, w': View, t: Tag, a: TM.TagState)
    requires Conserved(depth, w) && Moves(f, w, l, w') && t < depth && Represents(w, t, a)
    requires l.WorkerResumes?
    ensures Follows(f, w, l, w', t, a)
  {
    if l.t == t && w.flag[t] {
      Unstored(depth, w, t);
      assert Places(w, t) == 1;
    } else {
      Frame(w, w', t, a);
    }
  }

  lemma CallFollows(depth: nat, f: Features, w: View, l: Label, w': View, t: Tag, a: TM.TagState)
    requires Conserved(depth, w) && Moves(f, w, l, w') && t < depth && Represents(w, t, a)
    requires OfWorker(l) && !l.WorkerResumes? && |w'.active| == |w.active|
    requires PhaseFits(f, w.workers[l.t], w.iod[l.t])
    ensures Follows(f, w, l, w', t, a)
  {
    if l.t != t {
      Frame(w, w', t, a);
    } else {
      Unstored(depth, w, t);
      assert Places(w, t) == 1;
      match l
      case RegisterReturns(_, ok) => if ok { RunOne(f, a, TM.Register); }
      case HandlerCompletes(_, o) => RunOne(f, a, TM.Handle(WrapHandleIo(o)));
      case UnregisterReturns(_, _) =>
    }
  }

  lemma AppendFollows(depth: nat, f: Features, w: View, l: Label, w': View, t: Tag, a: TM.TagState)
    requires Conserved(depth, w) && Moves(f, w, l, w') && t < depth && Represents(w, t, a)
    requires OfWorker(l) && |w'.active| > |w.active|
    requires PhaseFits(f, w.workers[l.t], w.iod[l.t])
    ensures Follows(f, w, l, w', t, a)
  {
    var e := w'.active[|w.active|];
    if l.t != t {
      if a.Ready? { StoredAppend(w.active, e, t, a.q, a.r); }
      Frame(w, w', t, a);
    } else {
      Unstored(depth, w, t);
      assert Places(w, t) == 1;
      var r := if l.HandlerCompletes? then WrapHandleIo(l.o) else w.workers[t].r;
      StoredAppend(w.active, e, t, w.iod[t], r);
      RunOne(f, a, if l.HandlerCompletes? then TM.Handle(r) else TM.Unregister);
    }
  }

  /** The element the driver consumes is the one that carries the tag's result. */
  lemma ConsumeFollows(depth: nat, f: Features, w: View, l: Label, w': View, t: Tag, a: TM.TagState)
    requires Conserved(depth, w) && Moves(f, w, l, w') && t < depth && Represents(w, t, a)
    requires l.DriverConsumes?
    ensures Follows(f, w, l, w', t, a)
  {
    var e, ts := w.inFlight[0], Tags(w.inFlight);
    assert ts[0] == e.tag && ts[0] in ts;
    if e.tag != t {
      if a.Ready? && Stored(w.inFlight, t, a.q, a.r) {
        var i :| 0 <= i < |w.inFlight| && Carries(w.inFlight[i], t, a.q, a.r);
        assert w'.inFlight[i - 1] == w.inFlight[i];
      }
      Frame(w, w', t, a);
    } else {
      assert Places(w, t) == 1;
      StoredTag(w.active, t);
      assert a.Ready?;
      var i :| 0 <= i < |w.inFlight| && Carries(w.inFlight[i], t, a.q, a.r);
      assert ts[i] == t;
      RunOne(f, a, TM.Commit(TM.CommitOf(a.q, a.r)));
    }
  }

  /** Every move is a step of each tag's machine, or none. */
  lemma MovesFollow(depth: nat, f: Features, w: View, l: Label, w': View, t: Tag, a: TM.TagState)
    requires Conserved(depth, w) && Moves(f, w, l, w') && Conserved(depth, w') && t < depth && Represents(w, t, a)
    requires forall u :: 0 <= u < depth ==> PhaseFits(f, w.workers[u], w.iod[u])
    ensures Follows(f, w, l, w', t, a)
  {
    if l.Deliver? {
      DeliverFollows(depth, f, w, l, w', t, a);
    } else if l.WorkerResumes? {
      ResumeFollows(depth, f, w, l, w', t, a);
    } else if OfWorker(l) {
      if |w'.active| == |w.active| { CallFollows(depth, f, w, l, w', t, a); }
      else { AppendFollows(depth, f, w, l, w', t, a); }
    } else if l.DriverConsumes? {
      ConsumeFollows(depth, f, w, l, w', t, a);
    } else if l.FlusherRuns? || l.CommitReturns? {
      Frame(w, w', t, a);
    } else {
      FetchFollows(depth, f, w, l, w', t, a);
    }
  }

  lemma EventsAgree(c: Config, s: State, l: Label, t: Tag)
    requires Inv(c, s) && Enabled(c, s, l) && t < c.depth
    ensures l.DriverConsumes? ==> InFlight(s.srv) != []
    ensures EventsOf(c, s, l, t) == ViewEvents(ViewOf(c, s), l, t)
  {
  }

  /** Every step of the batch queue is a step of each tag's machine, or none. */
  lemma StepFollows(c: Config, s: State, l: Label, t: Tag, a: TM.TagState)
    requires Inv(c, s) && Enabled(c, s, l) && t < c.depth && Represents(ViewOf(c, s), t, a)
    ensures Inv(c, Apply(c, s, l))
    ensures TM.Run(c.features, a, EventsOf(c, s, l, t)).Some?
    ensures Represents(ViewOf(c, Apply(c, s, l)), t, TM.Run(c.features, a, EventsOf(c, s, l, t)).value)
  {
    StepSteps(c, s, l);
    StepKeeps(c, s, l);
    EventsAgree(c, s, l, t);
    MovesFollow(c.depth, c.features, ViewOf(c, s), l, ViewOf(c, Apply(c, s, l)), t, a);
  }
}
