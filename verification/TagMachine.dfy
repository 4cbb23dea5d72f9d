/** The life of one tag, as the driver and the handler see it. Both queue implementations
    are proved to behave, tag by tag, like this machine. */
module TagMachine {
  import opened Options
  import opened Uapi

  /** What the driver learns from a commit. The LBA matters for zone append only. */
  datatype Committed = Committed(res: int, lba: Option<nat>)

  function CommitOf(q: Request, r: IoResult): Committed {
    Committed(r.res, if IsZoneAppend(q) then Some(r.lba) else None)
  }

  datatype Event =
    | Deliver(q: Request)
    | Register
    | Handle(r: IoResult)
    | Unregister
    | Commit(c: Committed)

  datatype TagState =
    | Idle                                   // the driver owns the tag
    | Delivered(q: Request)                  // handed to the server
    | Registered(q: Request)                 // its buffer is in the ring's buffer table
    | Handled(q: Request, r: IoResult)       // handled, buffer still in the table
    | Ready(q: Request, r: IoResult)         // result waiting to be committed

  /** The machine is deterministic: at most one successor for each event. */
  function Next(f: Features, a: TagState, e: Event): Option<TagState> {
    match (a, e)
    case (Idle, Deliver(q)) => Some(Delivered(q))
    case (Delivered(q), Register) => if NeedIoBuf(f, q) then Some(Registered(q)) else None
    case (Delivered(q), Handle(r)) => if NeedIoBuf(f, q) then None else Some(Ready(q, r))
    case (Registered(q), Handle(r)) => Some(Handled(q, r))
    case (Handled(q, r), Unregister) => Some(Ready(q, r))
    case (Ready(q, r), Commit(c)) => if c == CommitOf(q, r) then Some(Idle) else None
    case _ => None
  }

  function Run(f: Features, a: TagState, tr: seq<Event>): Option<TagState>
    decreases |tr|
  {
    if tr == [] then Some(a)
    else match Next(f, a, tr[0])
      case None => None
      case Some(a') => Run(f, a', tr[1..])
  }

  /** States in which a buffer is registered arise only for requests that need one. */
  predicate Sound(f: Features, a: TagState) {
    a.Registered? || a.Handled? ==> NeedIoBuf(f, a.q)
  }

  /** One complete service of one request. Its buffer is registered if the driver asks for it, or on a
      zero-copy device without automatic registration. */
  function Cycle(f: Features, q: Request, r: IoResult): seq<Event> {
    if q.needRegBuf || (f.zeroCopy && !f.autoBufReg)
    then [Deliver(q), Register, Handle(r), Unregister, Commit(CommitOf(q, r))]
    else [Deliver(q), Handle(r), Commit(CommitOf(q, r))]
  }

  function Cycles(f: Features, served: seq<(Request, IoResult)>): seq<Event> {
    if served == [] then []
    else Cycle(f, served[0].0, served[0].1) + Cycles(f, served[1..])
  }

  /** The events of the service in progress. */
  function InProgress(f: Features, a: TagState): seq<Event> {
    match a
    case Idle => []
    case Delivered(q) => [Deliver(q)]
    case Registered(q) => [Deliver(q), Register]
    case Handled(q, r) => [Deliver(q), Register, Handle(r)]
    case Ready(q, r) =>
      if q.needRegBuf || (f.zeroCopy && !f.autoBufReg)
      then [Deliver(q), Register, Handle(r), Unregister]
      else [Deliver(q), Handle(r)]
  }

  lemma {:induction false} RunConcat(f: Features, a: TagState, xs: seq<Event>, ys: seq<Event>)
    requires Run(f, a, xs).Some?
    ensures Run(f, a, xs + ys) == Run(f, Run(f, a, xs).value, ys)
    decreases |xs|
  {
    if xs == [] {
      assert xs + ys == ys;
    } else {
      assert (xs + ys)[1..] == xs[1..] + ys;
      RunConcat(f, Next(f, a, xs[0]).value, xs[1..], ys);
    }
  }

  lemma NextExtends(f: Features, a: TagState, e: Event)
    requires Sound(f, a)
    requires Next(f, a, e).Some?
    ensures Sound(f, Next(f, a, e).value)
    ensures a.Ready? ==> Next(f, a, e) == Some(Idle) && InProgress(f, a) + [e] == Cycle(f, a.q, a.r)
    ensures !a.Ready? ==> InProgress(f, a) + [e] == InProgress(f, Next(f, a, e).value)
  {
  }

  lemma {:induction false} RunDecomposes(f: Features, a: TagState, tr: seq<Event>)
      returns (served: seq<(Request, IoResult)>)
    requires Sound(f, a)
    requires Run(f, a, tr).Some?
    ensures Sound(f, Run(f, a, tr).value)
    ensures InProgress(f, a) + tr == Cycles(f, served) + InProgress(f, Run(f, a, tr).value)
    decreases |tr|
  {
    if tr == [] {
      served := [];
    } else {
      NextExtends(f, a, tr[0]);
      var a' := Next(f, a, tr[0]).value;
      var rest := RunDecomposes(f, a', tr[1..]);
      assert InProgress(f, a) + tr == InProgress(f, a) + [tr[0]] + tr[1..];
      if a.Ready? {
        served := [(a.q, a.r)] + rest;
        CycleFirst(f, a.q, a.r, tr[1..], rest, InProgress(f, Run(f, a, tr).value));
      } else {
        served := rest;
      }
    }
  }

  lemma CycleFirst(f: Features, q: Request, r: IoResult, tr: seq<Event>, rest: seq<(Request, IoResult)>,
                   last: seq<Event>)
    requires InProgress(f, Idle) + tr == Cycles(f, rest) + last
    ensures Cycle(f, q, r) + tr == Cycles(f, [(q, r)] + rest) + last
  {
    assert ([(q, r)] + rest)[1..] == rest;
    assert tr == Cycles(f, rest) + last;
  }

  lemma RunSnoc(f: Features, a: TagState, xs: seq<Event>, e: Event)
    requires Run(f, a, xs).Some?
    ensures Run(f, a, xs + [e]) == Next(f, Run(f, a, xs).value, e)
  {
    RunConcat(f, a, xs, [e]);
    var b := Run(f, a, xs).value;
    if Next(f, b, e).Some? {
      assert Run(f, Next(f, b, e).value, [e][1..]) == Next(f, b, e);
    }
  }

  lemma {:induction false} InProgressReaches(f: Features, a: TagState)
    requires Sound(f, a)
    ensures Run(f, Idle, InProgress(f, a)) == Some(a)
    decreases match a
              case Idle => 0
              case Delivered(_) => 1
              case Registered(_) => 2
              case Handled(_, _) => 3
              case Ready(_, _) => 4
  {
    if !a.Idle? {
      var (b, e) := match a
        case Delivered(q) => (Idle, Deliver(q))
        case Registered(q) => (Delivered(q), Register)
        case Handled(q, r) => (Registered(q), Handle(r))
        case Ready(q, r) => if NeedIoBuf(f, q) then (Handled(q, r), Unregister) else (Delivered(q), Handle(r));
      InProgressReaches(f, b);
      NextExtends(f, b, e);
      RunSnoc(f, Idle, InProgress(f, b), e);
    }
  }

  lemma CycleReturns(f: Features, q: Request, r: IoResult)
    ensures Run(f, Idle, Cycle(f, q, r)) == Some(Idle)
  {
    var a, e := Ready(q, r), Commit(CommitOf(q, r));
    InProgressReaches(f, a);
    NextExtends(f, a, e);
    RunSnoc(f, Idle, InProgress(f, a), e);
  }

  lemma {:induction false} CyclesReturn(f: Features, served: seq<(Request, IoResult)>)
    ensures Run(f, Idle, Cycles(f, served)) == Some(Idle)
    decreases |served|
  {
    if served != [] {
      CycleReturns(f, served[0].0, served[0].1);
      CyclesReturn(f, served[1..]);
      RunConcat(f, Idle, Cycle(f, served[0].0, served[0].1), Cycles(f, served[1..]));
    }
  }

  /** The traces of the machine are exactly the sequences of complete services followed by the
      events of one service in progress: a commit always carries the result of the delivery it
      follows, buffers are registered and unregistered within one service, and no result is
      committed twice. */
  lemma TraceGrammar(f: Features, tr: seq<Event>, a: TagState)
    ensures Run(f, Idle, tr) == Some(a) <==>
            Sound(f, a) && exists served :: tr == Cycles(f, served) + InProgress(f, a)
  {
    if Run(f, Idle, tr) == Some(a) {
      var served := RunDecomposes(f, Idle, tr);
      assert InProgress(f, Idle) + tr == tr;
      assert tr == Cycles(f, served) + InProgress(f, a);
    }
    if Sound(f, a) && exists served :: tr == Cycles(f, served) + InProgress(f, a) {
      var served :| tr == Cycles(f, served) + InProgress(f, a);
      CyclesReturn(f, served);
      InProgressReaches(f, a);
      RunConcat(f, Idle, Cycles(f, served), InProgress(f, a));
    }
  }

  // ---------------------------------------------------------------- deliveries, results and commits, in order

  function Delivers(tr: seq<Event>): seq<Request> {
    if tr == [] then []
    else (if tr[0].Deliver? then [tr[0].q] else []) + Delivers(tr[1..])
  }

  function Handles(tr: seq<Event>): seq<IoResult> {
    if tr == [] then []
    else (if tr[0].Handle? then [tr[0].r] else []) + Handles(tr[1..])
  }

  function Commits(tr: seq<Event>): seq<Committed> {
    if tr == [] then []
    else (if tr[0].Commit? then [tr[0].c] else []) + Commits(tr[1..])
  }

  lemma PartsCons(e: Event, tr: seq<Event>)
    ensures Delivers([e] + tr) == (if e.Deliver? then [e.q] else []) + Delivers(tr)
    ensures Handles([e] + tr) == (if e.Handle? then [e.r] else []) + Handles(tr)
    ensures Commits([e] + tr) == (if e.Commit? then [e.c] else []) + Commits(tr)
  {
    assert ([e] + tr)[1..] == tr;
  }

  /** What was delivered, handled and committed on the way to a state: the commits answer the deliveries
      one by one, and at most one delivery is still to be handled, and one result to be committed. */
  ghost predicate Matched(qs: seq<Request>, rs: seq<IoResult>, cs: seq<Committed>, a: TagState) {
    && |qs| == |cs| + (if a.Idle? then 0 else 1)
    && |rs| == |cs| + (if a.Handled? || a.Ready? then 1 else 0)
    && (!a.Idle? ==> qs[|cs|] == a.q)
    && (a.Handled? || a.Ready? ==> rs[|cs|] == a.r)
    && forall i :: 0 <= i < |cs| ==> cs[i] == CommitOf(qs[i], rs[i])
  }

  lemma NextMatches(f: Features, a: TagState, e: Event, qs: seq<Request>, rs: seq<IoResult>, cs: seq<Committed>)
    requires Next(f, a, e).Some? && Matched(qs, rs, cs, a)
    ensures Matched(qs + if e.Deliver? then [e.q] else [], rs + if e.Handle? then [e.r] else [],
                    cs + if e.Commit? then [e.c] else [], Next(f, a, e).value)
  {
  }

  lemma {:induction false} RunMatches(f: Features, a: TagState, tr: seq<Event>,
                                      qs: seq<Request>, rs: seq<IoResult>, cs: seq<Committed>)
    requires Run(f, a, tr).Some? && Matched(qs, rs, cs, a)
    ensures Matched(qs + Delivers(tr), rs + Handles(tr), cs + Commits(tr), Run(f, a, tr).value)
    decreases |tr|
  {
    if tr == [] {
      assert qs + [] == qs && rs + [] == rs && cs + [] == cs;
    } else {
      var e := tr[0];
      var q1 := qs + if e.Deliver? then [e.q] else [];
      var r1 := rs + if e.Handle? then [e.r] else [];
      var c1 := cs + if e.Commit? then [e.c] else [];
      NextMatches(f, a, e, qs, rs, cs);
      RunMatches(f, Next(f, a, e).value, tr[1..], q1, r1, c1);
      Regroup(qs, if e.Deliver? then [e.q] else [], Delivers(tr[1..]));
      Regroup(rs, if e.Handle? then [e.r] else [], Handles(tr[1..]));
      Regroup(cs, if e.Commit? then [e.c] else [], Commits(tr[1..]));
    }
  }

  lemma Regroup<T>(x: seq<T>, y: seq<T>, z: seq<T>)
    ensures (x + y) + z == x + (y + z)
  {
  }

  lemma EmptyLeft<T>(x: seq<T>)
    ensures [] + x == x
  {
  }

  /** Along every trace of the machine the k-th commit carries the k-th result for the k-th delivery. */
  lemma CommitsMatch(f: Features, tr: seq<Event>, a: TagState)
    requires Run(f, Idle, tr) == Some(a)
    ensures Matched(Delivers(tr), Handles(tr), Commits(tr), a)
  {
    RunMatches(f, Idle, tr, [], [], []);
    EmptyLeft(Delivers(tr));
    EmptyLeft(Handles(tr));
    EmptyLeft(Commits(tr));
  }
}
