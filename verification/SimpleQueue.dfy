/** The simple queue: one worker per tag fetches a request, handles it and commits the result with
    the next fetch. Its workers share nothing, so one worker and the driver's side of its tag are
    modelled. */
module SimpleQueue {
  import opened Options
  import opened Uapi
  import TM = TagMachine

  const UBLK_IO_RES_NEED_GET_DATA: int := 1
  const UBLK_IO_RES_ABORT: int := -ENODEV

  /** `bufAddr` is the address of the worker's buffer, 0 if it has none. */
  datatype Config = Config(features: Features, bufAddr: nat)

  /** Buffers are allocated only in the modes that need them; zoned devices use user copy. */
  predicate ValidConfig(c: Config) {
    && (!NeedAllocBuf(c.features) ==> c.bufAddr == 0)
    && (c.features.zoned ==> c.features.userCopy)
  }

  predicate Deliverable(f: Features, q: Request) {
    IsZoneAppend(q) ==> f.zoned
  }

  datatype Phase =
    | Fetching                                // fetch_req, or the fetch half of commit_and_fetch_req
    | GettingData                             // need_get_data
    | Registering
    | Handling(ioBuf: bool)
    | Unregistering(r: IoResult)
    | Submitting(res: int, addr: nat)         // the commit half of commit_and_fetch_req
    | Done
    | Failed

  datatype State = State(phase: Phase, owned: bool, iod: Request, fault: bool)

  datatype Label =
    | FetchReturns(code: int, q: Request)
    | GetDataReturns(code: int)
    | RegisterReturns(ok: bool)
    | HandlerCompletes(o: Outcome)
    | UnregisterReturns(ok: bool)
    | DriverCommits
    | SubmitFails(code: int)

  predicate Enabled(c: Config, s: State, l: Label) {
    match l
    case FetchReturns(code, q) => s.phase.Fetching? && Deliverable(c.features, q)
    case GetDataReturns(code) => s.phase.GettingData?
    case RegisterReturns(ok) => s.phase.Registering?
    case HandlerCompletes(o) => s.phase.Handling?
    case UnregisterReturns(ok) => s.phase.Unregistering?
    case DriverCommits => s.phase.Submitting?
    case SubmitFails(code) => s.phase.Submitting? && code < 0
  }

  /** The tests after a fetch or get-data call, then the head of the loop. */
  function Received(c: Config, s: State, code: int): State {
    if code == UBLK_IO_RES_ABORT then s.(phase := Done)
    else if code < 0 then s.(phase := Failed)
    else s.(owned := false, phase := if NeedIoBuf(c.features, s.iod) then Registering else Handling(false))
  }

  function Submit(c: Config, s: State, r: IoResult): State {
    if IsZoneAppend(s.iod) && c.bufAddr != 0 then s.(fault := true)     // assert(buf_addr == 0)
    else s.(phase := Submitting(r.res, if IsZoneAppend(s.iod) then r.lba else c.bufAddr))
  }

  function Apply(c: Config, s: State, l: Label): State
    requires Enabled(c, s, l)
  {
    match l
    case FetchReturns(code, q) =>
      if code == UBLK_IO_RES_NEED_GET_DATA then s.(iod := q, phase := GettingData)
      else if code < 0 then Received(c, s, code)
      else Received(c, s.(iod := q), code)
    case GetDataReturns(code) => Received(c, s, code)
    case RegisterReturns(ok) => s.(phase := if ok then Handling(true) else Failed)
    case HandlerCompletes(o) =>
      if s.phase.ioBuf then s.(phase := Unregistering(WrapHandleIo(o)))
      else Submit(c, s, WrapHandleIo(o))
    case UnregisterReturns(ok) => if ok then Submit(c, s, s.phase.r) else s.(phase := Failed)
    case DriverCommits => s.(owned := true, phase := Fetching)
    case SubmitFails(code) => Received(c, s, code)
  }

  function EventsOf(c: Config, s: State, l: Label): seq<TM.Event>
    requires Enabled(c, s, l)
  {
    match l
    case FetchReturns(code, q) =>
      if code < 0 || code == UBLK_IO_RES_NEED_GET_DATA then [] else [TM.Deliver(q)]
    case GetDataReturns(code) => if code < 0 then [] else [TM.Deliver(s.iod)]
    case RegisterReturns(ok) => if ok then [TM.Register] else []
    case HandlerCompletes(o) => [TM.Handle(WrapHandleIo(o))]
    case UnregisterReturns(ok) => if ok then [TM.Unregister] else []
    case DriverCommits =>
      [TM.Commit(TM.Committed(s.phase.res, if IsZoneAppend(s.iod) then Some(s.phase.addr) else None))]
    case SubmitFails(_) => []
  }

  predicate Initial(s: State) {
    s.phase == Fetching && s.owned && !s.fault
  }

  predicate Exec(c: Config, s: State, ls: seq<Label>, s': State)
    decreases |ls|
  {
    if ls == [] then s' == s
    else Enabled(c, s, ls[0]) && Exec(c, Apply(c, s, ls[0]), ls[1..], s')
  }

  function Trace(c: Config, s: State, ls: seq<Label>): seq<TM.Event>
    decreases |ls|
  {
    if ls == [] || !Enabled(c, s, ls[0]) then []
    else EventsOf(c, s, ls[0]) + Trace(c, Apply(c, s, ls[0]), ls[1..])
  }

  // ---------------------------------------------------------------- the worker follows the tag's machine

  predicate Represents(c: Config, s: State, a: TM.TagState) {
    && !s.fault
    && (s.phase.Registering? ==> NeedIoBuf(c.features, s.iod))
    && (s.phase.Handling? ==> (s.phase.ioBuf <==> NeedIoBuf(c.features, s.iod)))
    && (s.phase.Fetching? || s.phase.GettingData? ==> a.Idle?)
    && (s.phase.GettingData? || !a.Idle? ==> Deliverable(c.features, s.iod))
    && if a.Idle? then s.owned && (s.phase.Fetching? || s.phase.GettingData? || s.phase.Done? || s.phase.Failed?)
       else
         && !s.owned && s.iod == a.q
         && match a
            case Delivered(q) => s.phase.Registering? || s.phase == Handling(false) || s.phase.Failed?
            case Registered(q) => s.phase == Handling(true)
            case Handled(q, r) => s.phase == Unregistering(r) || s.phase.Failed?
            case Ready(q, r) =>
              || s.phase.Done? || s.phase.Failed?
              || (s.phase.Submitting? && s.phase.res == r.res
                  && s.phase.addr == if IsZoneAppend(q) then r.lba else c.bufAddr)
  }

  lemma StepFollows(c: Config, s: State, l: Label, a: TM.TagState)
    requires ValidConfig(c) && Represents(c, s, a) && TM.Sound(c.features, a) && Enabled(c, s, l)
    ensures TM.Run(c.features, a, EventsOf(c, s, l)).Some?
    ensures TM.Sound(c.features, TM.Run(c.features, a, EventsOf(c, s, l)).value)
    ensures Represents(c, Apply(c, s, l), TM.Run(c.features, a, EventsOf(c, s, l)).value)
  {
    var es := EventsOf(c, s, l);
    if es != [] {
      TM.RunSnoc(c.features, a, [], es[0]);
      assert [] + es == es == [es[0]];
      TM.NextExtends(c.features, a, es[0]);
    }
  }

  /** Every run of a simple worker is a run of its tag's machine. */
  lemma {:induction false} RunFollows(c: Config, s: State, ls: seq<Label>, s': State, a: TM.TagState)
    requires ValidConfig(c) && Exec(c, s, ls, s') && Represents(c, s, a) && TM.Sound(c.features, a)
    ensures TM.Run(c.features, a, Trace(c, s, ls)).Some?
    ensures Represents(c, s', TM.Run(c.features, a, Trace(c, s, ls)).value)
    decreases |ls|
  {
    if ls != [] {
      StepFollows(c, s, ls[0], a);
      var es, mid := EventsOf(c, s, ls[0]), Apply(c, s, ls[0]);
      RunFollows(c, mid, ls[1..], s', TM.Run(c.features, a, es).value);
      TM.RunConcat(c.features, a, es, Trace(c, mid, ls[1..]));
    }
  }

  lemma SimpleRefinesTag(c: Config, s0: State, ls: seq<Label>, s: State)
      returns (a: TM.TagState, served: seq<(Request, IoResult)>)
    requires ValidConfig(c) && Initial(s0) && Exec(c, s0, ls, s)
    ensures !s.fault
    ensures TM.Run(c.features, TM.Idle, Trace(c, s0, ls)) == Some(a) && Represents(c, s, a)
    ensures Trace(c, s0, ls) == TM.Cycles(c.features, served) + TM.InProgress(c.features, a)
  {
    RunFollows(c, s0, ls, s, TM.Idle);
    a := TM.Run(c.features, TM.Idle, Trace(c, s0, ls)).value;
    TM.TraceGrammar(c.features, Trace(c, s0, ls), a);
    served :| Trace(c, s0, ls) == TM.Cycles(c.features, served) + TM.InProgress(c.features, a);
  }

  // ---------------------------------------------------------------- how the worker ends

  /** The code a fetch, get-data or commit call returned. */
  function CallCode(l: Label): Option<int> {
    match l
    case FetchReturns(code, _) => Some(code)
    case GetDataReturns(code) => Some(code)
    case SubmitFails(code) => Some(code)
    case _ => None
  }

  /** The device was stopped: -ENODEV. */
  predicate StopsQuietly(l: Label) {
    CallCode(l) == Some(-19)
  }

  predicate Throws(l: Label) {
    || (CallCode(l).Some? && CallCode(l).value < 0 && CallCode(l).value != -19)
    || l == RegisterReturns(false)
    || l == UnregisterReturns(false)
  }

  lemma StepEnds(c: Config, s: State, l: Label)
    requires Enabled(c, s, l) && !s.phase.Done? && !s.phase.Failed?
    ensures Apply(c, s, l).phase.Done? <==> StopsQuietly(l)
    ensures Apply(c, s, l).phase.Failed? <==> Throws(l)
  {
  }

  /** Along every run the worker has returned if and only if the last call ended with -ENODEV, and has
      thrown if and only if it ended with another error, or a registration or unregistration failed. */
  lemma {:induction false} WorkerEndsIff(c: Config, s: State, ls: seq<Label>, s': State)
    requires Exec(c, s, ls, s') && !s.phase.Done? && !s.phase.Failed?
    ensures s'.phase.Done? <==> ls != [] && StopsQuietly(ls[|ls| - 1])
    ensures s'.phase.Failed? <==> ls != [] && Throws(ls[|ls| - 1])
    decreases |ls|
  {
    if ls != [] {
      StepEnds(c, s, ls[0]);
      var mid := Apply(c, s, ls[0]);
      if |ls| > 1 {
        assert Enabled(c, mid, ls[1..][0]);
        WorkerEndsIff(c, mid, ls[1..], s');
        assert ls[1..][|ls| - 2] == ls[|ls| - 1];
      }
    }
  }

  // ---------------------------------------------------------------- the worker can do all the machine can

  predicate AllDeliverable(f: Features, tr: seq<TM.Event>) {
    forall i :: 0 <= i < |tr| && tr[i].Deliver? ==> Deliverable(f, tr[i].q)
  }

  /** The worker is where the machine is, and none of its calls has failed. */
  predicate Tracks(c: Config, s: State, a: TM.TagState) {
    Represents(c, s, a) && !s.phase.Done? && !s.phase.Failed? && !s.phase.GettingData?
  }

  lemma StepRealizes(c: Config, s: State, a: TM.TagState, e: TM.Event) returns (l: Label)
    requires ValidConfig(c) && Tracks(c, s, a) && TM.Sound(c.features, a)
    requires TM.Next(c.features, a, e).Some? && (e.Deliver? ==> Deliverable(c.features, e.q))
    ensures Enabled(c, s, l) && EventsOf(c, s, l) == [e]
    ensures Tracks(c, Apply(c, s, l), TM.Next(c.features, a, e).value)
  {
    match e
    case Deliver(q) => l := FetchReturns(0, q);
    case Register => l := RegisterReturns(true);
    case Handle(r) => l := HandlerCompletes(ZonedValue(r.res, r.lba));
    case Unregister => l := UnregisterReturns(true);
    case Commit(_) => l := DriverCommits;
  }

  lemma {:induction false} Realizes(c: Config, s: State, a: TM.TagState, tr: seq<TM.Event>)
      returns (ls: seq<Label>, s': State)
    requires ValidConfig(c) && Tracks(c, s, a) && TM.Sound(c.features, a)
    requires TM.Run(c.features, a, tr).Some? && AllDeliverable(c.features, tr)
    ensures Exec(c, s, ls, s') && Trace(c, s, ls) == tr
    ensures Tracks(c, s', TM.Run(c.features, a, tr).value)
    decreases |tr|
  {
    if tr == [] {
      ls, s' := [], s;
    } else {
      var l := StepRealizes(c, s, a, tr[0]);
      TM.NextExtends(c.features, a, tr[0]);
      var rest, end := Realizes(c, Apply(c, s, l), TM.Next(c.features, a, tr[0]).value, tr[1..]);
      ls, s' := [l] + rest, end;
      assert ls[1..] == rest;
    }
  }

  /** Every trace of the tag's machine is the trace of some run of the simple worker. */
  lemma TagImplementedBySimple(c: Config, s0: State, tr: seq<TM.Event>) returns (ls: seq<Label>, s: State)
    requires ValidConfig(c) && Initial(s0)
    requires TM.Run(c.features, TM.Idle, tr).Some? && AllDeliverable(c.features, tr)
    ensures Exec(c, s0, ls, s) && Trace(c, s0, ls) == tr
  {
    ls, s := Realizes(c, s0, TM.Idle, tr);
  }
}

/** The batch queue speeds up the simple queue without changing what a tag can see. */
module QueueRefinement {
  import opened Seqs
  import B = BatchQueue
  import BI = BatchInvariant
  import R = BatchRuns
  import S = SimpleQueue

  lemma {:induction false} BatchDeliverable(c: B.Config, s: B.State, ls: seq<B.Label>, s': B.State, t: Tag)
    requires BI.Inv(c, s) && R.Exec(c, s, ls, s') && t < c.depth
    ensures S.AllDeliverable(c.features, R.Trace(c, s, ls, t))
    decreases |ls|
  {
    if ls != [] {
      BI.StepKeeps(c, s, ls[0]);
      BatchDeliverable(c, B.Apply(c, s, ls[0]), ls[1..], s', t);
      assert S.AllDeliverable(c.features, B.EventsOf(c, s, ls[0], t));
    }
  }

  /** For every run of the batch queue and every tag there is a run of the simple worker with the
      same deliveries, buffer registrations, results and commits, in the same order. */
  lemma BatchRefinesSimple(c: B.Config, s0: B.State, ls: seq<B.Label>, s: B.State, t: Tag, sc: S.Config, q0: S.State)
      returns (simple: seq<S.Label>, q: S.State)
    requires R.Reaches(c, s0, ls, s) && t < c.depth
    requires S.ValidConfig(sc) && sc.features == c.features && S.Initial(q0)
    ensures S.Exec(sc, q0, simple, q)
    ensures S.Trace(sc, q0, simple) == R.Trace(c, s0, ls, t)
  {
    var a, served := R.BatchRefinesTag(c, s0, ls, s, t);
    BI.InitialInv(c, s0);
    BatchDeliverable(c, s0, ls, s, t);
    simple, q := S.TagImplementedBySimple(sc, q0, R.Trace(c, s0, ls, t));
  }
}
