/** The batch I/O queue as a labelled transition system. A step is the code between two
    suspension points of the flusher, of a worker or of the fetch callback, or one action of the
    driver. Wherever the code would fail an assertion or index out of range, wherever the driver
    would be handed a tag it already owns, and wherever the driver would find no fetch buffer,
    the step sets `fault`; that no reachable state has it set is proved, not assumed.

    Assumed of the runtime: code between suspension points is atomic; a futex wait blocks only if
    the value equals its argument, and wakes only on a notification sent while it is parked.

    Assumed of the driver: it delivers only tags it owns, may redeliver a tag as soon as it has
    consumed the tag's commit element, and a failed call had no effect. Zone append reaches
    zoned devices only, and UBLK_IO_F_NEED_REG_BUF devices with automatic registration only. */
module BatchQueue {
  import opened Options
  import opened Uapi
  import opened Seqs
  import TM = TagMachine
  import FR = FetchRing

  /** `tableSize` is the number of slots of the ring's fixed-buffer table. */
  datatype Config = Config(depth: nat, cap: nat, features: Features, elemSize: nat, tableSize: nat)

  predicate ValidConfig(c: Config) {
    && 0 < c.depth < U16
    && c.depth <= c.cap
    && 0 < c.elemSize
    && (c.features.zeroCopy || c.features.autoBufReg ==> c.depth <= c.tableSize)
  }

  /** A commit element; `lba` and `buf` are whatever the slot's LBA field and its buffer index or buffer
      address hold, meaningful or not. */
  datatype Elem = Elem(tag: Tag, res: int, lba: nat, buf: nat)

  datatype Phase =
    | AtTop                          // at the head of the loop
    | Parked                         // waiting on the tag's futex
    | Woken                          // notified, not yet resumed
    | Registering                    // waiting for register_io_buf
    | Handling(ioBuf: bool)          // waiting for the handler
    | Unregistering(r: IoResult)     // waiting for unregister_io_buf
    | Exited                         // returned after a stop
    | Failed(holding: bool)          // threw; `holding` if its buffer stayed registered

  datatype Flusher =
    | Running                                // at the head of the loop
    | Asleep                                 // waiting on `pending`
    | Committing(nr: nat, consumed: nat)     // the driver has consumed `consumed` of `nr` elements
    | Finished
    | Broken(nr: nat, consumed: nat)         // threw after such a commit

  /** The memory of the queue: flusher and worker state, and the two commit halves. */
  datatype Server = Server(
    stopped: bool,
    flag: seq<bool>,
    workers: seq<Phase>,
    running: nat,
    index: nat,
    pending: nat,
    halves: seq<seq<Elem>>,
    bufs: seq<nat>,        // buf_bases_, never changed
    flusher: Flusher,
    fault: bool)

  datatype State = State(
    owned: seq<bool>,      // the driver owns the tag
    iod: seq<Request>,     // descriptors, written by the driver
    table: set<Tag>,       // slots of the fixed-buffer table in use
    open: bool,            // the multishot fetch has not ended
    ring: FR.Ring,
    srv: Server)

  predicate Busy(p: Phase) {
    p.Registering? || p.Handling? || p.Unregistering?
  }

  predicate Live(p: Phase) {
    !p.Exited? && !p.Failed?
  }

  // ---------------------------------------------------------------- server code

  function Fault(v: Server): Server {
    v.(fault := true)
  }

  function NotifyFlusher(v: Server): Server {
    if v.flusher.Asleep? then v.(flusher := Running) else v
  }

  /** A worker's task completes; the continuation counts it out. */
  function Leave(v: Server, t: Tag, p: Phase): Server
    requires t < |v.workers|
  {
    var v1 := v.(workers := v.workers[t := p], running := if v.running > 0 then v.running - 1 else 0);
    if v1.running == 0 then NotifyFlusher(v1) else v1
  }

  function Begin(f: Features, v: Server, q: Request, t: Tag): Server
    requires t < |v.workers| && t < |v.flag|
  {
    if !v.flag[t] then Fault(v)     // assert(read_once_(state.flag))
    else v.(flag := v.flag[t := false],
            workers := v.workers[t := if NeedIoBuf(f, q) then Registering else Handling(false)])
  }

  /** The worker loop from its head, or from the wake-up of its futex wait. */
  function Resume(f: Features, v: Server, q: Request, t: Tag): Server
    requires t < |v.workers| && t < |v.flag|
  {
    if v.workers[t].AtTop? && !v.stopped && !v.flag[t] then v.(workers := v.workers[t := Parked])
    else if v.stopped then Leave(v, t, Exited)
    else Begin(f, v, q, t)
  }

  /** What `set_result_` leaves in the buffer field of a slot. */
  function BufField(f: Features, bufs: seq<nat>, t: Tag, before: nat): nat
    requires NeedBufAddr(f) ==> t < |bufs|
  {
    if f.autoBufReg then t else if NeedBufAddr(f) then bufs[t] else before
  }

  /** The element names tag t and, where the mode has one, the buffer of that tag. */
  predicate Addressed(f: Features, bufs: seq<nat>, e: Elem, t: Tag) {
    && e.tag == t
    && (f.autoBufReg ==> e.buf == t)
    && (NeedBufAddr(f) ==> t < |bufs| && e.buf == bufs[t])
  }

  /** The worker stores its result in the next slot of the active half. */
  function Append(f: Features, v: Server, q: Request, t: Tag, r: IoResult): Server
    requires t < |v.workers| && v.index < |v.halves|
  {
    var slot, half := v.pending, v.halves[v.index];
    if slot >= |half| || (IsZoneAppend(q) && !f.zoned) || (NeedBufAddr(f) && t >= |v.bufs|) then Fault(v)
    else
      var lba := if IsZoneAppend(q) then r.lba else half[slot].lba;
      var e := Elem(t, r.res, lba, BufField(f, v.bufs, t, half[slot].buf));
      var v1 := v.(halves := v.halves[v.index := half[slot := e]],
                   pending := (slot + 1) % U16,
                   workers := v.workers[t := AtTop]);
      if slot == 0 then NotifyFlusher(v1) else v1
  }

  function FlusherStep(v: Server): Server {
    if v.pending > 0 then
      v.(index := if v.index == 0 then 1 else 0, pending := 0, flusher := Committing(v.pending, 0))
    else if v.running == 0 then v.(flusher := Finished)
    else v.(flusher := Asleep)
  }

  function Raise(flag: seq<bool>, tags: seq<Tag>): seq<bool> {
    seq(|flag|, t requires 0 <= t < |flag| => flag[t] || t in tags)
  }

  function Wake(ws: seq<Phase>, tags: seq<Tag>): seq<Phase> {
    seq(|ws|, t requires 0 <= t < |ws| => if t in tags && ws[t].Parked? then Woken else ws[t])
  }

  function WakeAll(ws: seq<Phase>): seq<Phase> {
    seq(|ws|, t requires 0 <= t < |ws| => if ws[t].Parked? then Woken else ws[t])
  }

  /** The fetch callback raises the flag of every tag it reads and wakes its worker. */
  function Announce(v: Server, tags: seq<Tag>): Server {
    if !Below(tags, |v.workers|) || !Below(tags, |v.flag|) then Fault(v)
    else v.(flag := Raise(v.flag, tags), workers := Wake(v.workers, tags))
  }

  function StopAll(v: Server): Server {
    v.(stopped := true, workers := WakeAll(v.workers))
  }

  // ---------------------------------------------------------------- steps

  datatype CommitReturn = Bytes(n: nat) | Error

  datatype Label =
    | Deliver(tags: seq<Tag>, reqs: seq<Request>)   // driver: descriptors, then tags
    | CloseFetch                                    // driver: no more deliveries
    | FetchCallback
    | FetchEnded
    | WorkerResumes(t: Tag)
    | RegisterReturns(t: Tag, ok: bool)
    | HandlerCompletes(t: Tag, o: Outcome)
    | UnregisterReturns(t: Tag, ok: bool)
    | FlusherRuns
    | DriverConsumes                                // driver: takes the next commit element
    | CommitReturns(r: CommitReturn)

  predicate WellFormed(c: Config, s: State) {
    && ValidConfig(c)
    && |s.owned| == |s.iod| == |s.srv.flag| == |s.srv.workers| == c.depth
    && s.srv.index < 2
    && |s.srv.halves| == 2 && |s.srv.halves[0]| == |s.srv.halves[1]| == c.depth
    && (NeedAllocBuf(c.features) ==> |s.srv.bufs| == c.depth)
    && (s.srv.flusher.Committing? || s.srv.flusher.Broken? ==> s.srv.flusher.consumed <= s.srv.flusher.nr <= c.depth)
    && FR.Inv(c.cap, s.ring)
  }

  predicate MayDeliver(c: Config, s: State, tags: seq<Tag>, reqs: seq<Request>)
    requires WellFormed(c, s)
  {
    && tags != [] && |reqs| == c.depth
    && Distinct(tags) && Below(tags, c.depth)
    && forall t :: 0 <= t < c.depth && t in tags ==>
         && s.owned[t]
         && (IsZoneAppend(reqs[t]) ==> c.features.zoned)
         && (reqs[t].needRegBuf ==> c.features.autoBufReg)
  }

  predicate Enabled(c: Config, s: State, l: Label)
    requires WellFormed(c, s)
  {
    match l
    case Deliver(tags, reqs) =>
      s.open && MayDeliver(c, s, tags, reqs) && (FR.Available(s.ring) ==> |tags| <= c.cap - s.ring.woff)
    case CloseFetch => s.open
    case FetchCallback => s.ring.cqes != []
    case FetchEnded => !s.open && s.ring.cqes == [] && !s.srv.stopped
    case WorkerResumes(t) => t < c.depth && (s.srv.workers[t].AtTop? || s.srv.workers[t].Woken?)
    case RegisterReturns(t, ok) => t < c.depth && s.srv.workers[t].Registering?
    case HandlerCompletes(t, o) => t < c.depth && s.srv.workers[t].Handling?
    case UnregisterReturns(t, ok) => t < c.depth && s.srv.workers[t].Unregistering?
    case FlusherRuns => s.srv.flusher.Running?
    case DriverConsumes => s.srv.flusher.Committing? && s.srv.flusher.consumed < s.srv.flusher.nr
    case CommitReturns(r) =>
      && s.srv.flusher.Committing?
      && match r
         case Bytes(n) => n == s.srv.flusher.consumed * c.elemSize
         case Error => s.srv.flusher.consumed == 0
  }

  function Rewrite(iod: seq<Request>, tags: seq<Tag>, reqs: seq<Request>): seq<Request>
    requires |reqs| == |iod|
  {
    seq(|iod|, t requires 0 <= t < |iod| => if t in tags then reqs[t] else iod[t])
  }

  function Release(owned: seq<bool>, tags: seq<Tag>): seq<bool> {
    seq(|owned|, t requires 0 <= t < |owned| => owned[t] && t !in tags)
  }

  function Apply(c: Config, s: State, l: Label): State
    requires WellFormed(c, s) && Enabled(c, s, l)
  {
    var v := s.srv;
    match l
    case Deliver(tags, reqs) =>
      if !FR.Available(s.ring) then s.(srv := Fault(v))
      else s.(owned := Release(s.owned, tags), iod := Rewrite(s.iod, tags, reqs),
              ring := FR.Write(c.cap, s.ring, tags))
    case CloseFetch => s.(open := false)
    case FetchCallback =>
      var cqe := s.ring.cqes[0];
      FR.ConsumeReads(c.cap, s.ring);
      if cqe.retired && s.ring.nextId != cqe.bid then s.(srv := Fault(v))     // assert(r == bid)
      else s.(ring := FR.Consume(s.ring), srv := Announce(v, FR.ReadTags(s.ring)))
    case FetchEnded => s.(srv := StopAll(v))
    case WorkerResumes(t) => s.(srv := Resume(c.features, v, s.iod[t], t))
    case RegisterReturns(t, ok) =>
      if !ok then s.(srv := Leave(v, t, Failed(false)))
      else if t >= c.tableSize || t in s.table then s.(srv := Fault(v))
      else s.(table := s.table + {t}, srv := v.(workers := v.workers[t := Handling(true)]))
    case HandlerCompletes(t, o) =>
      if v.workers[t].ioBuf then s.(srv := v.(workers := v.workers[t := Unregistering(WrapHandleIo(o))]))
      else s.(srv := Append(c.features, v, s.iod[t], t, WrapHandleIo(o)))
    case UnregisterReturns(t, ok) =>
      if !ok then s.(srv := Leave(v, t, Failed(true)))
      else s.(table := s.table - {t}, srv := Append(c.features, v, s.iod[t], t, v.workers[t].r))
    case FlusherRuns => s.(srv := FlusherStep(v))
    case DriverConsumes =>
      var e := v.halves[1 - v.index][v.flusher.consumed];
      if e.tag >= c.depth || s.owned[e.tag] then s.(srv := Fault(v))
      else s.(owned := s.owned[e.tag := true],
              srv := v.(flusher := Committing(v.flusher.nr, v.flusher.consumed + 1)))
    case CommitReturns(r) =>
      if r.Bytes? && r.n == v.flusher.nr * c.elemSize then s.(srv := v.(flusher := Running))
      else s.(srv := v.(flusher := Broken(v.flusher.nr, v.flusher.consumed)))
  }

  /** The state after `prep_io_cmds` has given every tag to the driver. */
  predicate Initial(c: Config, s: State) {
    && WellFormed(c, s)
    && (forall t :: 0 <= t < c.depth ==> s.owned[t] && !s.srv.flag[t] && s.srv.workers[t] == AtTop)
    && s.table == {} && s.open
    && s.ring == FR.Fresh(s.ring.mem)
    && !s.srv.stopped && s.srv.running == c.depth && s.srv.index == 0 && s.srv.pending == 0
    && s.srv.flusher == Running && !s.srv.fault
  }

  /** The event of tag t in a step, if any. */
  function EventsOf(c: Config, s: State, l: Label, t: Tag): seq<TM.Event>
    requires WellFormed(c, s) && Enabled(c, s, l)
  {
    match l
    case Deliver(tags, reqs) => if t < c.depth && t in tags then [TM.Deliver(reqs[t])] else []
    case RegisterReturns(u, ok) => if u == t && ok then [TM.Register] else []
    case HandlerCompletes(u, o) => if u == t then [TM.Handle(WrapHandleIo(o))] else []
    case UnregisterReturns(u, ok) => if u == t && ok then [TM.Unregister] else []
    case DriverConsumes =>
      var e := s.srv.halves[1 - s.srv.index][s.srv.flusher.consumed];
      if e.tag != t || t >= c.depth then []
      else [TM.Commit(TM.Committed(e.res, if IsZoneAppend(s.iod[t]) then Some(e.lba) else None))]
    case _ => []
  }
}
