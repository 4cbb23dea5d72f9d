/** The shared-memory server: sessions that map a client's memory and register it with the driver,
    interleaved in any order, each able to fail or be stopped at every suspension point, and the
    cleanup tasks they leave behind. A step that would unmap memory that is not mapped or still
    registered, or start a second cleanup for a session, sets `fault`.

    Assumed: error codes are positive; a failed or cancelled driver call had no effect; mmap
    returns an address not in use and the driver an index not in use; a spawned cleanup task
    starts even after a stop request. */
module ShmServer {
  import opened Options

  type Addr = nat
  type Sid = nat

  /** What a session does to its resources. */
  datatype Event =
    | Map
    | RegisterAs(index: nat)
    | UnregisterTried(index: nat, ok: bool)
    | HandlerTold(index: nat)         // handle_unreg_shm
    | Unmap

  /** The resources of one session. */
  datatype Resources =
    | Nothing
    | Mapped
    | InDriver(index: nat)
    | OutOfDriver(index: nat)
    | Told(index: nat)
    | Released
    | Kept(index: nat)                // the unregister call failed: registered and mapped for good

  function Use(r: Resources, e: Event): Option<Resources> {
    match (r, e)
    case (Nothing, Map) => Some(Mapped)
    case (Mapped, RegisterAs(i)) => Some(InDriver(i))
    case (Mapped, Unmap) => Some(Released)
    case (InDriver(i), UnregisterTried(j, ok)) =>
      if i != j then None else if ok then Some(OutOfDriver(i)) else Some(Kept(i))
    case (OutOfDriver(i), HandlerTold(j)) => if i == j then Some(Told(i)) else None
    case (Told(i), Unmap) => Some(Released)
    case _ => None
  }

  /** The resources after events es, if they come in a permitted order. */
  function UseAll(es: seq<Event>): Option<Resources>
    decreases |es|
  {
    if es == [] then Some(Nothing)
    else
      var k := |es| - 1;
      match UseAll(es[..k])
      case None => None
      case Some(r) => Use(r, es[k])
  }

  datatype Phase =
    | Receiving              // recvmsg
    | Statting               // in handle: statx
    | Registering            // in handle: register_shm_buf
    | Announcing             // in handle: handle_reg_shm
    | Sending(res: int)      // send
    | Waiting                // recv, until the client hangs up
    | Closed

  datatype Session = Session(phase: Phase, entered: bool, size: nat, base: Option<Addr>, index: int)

  datatype CleanupPhase = Spawned | Unregistering | Ended(failed: bool)

  /** A cleanup task and the copy of the session it works on. */
  datatype Cleanup = Cleanup(phase: CleanupPhase, size: nat, base: Option<Addr>, index: int)

  datatype Mapping = Mapping(owner: Sid, size: nat)

  datatype State = State(
    sessions: seq<Session>,
    cleanups: map<Sid, Cleanup>,
    maps: map<Addr, Mapping>,
    regs: map<nat, Sid>,
    accepting: bool,
    log: seq<(Sid, Event)>,
    fault: bool)

  datatype StatResult = StatFails(code: int) | MapFails(size: nat, code: int) | MapsAt(size: nat, addr: Addr)
  datatype RegisterResult = RegisterFails(code: int) | RegisteredAs(index: nat)

  datatype Label =
    | Accept
    | AcceptFails                                   // an error, or the stop request
    | RecvReturns(sid: Sid, fd: bool)               // with a descriptor, or without or failed or stopped
    | StatReturns(sid: Sid, st: StatResult)
    | RegisterReturns(sid: Sid, rr: RegisterResult)
    | AnnounceReturns(sid: Sid, code: int)          // 0, or the error
    | SendReturns(sid: Sid, ok: bool)
    | PeerDone(sid: Sid)                            // hang-up, stray data, failure or stop
    | CleanupStarts(sid: Sid)
    | UnregisterReturns(sid: Sid, ok: bool)

  predicate At(s: State, sid: Sid, p: Phase) {
    sid < |s.sessions| && s.sessions[sid].phase == p
  }

  predicate Enabled(s: State, l: Label) {
    match l
    case Accept => s.accepting
    case AcceptFails => s.accepting
    case RecvReturns(sid, fd) => At(s, sid, Receiving)
    case StatReturns(sid, r) =>
      && At(s, sid, Statting)
      && (match r
          case StatFails(code) => code > 0
          case MapFails(_, code) => code > 0
          case MapsAt(_, addr) => addr !in s.maps)
    case RegisterReturns(sid, r) =>
      && At(s, sid, Registering)
      && (match r
          case RegisterFails(code) => code > 0
          case RegisteredAs(i) => i !in s.regs)
    case AnnounceReturns(sid, code) => At(s, sid, Announcing) && code >= 0
    case SendReturns(sid, ok) => sid < |s.sessions| && s.sessions[sid].phase.Sending?
    case PeerDone(sid) => At(s, sid, Waiting)
    case CleanupStarts(sid) => sid in s.cleanups && s.cleanups[sid].phase.Spawned?
    case UnregisterReturns(sid, ok) => sid in s.cleanups && s.cleanups[sid].phase.Unregistering?
  }

  function Put(s: State, sid: Sid, x: Session): State
    requires sid < |s.sessions|
  {
    s.(sessions := s.sessions[sid := x])
  }

  function Log(s: State, sid: Sid, e: Event): State {
    s.(log := s.log + [(sid, e)])
  }

  /** Session::cleanup: spawns a task on a copy of the session. */
  function SpawnCleanup(s: State, sid: Sid): State
    requires sid < |s.sessions|
  {
    var x := s.sessions[sid];
    if sid in s.cleanups then s.(fault := true)
    else s.(cleanups := s.cleanups[sid := Cleanup(Spawned, x.size, x.base, x.index)])
  }

  /** handle() ends with an error: its deferred cleanup runs and the session goes on with -code. */
  function HandleFails(s: State, sid: Sid, x: Session, code: int): State
    requires sid < |s.sessions|
  {
    SpawnCleanup(Put(s, sid, x.(phase := Sending(-code))), sid)
  }

  /** The session ends: its deferred cleanup runs if handle() had succeeded. */
  function Close(s: State, sid: Sid, res: int): State
    requires sid < |s.sessions|
  {
    var s1 := Put(s, sid, s.sessions[sid].(phase := Closed));
    if res >= 0 then SpawnCleanup(s1, sid) else s1
  }

  /** munmap and the end of the cleanup task. */
  function Finish(s: State, sid: Sid): State
    requires sid in s.cleanups
  {
    var k := s.cleanups[sid];
    var s1 := s.(cleanups := s.cleanups[sid := k.(phase := Ended(false))]);
    match k.base
    case None => s1
    case Some(a) =>
      if a !in s.maps || s.maps[a].size != k.size || (exists i :: i in s.regs && s.regs[i] == s.maps[a].owner)
      then s.(fault := true)
      else Log(s1.(maps := s.maps - {a}), sid, Unmap)
  }

  function Apply(s: State, l: Label): State
    requires Enabled(s, l)
  {
    match l
    case Accept => s.(sessions := s.sessions + [Session(Receiving, false, 0, None, -1)])
    case AcceptFails => s.(accepting := false)
    case RecvReturns(sid, fd) =>
      Put(s, sid, if fd then s.sessions[sid].(phase := Statting, entered := true)
                  else s.sessions[sid].(phase := Closed))
    case StatReturns(sid, r) =>
      var x := s.sessions[sid];
      (match r
       case StatFails(code) => HandleFails(s, sid, x, code)
       case MapFails(size, code) => HandleFails(s, sid, x.(size := size), code)
       case MapsAt(size, a) =>
         Log(Put(s, sid, x.(phase := Registering, size := size, base := Some(a)))
             .(maps := s.maps[a := Mapping(sid, size)]), sid, Map))
    case RegisterReturns(sid, r) =>
      var x := s.sessions[sid];
      (match r
       case RegisterFails(code) => HandleFails(s, sid, x, code)
       case RegisteredAs(i) =>
         Log(Put(s, sid, x.(phase := Announcing, index := i)).(regs := s.regs[i := sid]), sid, RegisterAs(i)))
    case AnnounceReturns(sid, code) =>
      if code > 0 then HandleFails(s, sid, s.sessions[sid], code)
      else Put(s, sid, s.sessions[sid].(phase := Sending(0)))
    case SendReturns(sid, ok) =>
      var res := s.sessions[sid].phase.res;
      if ok && res >= 0 then Put(s, sid, s.sessions[sid].(phase := Waiting))
      else Close(s, sid, res)
    case PeerDone(sid) => Close(s, sid, 0)
    case CleanupStarts(sid) =>
      if s.cleanups[sid].index != -1 then
        s.(cleanups := s.cleanups[sid := s.cleanups[sid].(phase := Unregistering)])
      else Finish(s, sid)
    case UnregisterReturns(sid, ok) =>
      var k := s.cleanups[sid];
      if k.index < 0 then s.(fault := true)
      else if !ok then
        Log(s.(cleanups := s.cleanups[sid := k.(phase := Ended(true))]), sid, UnregisterTried(k.index, false))
      else
        Finish(Log(Log(s.(regs := s.regs - {k.index}), sid, UnregisterTried(k.index, true)),
                   sid, HandlerTold(k.index)), sid)
  }

  predicate Initial(s: State) {
    && s.sessions == [] && s.cleanups == map[] && s.maps == map[] && s.regs == map[]
    && s.accepting && s.log == [] && !s.fault
  }
}
