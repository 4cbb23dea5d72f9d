/** `daemon::setup`, `configure` and `start`, on top of the control commands they issue.

    Assumed of the driver: it may refuse any command with any error code, and a refused command had
    no effect; an accepted command has the effect `Accept` gives it. In particular device states
    change only through the commands issued here. */
module DaemonLifecycle {
  import opened Options
  import opened Uapi

  type DevId = nat

  /** `dev_id == -1`: let the driver choose. */
  const ANY_ID: DevId := 0xFFFF_FFFF

  const EACCES: nat := 13
  const EEXIST: nat := 17
  const ENO_SPACE: nat := 28
  const EOPNOTSUPP: nat := 95

  datatype DevState = Dead | Live | Quiesced | FailIo

  /** UBLK_F_USER_RECOVERY and UBLK_F_UNPRIVILEGED_DEV. */
  datatype Flags = Flags(userRecovery: bool, unprivileged: bool)

  /** `rest` stands for the fields that the lifecycle does not look at. */
  datatype Info = Info(devId: DevId, state: DevState, flags: Flags, rest: nat)

  /** `body` stands for everything but the length field. */
  datatype Params = Params(len: nat, body: nat)

  datatype Device = Device(info: Info, params: Params)

  datatype Command =
    | AddDev(info: Info)
    | GetDevInfo2(id: DevId)
    | GetDevInfo(id: DevId)
    | SetParams(id: DevId, params: Params, path: bool)
    | GetParams(id: DevId, path: bool)
    | StartDev(id: DevId, pid: int, path: bool)
    | StartRecovery(id: DevId, path: bool)
    | EndRecovery(id: DevId, pid: int, path: bool)

  datatype Reply = Done | GotInfo(info: Info) | GotParams(params: Params) | Failed(code: nat)

  /** A command the driver saw, the state of its device at that moment, and the code it was refused with,
      0 if it was accepted. */
  datatype Entry = Entry(cmd: Command, state: Option<DevState>, refusal: nat)

  /** The devices, all the driver saw, and the commands among it that are more than queries. */
  datatype World = World(devices: map<DevId, Device>, log: seq<Entry>, sent: seq<Command>)

  /** What the driver is free to decide about the command at a position of the log: to refuse it
      (fault > 0), and the id, flags and initial parameters of a new device. */
  datatype Answer = Answer(fault: nat, id: DevId, flags: Flags, params: Params)

  /** How often the code repeats a denied query. */
  const MAX_RETRY: nat := 20

  /** Those decisions, and a number of retries; what is proved holds for every number. */
  datatype Env = Env(answer: nat -> Answer, retries: nat)

  datatype Result<+T> = Ok(value: T) | Err(code: nat)

  /** "device can neither be started nor recovered", the one error that is not an errno. */
  const NOT_STARTABLE: nat := 0

  predicate UserRecovery(info: Info) {
    info.flags.userRecovery
  }

  predicate Unprivileged(info: Info) {
    info.flags.unprivileged
  }

  predicate NeedRecovery(info: Info) {
    info.state.Quiesced? || info.state.FailIo?
  }

  // ---------------------------------------------------------------- driver

  function ErrorOf(r: Reply): nat {
    if r.Failed? then r.code else 0
  }

  function Target(cmd: Command): DevId {
    if cmd.AddDev? then cmd.info.devId else cmd.id
  }

  predicate IsQuery(cmd: Command) {
    cmd.GetDevInfo? || cmd.GetDevInfo2?
  }

  function Go(d: Device, state: DevState): Device {
    d.(info := d.info.(state := state))
  }

  function Accept(devices: map<DevId, Device>, cmd: Command, a: Answer): (map<DevId, Device>, Reply) {
    if cmd.AddDev? then
      var id := if cmd.info.devId == ANY_ID then a.id else cmd.info.devId;
      var info := cmd.info.(devId := id, state := Dead, flags := a.flags);
      if id in devices then (devices, Failed(if cmd.info.devId == ANY_ID then ENO_SPACE else EEXIST))
      else (devices[id := Device(info, a.params)], GotInfo(info))
    else if cmd.id !in devices then (devices, Failed(ENODEV))
    else
      var d := devices[cmd.id];
      match cmd
      case GetDevInfo2(_) => (devices, GotInfo(d.info))
      case GetDevInfo(_) => (devices, GotInfo(d.info))
      case SetParams(id, p, _) => (devices[id := d.(params := p)], Done)
      case GetParams(_, _) => (devices, GotParams(d.params))
      case StartDev(id, _, _) => (devices[id := Go(d, Live)], Done)
      case StartRecovery(_, _) => (devices, Done)
      case EndRecovery(id, _, _) => (devices[id := Go(d, Live)], Done)
  }

  function Issue(o: Env, w: World, cmd: Command): (World, Reply) {
    var a := o.answer(|w.log|);
    var (devices, reply) := if a.fault > 0 then (w.devices, Failed(a.fault)) else Accept(w.devices, cmd, a);
    var state := if Target(cmd) in w.devices then Some(w.devices[Target(cmd)].info.state) else None;
    (World(devices, w.log + [Entry(cmd, state, ErrorOf(reply))], w.sent + if IsQuery(cmd) then [] else [cmd]), reply)
  }

  // ---------------------------------------------------------------- control commands

  /** `get_dev_info`: a refusal for lack of access is tried again, an unsupported command is
      replaced by its older form. */
  function Query(o: Env, w: World, id: DevId, retries: nat): (World, Result<Info>)
    decreases retries
  {
    var (w1, r) := Issue(o, w, GetDevInfo2(id));
    if r.GotInfo? then (w1, Ok(r.info))
    else if r == Failed(EACCES) then
      if retries == 0 then (w1, Err(EACCES)) else Query(o, w1, id, retries - 1)
    else if r == Failed(EOPNOTSUPP) then
      var (w2, r2) := Issue(o, w1, GetDevInfo(id));
      (w2, if r2.GotInfo? then Ok(r2.info) else Err(ErrorOf(r2)))
    else (w1, Err(ErrorOf(r)))
  }

  predicate Hit(cache: Option<Info>, id: DevId) {
    cache.Some? && cache.value.devId == id
  }

  function CachedQuery(o: Env, w: World, cache: Option<Info>, id: DevId): (World, Result<Info>) {
    if Hit(cache, id) then (w, Ok(cache.value)) else Query(o, w, id, o.retries)
  }

  function WithPath(cmd: Command, path: bool): Command {
    if cmd.AddDev? || IsQuery(cmd) then cmd else cmd.(path := path)
  }

  /** A control command: the device's flags decide whether its path goes along. */
  function Send(o: Env, w: World, cache: Option<Info>, cmd: Command): (World, Reply) {
    var (w1, r) := CachedQuery(o, w, cache, Target(cmd));
    if r.Ok? then Issue(o, w1, WithPath(cmd, Unprivileged(r.value)))
    else (w1, Failed(r.code))
  }

  // ---------------------------------------------------------------- daemon

  function Setup(o: Env, w: World, info: Info): (World, Result<bool>, Info) {
    var (w1, r) := Issue(o, w, AddDev(info));
    if r.GotInfo? then (w1, Ok(true), r.info)
    else if info.devId == ANY_ID || r != Failed(EEXIST) then (w1, Err(ErrorOf(r)), info)
    else TakeOver(o, w1, info)
  }

  /** The part of setup for a device that exists: its info, and the start of a recovery it needs. */
  function TakeOver(o: Env, w: World, info: Info): (World, Result<bool>, Info) {
    var (w1, q) := Query(o, w, info.devId, o.retries);
    if !q.Ok? then (w1, Err(q.code), info)
    else if UserRecovery(q.value) && NeedRecovery(q.value) then
      var (w2, s) := Send(o, w1, Some(q.value), StartRecovery(q.value.devId, false));
      (w2, if s.Failed? then Err(s.code) else Ok(false), q.value)
    else (w1, Ok(false), q.value)
  }

  function Configure(o: Env, w: World, cache: Option<Info>, id: DevId, params: Params, sizeOf: nat)
      : (World, Result<bool>, Params)
  {
    var (w1, q) := CachedQuery(o, w, cache, id);
    if !q.Ok? then (w1, Err(q.code), params)
    else if q.value.state.Dead? then
      var (w2, r) := Send(o, w1, Some(q.value), SetParams(id, params.(len := sizeOf), false));
      (w2, if r.Failed? then Err(r.code) else Ok(true), params)
    else
      var (w2, r) := Send(o, w1, Some(q.value), GetParams(id, false));
      if r.GotParams? then (w2, Ok(false), r.params)
      else (w2, Err(ErrorOf(r)), params.(len := sizeOf))
  }

  function Start(o: Env, w: World, cache: Option<Info>, id: DevId, pid: int): (World, Result<()>) {
    var (w1, q) := CachedQuery(o, w, cache, id);
    if !q.Ok? then (w1, Err(q.code))
    else if !NeedRecovery(q.value) then
      var (w2, r) := Send(o, w1, Some(q.value), StartDev(id, pid, false));
      (w2, if r.Failed? then Err(r.code) else Ok(()))
    else if UserRecovery(q.value) then
      var (w2, r) := Send(o, w1, Some(q.value), EndRecovery(id, pid, false));
      (w2, if r.Failed? then Err(r.code) else Ok(()))
    else (w1, Err(NOT_STARTABLE))
  }
}
