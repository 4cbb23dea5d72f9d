/** What every sequence of setup, configure and start calls does to the devices and to the
    commands the driver sees. */
module DaemonRuns {
  import opened Options
  import opened DaemonLifecycle

  ghost predicate WellFormed(w: World) {
    forall id :: id in w.devices ==> w.devices[id].info.devId == id
  }

  /** Recovery of the device was begun. */
  ghost predicate Begun(log: seq<Entry>, id: DevId) {
    exists i :: 0 <= i < |log| && log[i].refusal == 0 && log[i].cmd.StartRecovery? && log[i].cmd.id == id
  }

  /** Recovery ends only where it was begun, and only a dead device gets parameters. */
  ghost predicate MayFollow(log: seq<Entry>, e: Entry) {
    && (e.cmd.EndRecovery? ==> Begun(log, e.cmd.id))
    && (e.cmd.SetParams? ==> e.state == Some(Dead))
  }

  ghost predicate Orderly(log: seq<Entry>) {
    forall j :: 0 <= j < |log| ==> MayFollow(log[..j], log[j])
  }

  lemma OrderlySnoc(log: seq<Entry>, e: Entry)
    ensures Orderly(log + [e]) <==> Orderly(log) && MayFollow(log, e)
    ensures forall id :: Begun(log + [e], id) <==>
                         Begun(log, id) || (e.refusal == 0 && e.cmd.StartRecovery? && e.cmd.id == id)
  {
    var more := log + [e];
    assert more[|log|] == e && more[..|log|] == log;
    forall j | 0 <= j < |log| ensures more[j] == log[j] && more[..j] == log[..j] {}
    forall id | Begun(log, id) ensures Begun(more, id) {
      var i :| 0 <= i < |log| && log[i].refusal == 0 && log[i].cmd.StartRecovery? && log[i].cmd.id == id;
      assert more[i] == log[i];
    }
    if Orderly(more) {
      forall j | 0 <= j < |log| ensures MayFollow(log[..j], log[j]) {
        assert MayFollow(more[..j], more[j]);
      }
      assert MayFollow(more[..|log|], more[|log|]);
    }
  }

  /** A device that was set up has recovery begun if it needs and supports it. */
  ghost predicate Prepared(w: World, id: DevId) {
    && id in w.devices
    && var info := w.devices[id].info;
       UserRecovery(info) && NeedRecovery(info) ==> Begun(w.log, id)
  }

  ghost predicate Inv(w: World, ready: set<DevId>) {
    WellFormed(w) && Orderly(w.log) && forall id :: id in ready ==> Prepared(w, id)
  }

  function StateOf(w: World, id: DevId): Option<DevState> {
    if id in w.devices then Some(w.devices[id].info.state) else None
  }

  lemma IssueKeeps(o: Env, w: World, cmd: Command, ready: set<DevId>)
    requires Inv(w, ready)
    requires cmd.EndRecovery? ==> Begun(w.log, cmd.id)
    requires cmd.SetParams? ==> StateOf(w, cmd.id) == Some(Dead)
    ensures var (w', r) := Issue(o, w, cmd);
            && Inv(w', ready)
            && (forall id :: Begun(w.log, id) ==> Begun(w'.log, id))
            && (cmd.StartRecovery? && !r.Failed? ==> Begun(w'.log, cmd.id))
  {
    var w' := Issue(o, w, cmd).0;
    OrderlySnoc(w.log, w'.log[|w.log|]);
    assert w'.log == w.log + [w'.log[|w.log|]];
    forall id | id in ready ensures Prepared(w', id) {
      assert Prepared(w, id);
    }
  }

  /** A query changes no device, and its answer is the device's info. */
  lemma {:induction false} QueryMeaning(o: Env, w: World, id: DevId, retries: nat)
    ensures var (w', r) := Query(o, w, id, retries);
            w'.devices == w.devices && (r.Ok? ==> id in w.devices && r.value == w.devices[id].info)
    decreases retries
  {
    var (w1, r) := Issue(o, w, GetDevInfo2(id));
    if r == Failed(EACCES) && retries > 0 {
      QueryMeaning(o, w1, id, retries - 1);
    }
  }

  lemma {:induction false} QueryKeeps(o: Env, w: World, id: DevId, retries: nat, ready: set<DevId>)
    requires Inv(w, ready)
    ensures var (w', r) := Query(o, w, id, retries);
            Inv(w', ready) && forall d :: Begun(w.log, d) ==> Begun(w'.log, d)
    decreases retries
  {
    IssueKeeps(o, w, GetDevInfo2(id), ready);
    var (w1, r) := Issue(o, w, GetDevInfo2(id));
    if r == Failed(EACCES) {
      if retries > 0 {
        QueryKeeps(o, w1, id, retries - 1, ready);
      }
    } else if r == Failed(EOPNOTSUPP) {
      IssueKeeps(o, w1, GetDevInfo(id), ready);
    }
  }

  /** A cached info that would be used is the device's own. */
  predicate Accurate(w: World, cache: Option<Info>, id: DevId) {
    Hit(cache, id) ==> id in w.devices && cache.value == w.devices[id].info
  }

  lemma CachedMeaning(o: Env, w: World, cache: Option<Info>, id: DevId)
    requires Accurate(w, cache, id)
    ensures var (w', r) := CachedQuery(o, w, cache, id);
            w'.devices == w.devices && (r.Ok? ==> id in w.devices && r.value == w.devices[id].info)
  {
    QueryMeaning(o, w, id, o.retries);
  }

  lemma CachedKeeps(o: Env, w: World, cache: Option<Info>, id: DevId, ready: set<DevId>)
    requires Inv(w, ready) && Accurate(w, cache, id)
    ensures var (w', r) := CachedQuery(o, w, cache, id);
            && Inv(w', ready) && (forall d :: Begun(w.log, d) ==> Begun(w'.log, d))
            && w'.devices == w.devices
            && (r.Ok? ==> id in w.devices && r.value == w.devices[id].info)
  {
    CachedMeaning(o, w, cache, id);
    if !Hit(cache, id) {
      QueryKeeps(o, w, id, o.retries, ready);
    }
  }

  lemma SetupKeeps(o: Env, w: World, info: Info, ready: set<DevId>)
    requires Inv(w, ready)
    ensures var (w', r, info') := Setup(o, w, info);
            Inv(w', if r.Ok? then ready + {info'.devId} else ready)
  {
    IssueKeeps(o, w, AddDev(info), ready);
    var (w1, r) := Issue(o, w, AddDev(info));
    if !r.GotInfo? && info.devId != ANY_ID && r == Failed(EEXIST) {
      QueryKeeps(o, w1, info.devId, o.retries, ready);
      QueryMeaning(o, w1, info.devId, o.retries);
      var (w2, q) := Query(o, w1, info.devId, o.retries);
      if q.Ok? && UserRecovery(q.value) && NeedRecovery(q.value) {
        IssueKeeps(o, w2, StartRecovery(info.devId, Unprivileged(q.value)), ready);
      }
    }
  }

  lemma ConfigureKeeps(o: Env, w: World, cache: Option<Info>, id: DevId, params: Params, size: nat, ready: set<DevId>)
    requires Inv(w, ready) && Accurate(w, cache, id)
    ensures Inv(Configure(o, w, cache, id, params, size).0, ready)
  {
    CachedKeeps(o, w, cache, id, ready);
    var (w1, q) := CachedQuery(o, w, cache, id);
    if q.Ok? {
      if q.value.state.Dead? {
        IssueKeeps(o, w1, SetParams(id, params.(len := size), Unprivileged(q.value)), ready);
      } else {
        IssueKeeps(o, w1, GetParams(id, Unprivileged(q.value)), ready);
      }
    }
  }

  lemma StartKeeps(o: Env, w: World, cache: Option<Info>, id: DevId, pid: int, ready: set<DevId>)
    requires Inv(w, ready) && Accurate(w, cache, id) && id in ready
    ensures Inv(Start(o, w, cache, id, pid).0, ready)
  {
    CachedKeeps(o, w, cache, id, ready);
    var (w1, q) := CachedQuery(o, w, cache, id);
    if q.Ok? {
      if !NeedRecovery(q.value) {
        IssueKeeps(o, w1, StartDev(id, pid, Unprivileged(q.value)), ready);
      } else if UserRecovery(q.value) {
        assert Prepared(w, id);
        IssueKeeps(o, w1, EndRecovery(id, pid, Unprivileged(q.value)), ready);
      }
    }
  }

  // ---------------------------------------------------------------- runs

  datatype Call =
    | CallSetup(info: Info)
    | CallConfigure(cache: Option<Info>, id: DevId, params: Params, size: nat)
    | CallStart(cache: Option<Info>, id: DevId, pid: int)

  /** `ready` holds the devices whose setup has succeeded. */
  datatype Session = Session(w: World, ready: set<DevId>)

  /** Caches are accurate, and a device is started only after its setup. */
  predicate Allowed(s: Session, c: Call) {
    match c
    case CallSetup(_) => true
    case CallConfigure(cache, id, _, _) => Accurate(s.w, cache, id)
    case CallStart(cache, id, _) => Accurate(s.w, cache, id) && id in s.ready
  }

  function Do(o: Env, s: Session, c: Call): Session {
    match c
    case CallSetup(info) =>
      var (w, r, info') := Setup(o, s.w, info);
      Session(w, if r.Ok? then s.ready + {info'.devId} else s.ready)
    case CallConfigure(cache, id, params, size) => s.(w := Configure(o, s.w, cache, id, params, size).0)
    case CallStart(cache, id, pid) => s.(w := Start(o, s.w, cache, id, pid).0)
  }

  predicate Runs(o: Env, s: Session, calls: seq<Call>, s': Session)
    decreases |calls|
  {
    if calls == [] then s' == s
    else Allowed(s, calls[0]) && Runs(o, Do(o, s, calls[0]), calls[1..], s')
  }

  lemma {:induction false} RunKeeps(o: Env, s: Session, calls: seq<Call>, s': Session)
    requires Inv(s.w, s.ready) && Runs(o, s, calls, s')
    ensures Inv(s'.w, s'.ready)
    decreases |calls|
  {
    if calls != [] {
      match calls[0] {
        case CallSetup(info) => SetupKeeps(o, s.w, info, s.ready);
        case CallConfigure(cache, id, params, size) => ConfigureKeeps(o, s.w, cache, id, params, size, s.ready);
        case CallStart(cache, id, pid) => StartKeeps(o, s.w, cache, id, pid, s.ready);
      }
      RunKeeps(o, Do(o, s, calls[0]), calls[1..], s');
    }
  }

  /** However many calls are made, in whatever order, on whatever devices, and whichever commands
      the driver refuses: recovery is ended only after it was begun, and parameters are set only on
      a dead device. */
  lemma RecoveryPairing(o: Env, w: World, calls: seq<Call>, s: Session)
    requires WellFormed(w) && w.log == [] && Runs(o, Session(w, {}), calls, s)
    ensures Orderly(s.w.log)
  {
    RunKeeps(o, Session(w, {}), calls, s);
  }

  /** The info a call is decided on asks for nothing out of order: an end of recovery only where it was
      begun, parameters only for a dead device. */
  ghost predicate InOrder(o: Env, w: World, c: Call) {
    match c
    case CallSetup(_) => true
    case CallConfigure(cache, id, _, _) =>
      var q := CachedQuery(o, w, cache, id).1;
      q.Ok? && q.value.state.Dead? ==> StateOf(w, id) == Some(Dead)
    case CallStart(cache, id, _) =>
      var q := CachedQuery(o, w, cache, id).1;
      q.Ok? && NeedRecovery(q.value) && UserRecovery(q.value) ==> Begun(w.log, id)
  }

  /** Every call of a run, at its time. */
  ghost predicate AllInOrder(o: Env, s: Session, calls: seq<Call>)
    decreases |calls|
  {
    calls == [] || (InOrder(o, s.w, calls[0]) && AllInOrder(o, Do(o, s, calls[0]), calls[1..]))
  }

  function RunAll(o: Env, s: Session, calls: seq<Call>): Session
    decreases |calls|
  {
    if calls == [] then s else RunAll(o, Do(o, s, calls[0]), calls[1..])
  }

  /** A query leaves the order of a log, the devices and the recoveries begun as they are. */
  lemma {:induction false} QueryOrder(o: Env, w: World, id: DevId, retries: nat)
    ensures var w' := Query(o, w, id, retries).0;
            && (Orderly(w'.log) <==> Orderly(w.log)) && w.log <= w'.log
            && w'.devices == w.devices && forall d :: Begun(w'.log, d) <==> Begun(w.log, d)
    decreases retries
  {
    IssueOrder(o, w, GetDevInfo2(id));
    var (w1, r) := Issue(o, w, GetDevInfo2(id));
    if r == Failed(EACCES) {
      if retries > 0 {
        QueryOrder(o, w1, id, retries - 1);
      }
    } else if r == Failed(EOPNOTSUPP) {
      IssueOrder(o, w1, GetDevInfo(id));
    }
  }

  lemma IssueOrder(o: Env, w: World, cmd: Command)
    ensures var w' := Issue(o, w, cmd).0;
            && w.log <= w'.log
            && (Orderly(w'.log) <==>
                  && Orderly(w.log)
                  && (cmd.EndRecovery? ==> Begun(w.log, cmd.id))
                  && (cmd.SetParams? ==> StateOf(w, cmd.id) == Some(Dead)))
            && (!cmd.StartRecovery? ==> forall d :: Begun(w'.log, d) <==> Begun(w.log, d))
            && (IsQuery(cmd) ==> w'.devices == w.devices)
  {
    var w' := Issue(o, w, cmd).0;
    OrderlySnoc(w.log, w'.log[|w.log|]);
    assert w'.log == w.log + [w'.log[|w.log|]];
  }

  lemma CachedOrder(o: Env, w: World, cache: Option<Info>, id: DevId)
    ensures var w' := CachedQuery(o, w, cache, id).0;
            && (Orderly(w'.log) <==> Orderly(w.log)) && w.log <= w'.log
            && w'.devices == w.devices && forall d :: Begun(w'.log, d) <==> Begun(w.log, d)
  {
    QueryOrder(o, w, id, o.retries);
  }

  lemma SetupOrder(o: Env, w: World, info: Info)
    ensures Orderly(Setup(o, w, info).0.log) <==> Orderly(w.log)
    ensures w.log <= Setup(o, w, info).0.log
  {
    IssueOrder(o, w, AddDev(info));
    var (w1, r) := Issue(o, w, AddDev(info));
    if !r.GotInfo? && info.devId != ANY_ID && r == Failed(EEXIST) {
      QueryOrder(o, w1, info.devId, o.retries);
      var (w2, q) := Query(o, w1, info.devId, o.retries);
      if q.Ok? && UserRecovery(q.value) && NeedRecovery(q.value) {
        IssueOrder(o, w2, StartRecovery(q.value.devId, Unprivileged(q.value)));
      }
    }
  }

  /** The info that a query through the cache yields is about the device asked for. */
  lemma CachedId(o: Env, w: World, cache: Option<Info>, id: DevId)
    requires WellFormed(w)
    ensures CachedQuery(o, w, cache, id).1.Ok? ==> CachedQuery(o, w, cache, id).1.value.devId == id
  {
    QueryMeaning(o, w, id, o.retries);
  }

  lemma ConfigureOrder(o: Env, w: World, cache: Option<Info>, id: DevId, params: Params, size: nat)
    requires WellFormed(w)
    ensures var w' := Configure(o, w, cache, id, params, size).0;
            && w.log <= w'.log
            && (Orderly(w'.log) <==> Orderly(w.log) && InOrder(o, w, CallConfigure(cache, id, params, size)))
  {
    CachedOrder(o, w, cache, id);
    CachedId(o, w, cache, id);
    var (w1, q) := CachedQuery(o, w, cache, id);
    if q.Ok? {
      if q.value.state.Dead? {
        IssueOrder(o, w1, SetParams(id, params.(len := size), Unprivileged(q.value)));
      } else {
        IssueOrder(o, w1, GetParams(id, Unprivileged(q.value)));
      }
    }
  }

  lemma StartOrder(o: Env, w: World, cache: Option<Info>, id: DevId, pid: int)
    requires WellFormed(w)
    ensures var w' := Start(o, w, cache, id, pid).0;
            && w.log <= w'.log
            && (Orderly(w'.log) <==> Orderly(w.log) && InOrder(o, w, CallStart(cache, id, pid)))
  {
    CachedOrder(o, w, cache, id);
    CachedId(o, w, cache, id);
    var (w1, q) := CachedQuery(o, w, cache, id);
    if q.Ok? {
      if !NeedRecovery(q.value) {
        IssueOrder(o, w1, StartDev(id, pid, Unprivileged(q.value)));
      } else if UserRecovery(q.value) {
        IssueOrder(o, w1, EndRecovery(id, pid, Unprivileged(q.value)));
      }
    }
  }

  lemma IssueKeepsForm(o: Env, w: World, cmd: Command)
    requires WellFormed(w)
    ensures WellFormed(Issue(o, w, cmd).0)
  {
  }

  lemma ConfigureKeepsForm(o: Env, w: World, cache: Option<Info>, id: DevId, params: Params, size: nat)
    requires WellFormed(w)
    ensures WellFormed(Configure(o, w, cache, id, params, size).0)
  {
    CachedOrder(o, w, cache, id);
    CachedId(o, w, cache, id);
    var (w1, q) := CachedQuery(o, w, cache, id);
    if q.Ok? {
      if q.value.state.Dead? {
        IssueKeepsForm(o, w1, SetParams(id, params.(len := size), Unprivileged(q.value)));
      } else {
        IssueKeepsForm(o, w1, GetParams(id, Unprivileged(q.value)));
      }
    }
  }

  lemma StartKeepsForm(o: Env, w: World, cache: Option<Info>, id: DevId, pid: int)
    requires WellFormed(w)
    ensures WellFormed(Start(o, w, cache, id, pid).0)
  {
    CachedOrder(o, w, cache, id);
    CachedId(o, w, cache, id);
    var (w1, q) := CachedQuery(o, w, cache, id);
    if q.Ok? {
      if !NeedRecovery(q.value) {
        IssueKeepsForm(o, w1, StartDev(id, pid, Unprivileged(q.value)));
      } else if UserRecovery(q.value) {
        IssueKeepsForm(o, w1, EndRecovery(id, pid, Unprivileged(q.value)));
      }
    }
  }

  lemma DoKeepsForm(o: Env, s: Session, c: Call)
    requires WellFormed(s.w)
    ensures WellFormed(Do(o, s, c).w)
  {
    match c
    case CallSetup(info) => SetupKeepsForm(o, s.w, info);
    case CallConfigure(cache, id, params, size) => ConfigureKeepsForm(o, s.w, cache, id, params, size);
    case CallStart(cache, id, pid) => StartKeepsForm(o, s.w, cache, id, pid);
  }

  /** For every run of calls, without any condition on the callers: the pairing of recoveries and the rule
      for parameters are kept if and only if every call was in order at its time. */
  lemma {:induction false} RecoveryPairingIff(o: Env, s: Session, calls: seq<Call>)
    requires WellFormed(s.w)
    ensures Orderly(RunAll(o, s, calls).w.log) <==> Orderly(s.w.log) && AllInOrder(o, s, calls)
    decreases |calls|
  {
    if calls != [] {
      match calls[0] {
        case CallSetup(info) => SetupOrder(o, s.w, info);
        case CallConfigure(cache, id, params, size) => ConfigureOrder(o, s.w, cache, id, params, size);
        case CallStart(cache, id, pid) => StartOrder(o, s.w, cache, id, pid);
      }
      DoKeepsForm(o, s, calls[0]);
      RecoveryPairingIff(o, Do(o, s, calls[0]), calls[1..]);
    }
  }

  /** The two conditions on callers are exact. Starting a device keeps the pairing if and only if the
      info it is decided on asks for no recovery or recovery was begun. */
  lemma StartPairsIff(o: Env, w: World, info: Info, id: DevId, pid: int)
    requires Orderly(w.log) && info.devId == id
    ensures Orderly(Start(o, w, Some(info), id, pid).0.log) <==>
            (NeedRecovery(info) && UserRecovery(info) ==> Begun(w.log, id))
  {
    var log := Start(o, w, Some(info), id, pid).0.log;
    if !NeedRecovery(info) || UserRecovery(info) {
      OrderlySnoc(w.log, log[|w.log|]);
      assert log == w.log + [log[|w.log|]];
    }
  }

  /** Configuring keeps "parameters only when dead" if and only if a cached info that says the device
      is dead is right about it. */
  lemma ConfigureIsOrderlyIff(o: Env, w: World, info: Info, id: DevId, params: Params, size: nat)
    requires Orderly(w.log) && info.devId == id
    ensures Orderly(Configure(o, w, Some(info), id, params, size).0.log) <==>
            (info.state.Dead? ==> StateOf(w, id) == Some(Dead))
  {
    var log := Configure(o, w, Some(info), id, params, size).0.log;
    OrderlySnoc(w.log, log[|w.log|]);
    assert log == w.log + [log[|w.log|]];
  }

  // ---------------------------------------------------------------- single calls

  /** A driver that refuses nothing it could do. */
  ghost predicate Willing(o: Env) {
    forall n :: o.answer(n).fault == 0
  }

  /** The last command of the call asked for parameters. */
  predicate LastIsGetParams(w: World, w': World) {
    |w'.log| > |w.log| && w'.log[|w'.log| - 1].cmd.GetParams?
  }

  predicate AgreeUpToLen(p: Params, q: Params) {
    p.body == q.body
  }

  /** `configure` returns true exactly when the device was dead; afterwards the caller's and the
      device's parameters agree up to the length field, and the device is otherwise unchanged. They
      agree entirely if and only if the device was not dead or the caller had filled in the length:
      the dead branch does not write back. */
  lemma ConfigureMeaning(o: Env, w: World, cache: Option<Info>, id: DevId, params: Params, size: nat)
    requires WellFormed(w) && Accurate(w, cache, id)
    ensures var (w', r, params') := Configure(o, w, cache, id, params, size);
            && (forall d :: d != id ==> (d in w.devices <==> d in w'.devices)
                                        && (d in w.devices ==> w'.devices[d] == w.devices[d]))
            && (!r.Ok? ==> w'.devices == w.devices)
            && (!r.Ok? ==> params' == if LastIsGetParams(w, w') then params.(len := size) else params)
            && (r.Ok? ==>
                  && id in w.devices && id in w'.devices
                  && r.value == w.devices[id].info.state.Dead?
                  && w'.devices[id].info == w.devices[id].info
                  && AgreeUpToLen(params', w'.devices[id].params)
                  && AgreeUpToLen(w'.devices[id].params, if r.value then params else w.devices[id].params)
                  && (params' == w'.devices[id].params <==> !w.devices[id].info.state.Dead? || params.len == size))
  {
    CachedMeaning(o, w, cache, id);
    CachedLast(o, w, cache, id);
  }

  /** The last command of a query is a query. */
  lemma {:induction false} QueryLast(o: Env, w: World, id: DevId, retries: nat)
    ensures var w' := Query(o, w, id, retries).0; |w'.log| > |w.log| && IsQuery(w'.log[|w'.log| - 1].cmd)
    decreases retries
  {
    var (w1, r) := Issue(o, w, GetDevInfo2(id));
    if r == Failed(EACCES) && retries > 0 {
      QueryLast(o, w1, id, retries - 1);
    }
  }

  lemma CachedLast(o: Env, w: World, cache: Option<Info>, id: DevId)
    ensures var w' := CachedQuery(o, w, cache, id).0; |w.log| <= |w'.log| && !LastIsGetParams(w, w')
  {
    QueryLast(o, w, id, o.retries);
  }

  /** A dead device whose effective parameters are not written back. */
  lemma NotWrittenBack(o: Env)
    requires Willing(o)
    ensures var d := Device(Info(7, Dead, Flags(false, false), 0), Params(0, 0));
            var (w, r, params) := Configure(o, World(map[7 := d], [], []), None, 7, Params(0, 5), 128);
            r == Ok(true) && 7 in w.devices && params != w.devices[7].params
  {
  }

  /** A started device is live, and nothing else changed. After a successful info query, `start` gives
      up without sending a command if and only if the device needs recovery and does not support it. */
  lemma StartMeaning(o: Env, w: World, cache: Option<Info>, id: DevId, pid: int)
    requires WellFormed(w) && Accurate(w, cache, id)
    ensures var (w', r) := Start(o, w, cache, id, pid);
            && (!r.Ok? ==> w'.devices == w.devices)
            && (r.Ok? ==> id in w.devices && w'.devices == w.devices[id := Go(w.devices[id], Live)])
            && (CachedQuery(o, w, cache, id).1.Ok? ==>
                  && id in w.devices
                  && (r == Err(NOT_STARTABLE) <==>
                        NeedRecovery(w.devices[id].info) && !UserRecovery(w.devices[id].info)))
  {
    CachedMeaning(o, w, cache, id);
  }

  /** Setup leaves a device behind whose info it reports; it returns true exactly when the device is
      new, and touches no existing device. */
  lemma SetupMeaning(o: Env, w: World, info: Info)
    requires WellFormed(w)
    ensures var (w', r, info') := Setup(o, w, info);
            && (forall d :: d in w.devices ==> d in w'.devices && w'.devices[d] == w.devices[d])
            && (r.Ok? ==>
                  && info'.devId in w'.devices && w'.devices[info'.devId].info == info'
                  && (info.devId != ANY_ID ==> info'.devId == info.devId)
                  && (r.value <==> info'.devId !in w.devices)
                  && (r.value ==> info'.state.Dead?))
  {
    var w1 := Issue(o, w, AddDev(info)).0;
    QueryMeaning(o, w1, info.devId, o.retries);
  }

  /** Setup by the answer to add_dev: a new device ends it, a refusal ends it unless it says that a device
      with the given id exists, and only then does it go on to take the device over. The caller's info is
      changed exactly by what was found. */
  lemma SetupOutcome(o: Env, w: World, info: Info)
    requires WellFormed(w)
    ensures var (w', r, info') := Setup(o, w, info);
            var a := o.answer(|w.log|);
            var taken := (if info.devId == ANY_ID then a.id else info.devId) in w.devices;
            && (a.fault == 0 && !taken ==> r == Ok(true) && |w'.log| == |w.log| + 1)
            && (a.fault > 0 && a.fault != 17 ==> r == Err(a.fault) && |w'.log| == |w.log| + 1)
            && (info.devId == ANY_ID && (a.fault > 0 || taken) ==> r.Err? && |w'.log| == |w.log| + 1)
            && (a.fault == 17 || taken ==> r != Ok(true))
            && (r.Err? ==> info' == info
                           || (w'.log[|w'.log| - 1].cmd.StartRecovery?
                               && info.devId in w.devices && info' == w.devices[info.devId].info))
  {
    var w1 := Issue(o, w, AddDev(info)).0;
    QueryMeaning(o, w1, info.devId, o.retries);
    assert |w1.log| == |w.log| + 1;
  }

  // ---------------------------------------------------------------- queries

  /** What the driver answers to a query about the device as its n-th command: 0 if it accepts. */
  function QueryCode(o: Env, w: World, id: DevId, n: nat): nat {
    if o.answer(n).fault > 0 then o.answer(n).fault else if id in w.devices then 0 else 19
  }

  /** The log grew by exactly these commands about the device. */
  ghost predicate Grew(w: World, w': World, id: DevId, tries: nat, older: bool) {
    && w.log <= w'.log && |w'.log| == |w.log| + tries + (if older then 1 else 0)
    && (forall j :: |w.log| <= j < |w.log| + tries ==> w'.log[j].cmd == GetDevInfo2(id))
    && (older ==> w'.log[|w'.log| - 1].cmd == GetDevInfo(id))
  }

  lemma GrewOnce(o: Env, w: World, id: DevId, w': World, tries: nat, older: bool)
    requires Grew(Issue(o, w, GetDevInfo2(id)).0, w', id, tries, older)
    ensures Grew(w, w', id, tries + 1, older)
  {
    var w1 := Issue(o, w, GetDevInfo2(id)).0;
    assert w1.log[|w.log|].cmd == GetDevInfo2(id) && w'.log[|w.log|] == w1.log[|w.log|];
  }

  /** get_dev_info by the driver's answers: it is tried until the first answer other than EACCES, here the one
      to command number n. If that answer accepts, it is the result; if it says the command is not supported,
      the older command is sent, once, and its answer is the result; any other error is reported. */
  lemma {:induction false} QueryRetries(o: Env, w: World, id: DevId, retries: nat, n: nat)
    requires |w.log| <= n <= |w.log| + retries && QueryCode(o, w, id, n) != 13
    requires forall j :: |w.log| <= j < n ==> QueryCode(o, w, id, j) == 13
    ensures var (w', r) := Query(o, w, id, retries);
            var code := QueryCode(o, w, id, n);
            && Grew(w, w', id, n + 1 - |w.log|, code == 95)
            && (code == 0 ==> id in w.devices && r == Ok(w.devices[id].info))
            && (code == 95 ==>
                  var older := QueryCode(o, w, id, n + 1);
                  if older == 0 then id in w.devices && r == Ok(w.devices[id].info) else r == Err(older))
            && (code != 0 && code != 95 ==> r == Err(code))
    decreases retries
  {
    var w1 := Issue(o, w, GetDevInfo2(id)).0;
    SameCodes(o, w, w1, id);
    if n > |w.log| {
      assert QueryCode(o, w, id, |w.log|) == 13;
      QueryRetries(o, w1, id, retries - 1, n);
      GrewOnce(o, w, id, Query(o, w1, id, retries - 1).0, n - |w.log|, QueryCode(o, w, id, n) == 95);
    } else {
      FirstTry(o, w, id, retries);
    }
  }

  /** The case in which the first answer decides. */
  lemma FirstTry(o: Env, w: World, id: DevId, retries: nat)
    requires QueryCode(o, w, id, |w.log|) != 13
    ensures var (w', r) := Query(o, w, id, retries);
            var code := QueryCode(o, w, id, |w.log|);
            && Grew(w, w', id, 1, code == 95)
            && (code == 0 ==> id in w.devices && r == Ok(w.devices[id].info))
            && (code == 95 ==>
                  var older := QueryCode(o, w, id, |w.log| + 1);
                  if older == 0 then id in w.devices && r == Ok(w.devices[id].info) else r == Err(older))
            && (code != 0 && code != 95 ==> r == Err(code))
  {
    var w1 := Issue(o, w, GetDevInfo2(id)).0;
    assert |w1.log| == |w.log| + 1;
  }

  lemma SameCodes(o: Env, w: World, w1: World, id: DevId)
    requires w1 == Issue(o, w, GetDevInfo2(id)).0
    ensures |w1.log| == |w.log| + 1 && w1.devices == w.devices
    ensures forall n :: QueryCode(o, w1, id, n) == QueryCode(o, w, id, n)
  {
  }

  /** If all tries are denied, there are exactly one more than the retries, and EACCES is reported. */
  lemma {:induction false} QueryExhausted(o: Env, w: World, id: DevId, retries: nat)
    requires forall j :: |w.log| <= j <= |w.log| + retries ==> QueryCode(o, w, id, j) == 13
    ensures var (w', r) := Query(o, w, id, retries); Grew(w, w', id, retries + 1, false) && r == Err(13)
    decreases retries
  {
    var w1 := Issue(o, w, GetDevInfo2(id)).0;
    SameCodes(o, w, w1, id);
    assert QueryCode(o, w, id, |w.log|) == 13;
    if retries > 0 {
      QueryExhausted(o, w1, id, retries - 1);
      GrewOnce(o, w, id, Query(o, w1, id, retries - 1).0, retries, false);
    }
  }

  /** Every call that needs the info, and has it from no cache, has the patience of all its retries: it goes
      on with the device's info if one of that many tries is accepted after denials only. */
  lemma CallsRetry(o: Env, w: World, cache: Option<Info>, info: Info, n: nat)
    requires var id := info.devId;
             && |w.log| <= n <= |w.log| + o.retries && QueryCode(o, w, id, n) == 0
             && (forall j :: |w.log| <= j < n ==> QueryCode(o, w, id, j) == 13)
             && (cache.None? || cache.value.devId != id)
    ensures info.devId in w.devices
    ensures CachedQuery(o, w, cache, info.devId).1 == Ok(w.devices[info.devId].info)
    ensures TakeOver(o, w, info).2 == w.devices[info.devId].info
  {
    QueryRetries(o, w, info.devId, o.retries, n);
  }

  // ---------------------------------------------------------------- caches

  /** A cached info about another device is ignored. */
  lemma CacheMiss(o: Env, w: World, info: Info, id: DevId, params: Params, size: nat, pid: int, cmd: Command)
    requires info.devId != id && Target(cmd) == id
    ensures Send(o, w, Some(info), cmd) == Send(o, w, None, cmd)
    ensures Configure(o, w, Some(info), id, params, size) == Configure(o, w, None, id, params, size)
    ensures Start(o, w, Some(info), id, pid) == Start(o, w, None, id, pid)
  {
  }

  /** With a cached info about its device a control command is the only thing sent, and the path goes along
      exactly for an unprivileged device. */
  lemma CacheHitSends(o: Env, w: World, info: Info, cmd: Command)
    requires info.devId == Target(cmd) && !cmd.AddDev? && !IsQuery(cmd)
    ensures var (w', r) := Send(o, w, Some(info), cmd);
            && |w'.log| == |w.log| + 1 && w'.log[|w.log|].cmd == cmd.(path := info.flags.unprivileged)
            && (w'.log[|w.log|].refusal == 0 <==> !r.Failed?)
  {
    IssueRefused(o, w, cmd.(path := info.flags.unprivileged));
  }

  /** A fresh query followed by the cached call is the uncached call, for every control command and for
      configure and start: the cache saves queries and changes nothing else, whatever the driver refuses. */
  lemma CacheTransparent(o: Env, w: World, id: DevId, params: Params, size: nat, pid: int, cmd: Command)
    requires WellFormed(w) && Target(cmd) == id
    ensures var (w1, q) := Query(o, w, id, o.retries);
            q.Ok? ==>
              && Accurate(w1, Some(q.value), id) && Hit(Some(q.value), id)
              && Send(o, w, None, cmd) == Send(o, w1, Some(q.value), cmd)
              && Configure(o, w, None, id, params, size) == Configure(o, w1, Some(q.value), id, params, size)
              && Start(o, w, None, id, pid) == Start(o, w1, Some(q.value), id, pid)
  {
    QueryMeaning(o, w, id, o.retries);
  }

  /** Of a cached info a control command uses the device id and one flag, configure the state besides,
      and start a second flag. */
  lemma CacheFlagsSuffice(o: Env, w: World, a: Info, b: Info, id: DevId, params: Params, size: nat, pid: int,
                          cmd: Command)
    requires a.devId == b.devId == id && Target(cmd) == id && Unprivileged(a) == Unprivileged(b)
    ensures Send(o, w, Some(a), cmd) == Send(o, w, Some(b), cmd)
    ensures a.state == b.state ==>
              Configure(o, w, Some(a), id, params, size) == Configure(o, w, Some(b), id, params, size)
    ensures a.state == b.state && UserRecovery(a) == UserRecovery(b) ==>
              Start(o, w, Some(a), id, pid) == Start(o, w, Some(b), id, pid)
  {
  }

  // ---------------------------------------------------------------- a whole start-up

  /** What the documented order of calls asks of the driver, by the state the device is found in. */
  function Expected(info: Info, found: Info, created: bool, params: Params, pid: int): seq<Command> {
    var id, path := found.devId, found.flags.unprivileged;
    if created || found.state.Dead? then [AddDev(info), SetParams(id, params, path), StartDev(id, pid, path)]
    else if found.state.Live? then [AddDev(info), GetParams(id, path), StartDev(id, pid, path)]
    else if found.flags.userRecovery then
      [AddDev(info), StartRecovery(id, path), GetParams(id, path), EndRecovery(id, pid, path)]
    else [AddDev(info), GetParams(id, path)]
  }

  function RecoveryActs(created: bool, found: Info): seq<Command> {
    if !created && UserRecovery(found) && NeedRecovery(found)
    then [StartRecovery(found.devId, Unprivileged(found))] else []
  }

  function ConfigureActs(found: Info, params: Params): seq<Command> {
    if found.state.Dead? then [SetParams(found.devId, params, Unprivileged(found))]
    else [GetParams(found.devId, Unprivileged(found))]
  }

  function StartActs(found: Info, pid: int): seq<Command> {
    if !NeedRecovery(found) then [StartDev(found.devId, pid, Unprivileged(found))]
    else if UserRecovery(found) then [EndRecovery(found.devId, pid, Unprivileged(found))]
    else []
  }

  // What each call adds to the commands, whatever the driver refuses

  /** Whatever the cache says, the error of a call is the refusal of the last thing the driver saw, except
      for a start that gives up. */
  lemma ErrorsAreRefusals(o: Env, w: World, cache: Option<Info>, id: DevId, params: Params, size: nat, pid: int,
                          info: Info)
    requires WellFormed(w)
    ensures var (w', r, _) := Setup(o, w, info); r.Err? ==> Refused(w'.log, r.code)
    ensures var (w', r, _) := Configure(o, w, cache, id, params, size); r.Err? ==> Refused(w'.log, r.code)
    ensures var (w', r) := Start(o, w, cache, id, pid);
            r.Err? && r != Err(NOT_STARTABLE) ==> Refused(w'.log, r.code)
  {
    SetupSent(o, w, info);
    ConfigureRefused(o, w, cache, id, params, size);
    StartRefused(o, w, cache, id, pid);
  }

  lemma ConfigureRefused(o: Env, w: World, cache: Option<Info>, id: DevId, params: Params, size: nat)
    requires WellFormed(w)
    ensures var (w', r, _) := Configure(o, w, cache, id, params, size); r.Err? ==> Refused(w'.log, r.code)
  {
    QueryRefused(o, w, id, o.retries);
    CachedId(o, w, cache, id);
    var (w1, q) := CachedQuery(o, w, cache, id);
    if q.Ok? {
      if q.value.state.Dead? {
        IssueRefused(o, w1, SetParams(id, params.(len := size), Unprivileged(q.value)));
      } else {
        IssueRefused(o, w1, GetParams(id, Unprivileged(q.value)));
      }
    }
  }

  lemma StartRefused(o: Env, w: World, cache: Option<Info>, id: DevId, pid: int)
    requires WellFormed(w)
    ensures var (w', r) := Start(o, w, cache, id, pid);
            r.Err? && r != Err(NOT_STARTABLE) ==> Refused(w'.log, r.code)
  {
    QueryRefused(o, w, id, o.retries);
    CachedId(o, w, cache, id);
    var (w1, q) := CachedQuery(o, w, cache, id);
    if q.Ok? {
      if !NeedRecovery(q.value) {
        IssueRefused(o, w1, StartDev(id, pid, Unprivileged(q.value)));
      } else if UserRecovery(q.value) {
        IssueRefused(o, w1, EndRecovery(id, pid, Unprivileged(q.value)));
      }
    }
  }

  lemma {:induction false} QuerySends(o: Env, w: World, id: DevId, retries: nat)
    ensures Query(o, w, id, retries).0.sent == w.sent
    decreases retries
  {
    var (w1, r) := Issue(o, w, GetDevInfo2(id));
    if r == Failed(EACCES) {
      if retries > 0 {
        QuerySends(o, w1, id, retries - 1);
      }
    } else if r == Failed(EOPNOTSUPP) {
    }
  }

  /** The last thing the driver saw was refused, with this code. */
  predicate Refused(log: seq<Entry>, code: nat) {
    code > 0 && log != [] && log[|log| - 1].refusal == code
  }

  function CodeOf<T>(r: Result<T>): nat {
    if r.Err? then r.code else 0
  }

  lemma IssueRefused(o: Env, w: World, cmd: Command)
    ensures var (w', r) := Issue(o, w, cmd);
            && (r.Failed? ==> Refused(w'.log, r.code))
            && (cmd.GetParams? ==> r.GotParams? || r.Failed?) && (IsQuery(cmd) ==> r.GotInfo? || r.Failed?)
            && (cmd.AddDev? ==> r.GotInfo? || r.Failed?)
  {
  }

  lemma {:induction false} QueryRefused(o: Env, w: World, id: DevId, retries: nat)
    ensures var (w', r) := Query(o, w, id, retries); r.Err? ==> Refused(w'.log, r.code)
    decreases retries
  {
    IssueRefused(o, w, GetDevInfo2(id));
    var (w1, r) := Issue(o, w, GetDevInfo2(id));
    if r == Failed(EACCES) {
      if retries > 0 {
        QueryRefused(o, w1, id, retries - 1);
      }
    } else if r == Failed(EOPNOTSUPP) {
      IssueRefused(o, w1, GetDevInfo(id));
    }
  }

  /** The call sent all of `acts`, or it was refused before or at one of them. */
  ghost predicate Sent(w: World, w': World, acts: seq<Command>, code: nat) {
    && (code == 0 ==> w'.sent == w.sent + acts)
    && (code > 0 ==> Refused(w'.log, code) && (w'.sent == w.sent || w'.sent == w.sent + acts))
  }

  lemma IssueSent(o: Env, w: World, cmd: Command)
    requires !IsQuery(cmd)
    ensures var (w', r) := Issue(o, w, cmd);
            && Sent(w, w', [cmd], ErrorOf(r)) && (r.Failed? ==> r.code > 0)
            && (cmd.GetParams? ==> r.GotParams? || r.Failed?)
  {
    IssueRefused(o, w, cmd);
  }

  lemma TakeOverSent(o: Env, w: World, info: Info)
    requires WellFormed(w)
    ensures var (w', r, found) := TakeOver(o, w, info);
            && Sent(w, w', RecoveryActs(false, found), CodeOf(r)) && (r.Ok? ==> !r.value) && (r.Err? ==> r.code > 0)
  {
    QuerySends(o, w, info.devId, o.retries);
    QueryRefused(o, w, info.devId, o.retries);
    QueryMeaning(o, w, info.devId, o.retries);
    var (w1, q) := Query(o, w, info.devId, o.retries);
    if q.Ok? && UserRecovery(q.value) && NeedRecovery(q.value) {
      IssueSent(o, w1, StartRecovery(q.value.devId, Unprivileged(q.value)));
    }
  }

  lemma SetupSent(o: Env, w: World, info: Info)
    requires WellFormed(w)
    ensures var (w', r, found) := Setup(o, w, info);
            && (r.Ok? ==> w'.sent == w.sent + [AddDev(info)] + RecoveryActs(r.value, found))
            && (r.Err? ==>
                  && Refused(w'.log, r.code)
                  && (w'.sent == w.sent + [AddDev(info)]
                      || w'.sent == w.sent + [AddDev(info)] + RecoveryActs(false, found)))
  {
    IssueRefused(o, w, AddDev(info));
    var (w1, r) := Issue(o, w, AddDev(info));
    if !r.GotInfo? && info.devId != ANY_ID && r == Failed(EEXIST) {
      TakeOverSent(o, w1, info);
    }
  }

  lemma ConfigureSent(o: Env, w: World, found: Info, params: Params, size: nat)
    requires WellFormed(w) && found.devId in w.devices && w.devices[found.devId].info == found
    ensures var (w', r, _) := Configure(o, w, None, found.devId, params, size);
            Sent(w, w', ConfigureActs(found, params.(len := size)), CodeOf(r)) && (r.Err? ==> r.code > 0)
  {
    var id := found.devId;
    QuerySends(o, w, id, o.retries);
    QueryRefused(o, w, id, o.retries);
    QueryMeaning(o, w, id, o.retries);
    var (w1, q) := Query(o, w, id, o.retries);
    if q.Ok? {
      if found.state.Dead? {
        IssueSent(o, w1, SetParams(id, params.(len := size), Unprivileged(found)));
      } else {
        IssueSent(o, w1, GetParams(id, Unprivileged(found)));
      }
    }
  }

  lemma StartSent(o: Env, w: World, found: Info, pid: int)
    requires WellFormed(w) && found.devId in w.devices && w.devices[found.devId].info == found
    ensures var (w', r) := Start(o, w, None, found.devId, pid);
            && Sent(w, w', StartActs(found, pid), CodeOf(r))
            && (r == Err(NOT_STARTABLE) ==> NeedRecovery(found) && !UserRecovery(found))
            && (r.Ok? ==> NeedRecovery(found) ==> UserRecovery(found))
  {
    var id := found.devId;
    QuerySends(o, w, id, o.retries);
    QueryRefused(o, w, id, o.retries);
    QueryMeaning(o, w, id, o.retries);
    var (w1, q) := Query(o, w, id, o.retries);
    if q.Ok? {
      if !NeedRecovery(found) {
        IssueSent(o, w1, StartDev(id, pid, Unprivileged(found)));
      } else if UserRecovery(found) {
        IssueSent(o, w1, EndRecovery(id, pid, Unprivileged(found)));
      }
    }
  }

  /** The documented order of calls, up to the first that fails. */
  function Serve(o: Env, w: World, info: Info, params: Params, size: nat, pid: int): (World, Result<()>) {
    var (w1, r1, found) := Setup(o, w, info);
    if r1.Err? then (w1, Err(r1.code))
    else
      var (w2, r2, _) := Configure(o, w1, None, found.devId, params, size);
      if r2.Err? then (w2, Err(r2.code)) else Start(o, w2, None, found.devId, pid)
  }

  /** What the driver saw of the expected commands, and how the attempt ended. */
  ghost predicate Attempted(w: World, w': World, expected: seq<Command>, found: Info, r: Result<()>) {
    && w.sent <= w'.sent <= w.sent + expected
    && (r.Ok? || r == Err(NOT_STARTABLE) ==> w'.sent == w.sent + expected)
    && (r.Ok? ==>
          && (found.state.Dead? || found.state.Live? || found.flags.userRecovery)
          && found.devId in w'.devices && w'.devices[found.devId].info == found.(state := Live))
    && (r == Err(NOT_STARTABLE) ==> (found.state.Quiesced? || found.state.FailIo?) && !found.flags.userRecovery)
    && (r.Err? && r != Err(NOT_STARTABLE) ==> Refused(w'.log, r.code))
  }

  lemma RestAttempted(o: Env, w: World, found: Info, params: Params, size: nat, pid: int)
    requires WellFormed(w) && found.devId in w.devices && w.devices[found.devId].info == found
    ensures var (w2, r2, _) := Configure(o, w, None, found.devId, params, size);
            var (w3, r) := if r2.Err? then (w2, Err(r2.code)) else Start(o, w2, None, found.devId, pid);
            Attempted(w, w3, ConfigureActs(found, params.(len := size)) + StartActs(found, pid), found, r)
  {
    ConfigureSent(o, w, found, params, size);
    ConfigureMeaning(o, w, None, found.devId, params, size);
    var (w2, r2, _) := Configure(o, w, None, found.devId, params, size);
    if r2.Ok? {
      StartSent(o, w2, found, pid);
      StartMeaning(o, w2, None, found.devId, pid);
    }
  }

  lemma AttemptedAfter(w: World, w1: World, w3: World, head: seq<Command>, tail: seq<Command>, found: Info,
                       r: Result<()>)
    requires w1.sent == w.sent + head && Attempted(w1, w3, tail, found, r)
    ensures Attempted(w, w3, head + tail, found, r)
  {
    assert w.sent + (head + tail) == w1.sent + tail;
  }

  /** Setup, configure, start against any driver. The commands it sees are the expected ones, in order,
      possibly cut short; if the attempt succeeds they are all of them and the device is live; if it ends
      otherwise, either the driver refused the last thing it saw, or it saw all of them and the device was
      found in need of a recovery it does not support. */
  lemma ServeAttempts(o: Env, w: World, info: Info, params: Params, size: nat, pid: int)
    requires WellFormed(w)
    ensures var (w1, r1, found) := Setup(o, w, info);
            var (w', r) := Serve(o, w, info, params, size, pid);
            Attempted(w, w', Expected(info, found, r1 == Ok(true), params.(len := size), pid), found, r)
  {
    SetupSent(o, w, info);
    SetupMeaning(o, w, info);
    SetupKeepsForm(o, w, info);
    var (w1, r1, found) := Setup(o, w, info);
    var created, p := r1 == Ok(true), params.(len := size);
    var head, rest := [AddDev(info)] + RecoveryActs(created, found), ConfigureActs(found, p) + StartActs(found, pid);
    if r1.Ok? {
      RestAttempted(o, w1, found, params, size, pid);
      var (w', r) := Serve(o, w, info, params, size, pid);
      AttemptedAfter(w, w1, w', head, rest, found, r);
    }
    ExpectedParts(info, found, created, p, pid);
  }

  lemma ExpectedParts(info: Info, found: Info, created: bool, params: Params, pid: int)
    requires created ==> found.state.Dead?
    ensures Expected(info, found, created, params, pid)
            == [AddDev(info)] + RecoveryActs(created, found) + (ConfigureActs(found, params) + StartActs(found, pid))
  {
  }

  // A willing driver

  lemma WillingQuery(o: Env, w: World, id: DevId)
    requires Willing(o) && id in w.devices
    ensures Query(o, w, id, o.retries).1 == Ok(w.devices[id].info)
  {
  }

  lemma WillingIssue(o: Env, w: World, cmd: Command)
    requires Willing(o) && !cmd.AddDev? && cmd.id in w.devices
    ensures !Issue(o, w, cmd).1.Failed?
  {
  }

  lemma WillingSetup(o: Env, w: World, info: Info)
    requires WellFormed(w) && Willing(o)
    requires info.devId == ANY_ID ==> o.answer(|w.log|).id !in w.devices
    ensures Setup(o, w, info).1.Ok?
  {
    var (w1, r) := Issue(o, w, AddDev(info));
    if !r.GotInfo? {
      WillingQuery(o, w1, info.devId);
      QueryMeaning(o, w1, info.devId, o.retries);
      var (w2, q) := Query(o, w1, info.devId, o.retries);
      WillingIssue(o, w2, StartRecovery(info.devId, Unprivileged(q.value)));
    }
  }

  lemma WillingConfigure(o: Env, w: World, id: DevId, params: Params, size: nat)
    requires WellFormed(w) && Willing(o) && id in w.devices
    ensures Configure(o, w, None, id, params, size).1 == Ok(w.devices[id].info.state.Dead?)
  {
    WillingQuery(o, w, id);
    QueryMeaning(o, w, id, o.retries);
    var (w1, q) := Query(o, w, id, o.retries);
    WillingIssue(o, w1, SetParams(id, params.(len := size), Unprivileged(q.value)));
    WillingIssue(o, w1, GetParams(id, Unprivileged(q.value)));
    IssueRefused(o, w1, GetParams(id, Unprivileged(q.value)));
  }

  lemma WillingStart(o: Env, w: World, id: DevId, pid: int)
    requires WellFormed(w) && Willing(o) && id in w.devices
    ensures var r, info := Start(o, w, None, id, pid).1, w.devices[id].info;
            if NeedRecovery(info) && !UserRecovery(info) then r == Err(NOT_STARTABLE) else r.Ok?
  {
    WillingQuery(o, w, id);
    QueryMeaning(o, w, id, o.retries);
    var (w1, q) := Query(o, w, id, o.retries);
    WillingIssue(o, w1, StartDev(id, pid, Unprivileged(q.value)));
    WillingIssue(o, w1, EndRecovery(id, pid, Unprivileged(q.value)));
  }

  /** Against a driver that refuses nothing: all expected commands, and a live device if and only if it
      was not found in need of a recovery it does not support. The guarantee that a device can be started
      once setup has succeeded holds exactly then. */
  lemma StartUp(o: Env, w: World, info: Info, params: Params, size: nat, pid: int)
    requires WellFormed(w) && Willing(o)
    requires info.devId == ANY_ID ==> o.answer(|w.log|).id !in w.devices
    ensures var (w1, r1, found) := Setup(o, w, info);
            var (w', r) := Serve(o, w, info, params, size, pid);
            && r1.Ok?
            && w'.sent == w.sent + Expected(info, found, r1.value, params.(len := size), pid)
            && (r.Ok? <==> found.state.Dead? || found.state.Live? || found.flags.userRecovery)
            && (r.Ok? ==> found.devId in w'.devices && w'.devices[found.devId].info == found.(state := Live))
  {
    ServeAttempts(o, w, info, params, size, pid);
    WillingSetup(o, w, info);
    SetupMeaning(o, w, info);
    SetupKeepsForm(o, w, info);
    var (w1, r1, found) := Setup(o, w, info);
    WillingRest(o, w1, found, params, size, pid);
  }

  lemma WillingRest(o: Env, w: World, found: Info, params: Params, size: nat, pid: int)
    requires WellFormed(w) && Willing(o) && found.devId in w.devices && w.devices[found.devId].info == found
    ensures var (w2, r2, _) := Configure(o, w, None, found.devId, params, size);
            && r2.Ok?
            && var r := Start(o, w2, None, found.devId, pid).1;
               if NeedRecovery(found) && !UserRecovery(found) then r == Err(NOT_STARTABLE) else r.Ok?
  {
    WillingConfigure(o, w, found.devId, params, size);
    ConfigureMeaning(o, w, None, found.devId, params, size);
    ConfigureKeepsForm(o, w, None, found.devId, params, size);
    WillingStart(o, Configure(o, w, None, found.devId, params, size).0, found.devId, pid);
  }

  lemma SetupKeepsForm(o: Env, w: World, info: Info)
    requires WellFormed(w)
    ensures WellFormed(Setup(o, w, info).0)
  {
    var w1 := Issue(o, w, AddDev(info)).0;
    IssueKeepsForm(o, w, AddDev(info));
    QueryMeaning(o, w1, info.devId, o.retries);
  }

  /** A device that cannot be started although its setup succeeded. */
  lemma SetUpButNotStartable(o: Env, pid: int)
    requires Willing(o)
    ensures var d := Device(Info(7, Quiesced, Flags(false, false), 0), Params(0, 0));
            var (w1, r1, found) := Setup(o, World(map[7 := d], [], []), d.info);
            r1 == Ok(false) && Start(o, w1, None, 7, pid).1 == Err(NOT_STARTABLE)
  {
  }
}
