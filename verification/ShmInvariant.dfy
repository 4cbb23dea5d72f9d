/** Resource safety of the shared-memory server, over every interleaving of its sessions. */
module ShmInvariant {
  import opened Options
  import opened ShmServer

  /** The events of one session. */
  function Events(log: seq<(Sid, Event)>, sid: Sid): seq<Event>
    decreases |log|
  {
    if log == [] then []
    else
      var k := |log| - 1;
      Events(log[..k], sid) + if log[k].0 == sid then [log[k].1] else []
  }

  function CleanupOf(s: State, sid: Sid): Option<Cleanup> {
    if sid in s.cleanups then Some(s.cleanups[sid]) else None
  }

  function Acquired(base: Option<Addr>, index: int): Resources {
    if index >= 0 then InDriver(index) else if base.Some? then Mapped else Nothing
  }

  /** The resources a session has, by its own fields and its cleanup task. */
  function Has(x: Session, k: Option<Cleanup>): Resources {
    if k.Some? && k.value.phase.Ended? then
      if k.value.phase.failed && x.index >= 0 then Kept(x.index)
      else if x.base.Some? then Released else Nothing
    else Acquired(x.base, x.index)
  }

  predicate HoldsMap(r: Resources) {
    r.Mapped? || r.InDriver? || r.Kept?
  }

  predicate HoldsIndex(r: Resources) {
    r.InDriver? || r.Kept?
  }

  /** Fields agree with the phase. */
  predicate PhaseOk(x: Session) {
    && x.index >= -1
    && (x.index >= 0 ==> x.base.Some?)
    && (x.base.Some? ==> x.entered)
    && match x.phase
       case Receiving => !x.entered
       case Statting => x.entered && x.base.None?
       case Registering => x.base.Some? && x.index == -1
       case Announcing => x.index >= 0
       case Sending(res) => x.entered && (res >= 0 ==> x.index >= 0)
       case Waiting => x.index >= 0
       case Closed => true
  }

  /** A cleanup task exists from the end of a failed handle(), or of a session whose handle()
      succeeded, and works on that session's fields. */
  predicate CleanupOk(x: Session, k: Option<Cleanup>) {
    && (k.Some? <==> x.entered && (x.phase.Closed? || (x.phase.Sending? && x.phase.res < 0)))
    && (k.Some? ==>
          && k.value.size == x.size && k.value.base == x.base && k.value.index == x.index
          && (k.value.phase.Unregistering? || k.value.phase == Ended(true) ==> x.index >= 0))
  }

  predicate SessionOk(sid: Sid, x: Session, k: Option<Cleanup>, es: seq<Event>, maps: map<Addr, Mapping>,
                      regs: map<nat, Sid>) {
    && PhaseOk(x)
    && CleanupOk(x, k)
    && UseAll(es) == Some(Has(x, k))
    && (HoldsMap(Has(x, k)) ==> x.base.Some? && x.base.value in maps && maps[x.base.value] == Mapping(sid, x.size))
    && (HoldsIndex(Has(x, k)) ==> x.index >= 0 && x.index in regs && regs[x.index] == sid)
  }

  predicate Ok(s: State, sid: Sid)
    requires sid < |s.sessions|
  {
    SessionOk(sid, s.sessions[sid], CleanupOf(s, sid), Events(s.log, sid), s.maps, s.regs)
  }

  predicate MapOk(s: State, a: Addr)
    requires a in s.maps
  {
    var sid := s.maps[a].owner;
    sid < |s.sessions| && HoldsMap(Has(s.sessions[sid], CleanupOf(s, sid))) && s.sessions[sid].base == Some(a)
  }

  predicate RegOk(s: State, i: nat)
    requires i in s.regs
  {
    var sid := s.regs[i];
    sid < |s.sessions| && HoldsIndex(Has(s.sessions[sid], CleanupOf(s, sid))) && s.sessions[sid].index == i
  }

  function CountRegistered(log: seq<(Sid, Event)>): nat
    decreases |log|
  {
    if log == [] then 0
    else CountRegistered(log[..|log| - 1]) + if log[|log| - 1].1.RegisterAs? then 1 else 0
  }

  function CountUnregistered(log: seq<(Sid, Event)>): nat
    decreases |log|
  {
    if log == [] then 0
    else
      var e := log[|log| - 1].1;
      CountUnregistered(log[..|log| - 1]) + if e.UnregisterTried? && e.ok then 1 else 0
  }

  ghost predicate Inv(s: State) {
    && !s.fault
    && (forall sid :: sid in s.cleanups ==> sid < |s.sessions|)
    && (forall sid :: 0 <= sid < |s.sessions| ==> Ok(s, sid))
    && (forall a :: a in s.maps ==> MapOk(s, a))
    && (forall i :: i in s.regs ==> RegOk(s, i))
    && CountRegistered(s.log) == CountUnregistered(s.log) + |s.regs|
    && (forall sid :: |s.sessions| <= sid ==> Events(s.log, sid) == [])
  }

  // ---------------------------------------------------------------- logs

  function Tagged(sid: Sid, es: seq<Event>): seq<(Sid, Event)> {
    seq(|es|, i requires 0 <= i < |es| => (sid, es[i]))
  }

  function Registered(es: seq<Event>): nat
    decreases |es|
  {
    if es == [] then 0 else Registered(es[..|es| - 1]) + if es[|es| - 1].RegisterAs? then 1 else 0
  }

  function Unregistered(es: seq<Event>): nat
    decreases |es|
  {
    if es == [] then 0
    else Unregistered(es[..|es| - 1]) + if es[|es| - 1].UnregisterTried? && es[|es| - 1].ok then 1 else 0
  }

  lemma EventsSnoc(log: seq<(Sid, Event)>, sid: Sid, e: Event, u: Sid)
    ensures Events(log + [(sid, e)], u) == Events(log, u) + if u == sid then [e] else []
  {
    assert (log + [(sid, e)])[..|log|] == log;
  }

  lemma {:induction false} LogEvents(log: seq<(Sid, Event)>, sid: Sid, es: seq<Event>, u: Sid)
    ensures Events(log + Tagged(sid, es), u) == Events(log, u) + if u == sid then es else []
    decreases |es|
  {
    if es == [] {
      assert log + Tagged(sid, es) == log;
    } else {
      var k := |es| - 1;
      LogEvents(log, sid, es[..k], u);
      TaggedLast(log, sid, es);
      EventsSnoc(log + Tagged(sid, es[..k]), sid, es[k], u);
      assert es == es[..k] + [es[k]];
    }
  }

  lemma CountSnoc(log: seq<(Sid, Event)>, sid: Sid, e: Event)
    ensures CountRegistered(log + [(sid, e)]) == CountRegistered(log) + if e.RegisterAs? then 1 else 0
    ensures CountUnregistered(log + [(sid, e)])
            == CountUnregistered(log) + if e.UnregisterTried? && e.ok then 1 else 0
  {
    assert (log + [(sid, e)])[..|log|] == log;
  }

  lemma TaggedLast(log: seq<(Sid, Event)>, sid: Sid, es: seq<Event>)
    requires es != []
    ensures log + Tagged(sid, es) == log + Tagged(sid, es[..|es| - 1]) + [(sid, es[|es| - 1])]
  {
  }

  lemma {:induction false} LogCounts(log: seq<(Sid, Event)>, sid: Sid, es: seq<Event>)
    ensures CountRegistered(log + Tagged(sid, es)) == CountRegistered(log) + Registered(es)
    ensures CountUnregistered(log + Tagged(sid, es)) == CountUnregistered(log) + Unregistered(es)
    decreases |es|
  {
    if es == [] {
      assert log + Tagged(sid, es) == log;
    } else {
      var k := |es| - 1;
      LogCounts(log, sid, es[..k]);
      TaggedLast(log, sid, es);
      CountSnoc(log + Tagged(sid, es[..k]), sid, es[k]);
    }
  }

  lemma UseSnoc(es: seq<Event>, e: Event)
    requires UseAll(es).Some?
    ensures UseAll(es + [e]) == Use(UseAll(es).value, e)
  {
    assert (es + [e])[..|es|] == es;
  }

  // ---------------------------------------------------------------- one session changes

  /** Session sid, its cleanup, its resources and its log change; nothing else does. */
  function Update(s: State, sid: Sid, x: Session, k: Option<Cleanup>, maps: map<Addr, Mapping>,
                  regs: map<nat, Sid>, es: seq<Event>): State
    requires sid < |s.sessions|
  {
    s.(sessions := s.sessions[sid := x], cleanups := if k.Some? then s.cleanups[sid := k.value] else s.cleanups,
       maps := maps, regs := regs, log := s.log + Tagged(sid, es))
  }

  ghost predicate OthersMaps(maps: map<Addr, Mapping>, maps': map<Addr, Mapping>, sid: Sid) {
    && (forall a :: a in maps && maps[a].owner != sid ==> a in maps' && maps'[a] == maps[a])
    && (forall a :: a in maps' && maps'[a].owner != sid ==> a in maps && maps'[a] == maps[a])
  }

  ghost predicate OthersRegs(regs: map<nat, Sid>, regs': map<nat, Sid>, sid: Sid) {
    && (forall i :: i in regs && regs[i] != sid ==> i in regs' && regs'[i] == regs[i])
    && (forall i :: i in regs' && regs'[i] != sid ==> i in regs && regs'[i] == regs[i])
  }

  /** What session sid owns is what its fields say. */
  ghost predicate Owns(sid: Sid, x: Session, r: Resources, maps: map<Addr, Mapping>, regs: map<nat, Sid>) {
    && (forall a :: a in maps && maps[a].owner == sid ==> HoldsMap(r) && x.base == Some(a))
    && (forall i :: i in regs && regs[i] == sid ==> HoldsIndex(r) && x.index == i)
  }

  lemma OwnsOf(s: State, sid: Sid)
    requires Inv(s) && sid < |s.sessions|
    ensures Ok(s, sid)
    ensures Owns(sid, s.sessions[sid], Has(s.sessions[sid], CleanupOf(s, sid)), s.maps, s.regs)
  {
    var x := s.sessions[sid];
    forall a | a in s.maps && s.maps[a].owner == sid ensures HoldsMap(Has(x, CleanupOf(s, sid))) && x.base == Some(a) {
      assert MapOk(s, a);
    }
    forall i | i in s.regs && s.regs[i] == sid ensures HoldsIndex(Has(x, CleanupOf(s, sid))) && x.index == i {
      assert RegOk(s, i);
    }
  }

  lemma UpdateLog(s: State, sid: Sid, x: Session, k: Option<Cleanup>, maps: map<Addr, Mapping>,
                  regs: map<nat, Sid>, es: seq<Event>)
    requires sid < |s.sessions|
    ensures var s' := Update(s, sid, x, k, maps, regs, es);
            && (forall u :: Events(s'.log, u) == Events(s.log, u) + if u == sid then es else [])
            && CountRegistered(s'.log) == CountRegistered(s.log) + Registered(es)
            && CountUnregistered(s'.log) == CountUnregistered(s.log) + Unregistered(es)
  {
    forall u ensures Events(s.log + Tagged(sid, es), u) == Events(s.log, u) + if u == sid then es else [] {
      LogEvents(s.log, sid, es, u);
    }
    LogCounts(s.log, sid, es);
  }

  /** If only session sid changes, the invariant can be checked at that session. */
  lemma ChangeKeeps(s: State, s': State, sid: Sid)
    requires Inv(s) && sid < |s.sessions| == |s'.sessions| && !s'.fault
    requires forall u :: 0 <= u < |s.sessions| && u != sid ==>
               && s'.sessions[u] == s.sessions[u] && CleanupOf(s', u) == CleanupOf(s, u)
               && Events(s'.log, u) == Events(s.log, u)
    requires forall u :: u in s'.cleanups ==> u < |s.sessions|
    requires forall u :: |s.sessions| <= u ==> Events(s'.log, u) == []
    requires OthersMaps(s.maps, s'.maps, sid) && OthersRegs(s.regs, s'.regs, sid)
    requires Ok(s', sid) && Owns(sid, s'.sessions[sid], Has(s'.sessions[sid], CleanupOf(s', sid)), s'.maps, s'.regs)
    requires CountRegistered(s'.log) == CountUnregistered(s'.log) + |s'.regs|
    ensures Inv(s')
  {
    forall u | 0 <= u < |s'.sessions| ensures Ok(s', u) {
      if u != sid { OkFrame(s, s', u, sid); }
    }
    forall a | a in s'.maps ensures MapOk(s', a) {
      if s'.maps[a].owner != sid { assert MapOk(s, a); }
    }
    forall i | i in s'.regs ensures RegOk(s', i) {
      if s'.regs[i] != sid { assert RegOk(s, i); }
    }
  }

  lemma UpdateKeeps(s: State, sid: Sid, x: Session, k: Option<Cleanup>, maps: map<Addr, Mapping>,
                    regs: map<nat, Sid>, es: seq<Event>)
    requires Inv(s) && sid < |s.sessions| && (k.None? ==> sid !in s.cleanups)
    requires SessionOk(sid, x, k, Events(s.log, sid) + es, maps, regs)
    requires OthersMaps(s.maps, maps, sid) && OthersRegs(s.regs, regs, sid)
    requires Owns(sid, x, Has(x, k), maps, regs)
    requires |s.regs| + Registered(es) == |regs| + Unregistered(es)
    ensures Inv(Update(s, sid, x, k, maps, regs, es))
  {
    var s' := Update(s, sid, x, k, maps, regs, es);
    UpdateLog(s, sid, x, k, maps, regs, es);
    assert CleanupOf(s', sid) == k;
    ChangeKeeps(s, s', sid);
  }

  lemma OthersInsert(maps: map<Addr, Mapping>, a: Addr, sid: Sid, size: nat)
    requires a !in maps
    ensures OthersMaps(maps, maps[a := Mapping(sid, size)], sid)
  {
  }

  lemma OthersRemove(maps: map<Addr, Mapping>, regs: map<nat, Sid>, a: Addr, i: nat, sid: Sid)
    requires a in maps && maps[a].owner == sid && (i in regs ==> regs[i] == sid)
    ensures OthersMaps(maps, maps - {a}, sid) && OthersRegs(regs, regs - {i}, sid)
  {
  }

  lemma OkFrame(s: State, s': State, u: Sid, sid: Sid)
    requires u < |s.sessions| == |s'.sessions| && u != sid && Ok(s, u)
    requires s'.sessions[u] == s.sessions[u] && CleanupOf(s', u) == CleanupOf(s, u)
    requires Events(s'.log, u) == Events(s.log, u)
    requires OthersMaps(s.maps, s'.maps, sid) && OthersRegs(s.regs, s'.regs, sid)
    ensures Ok(s', u)
  {
  }

  // ---------------------------------------------------------------- steps

  lemma AcceptKeeps(s: State, l: Label)
    requires Inv(s) && Enabled(s, l) && (l.Accept? || l.AcceptFails?)
    ensures Inv(Apply(s, l))
  {
    var s' := Apply(s, l);
    var n := |s.sessions|;
    forall u | 0 <= u < |s'.sessions| ensures Ok(s', u) {
      if u < n { assert Ok(s, u); } else { assert Events(s.log, n) == []; }
    }
    forall a | a in s'.maps ensures MapOk(s', a) { assert MapOk(s, a); }
    forall i | i in s'.regs ensures RegOk(s', i) { assert RegOk(s, i); }
  }

  /** A step of a session that acquires nothing, with the cleanup it may spawn. */
  lemma QuietKeeps(s: State, sid: Sid, x: Session, k: Option<Cleanup>)
    requires Inv(s) && sid < |s.sessions| && sid !in s.cleanups
    requires x.base == s.sessions[sid].base && x.index == s.sessions[sid].index
    requires x.base.Some? ==> x.size == s.sessions[sid].size
    requires PhaseOk(x) && CleanupOk(x, k) && (k.Some? ==> k.value.phase.Spawned?)
    ensures Inv(s.(sessions := s.sessions[sid := x],
                   cleanups := if k.Some? then s.cleanups[sid := k.value] else s.cleanups))
  {
    OwnsOf(s, sid);
    assert Has(x, k) == Has(s.sessions[sid], None);
    assert Events(s.log, sid) + [] == Events(s.log, sid);
    UpdateKeeps(s, sid, x, k, s.maps, s.regs, []);
    assert s.log + Tagged(sid, []) == s.log;
  }

  lemma FailKeeps(s: State, sid: Sid, x: Session, code: int)
    requires Inv(s) && sid < |s.sessions| && code > 0
    requires s.sessions[sid].entered && !s.sessions[sid].phase.Closed? && !s.sessions[sid].phase.Sending?
    requires x == s.sessions[sid] || (s.sessions[sid].base.None? && x == s.sessions[sid].(size := x.size))
    ensures Inv(HandleFails(s, sid, x, code))
  {
    OwnsOf(s, sid);
    var x' := x.(phase := Sending(-code));
    QuietKeeps(s, sid, x', Some(Cleanup(Spawned, x.size, x.base, x.index)));
  }

  lemma CloseKeeps(s: State, sid: Sid, res: int)
    requires Inv(s) && sid < |s.sessions|
    requires s.sessions[sid].phase == Sending(res) || (s.sessions[sid].phase == Waiting && res == 0)
    ensures Inv(Close(s, sid, res))
  {
    OwnsOf(s, sid);
    var x := s.sessions[sid];
    if res >= 0 {
      QuietKeeps(s, sid, x.(phase := Closed), Some(Cleanup(Spawned, x.size, x.base, x.index)));
    } else {
      FailedCloseKeeps(s, sid);
    }
  }

  /** The session ends after a failed handle(): its cleanup is already there. */
  lemma FailedCloseKeeps(s: State, sid: Sid)
    requires Inv(s) && sid < |s.sessions| && s.sessions[sid].phase.Sending? && s.sessions[sid].phase.res < 0
    ensures Inv(Put(s, sid, s.sessions[sid].(phase := Closed)))
  {
    OwnsOf(s, sid);
    var s' := Put(s, sid, s.sessions[sid].(phase := Closed));
    assert Has(s'.sessions[sid], CleanupOf(s', sid)) == Has(s.sessions[sid], CleanupOf(s, sid));
    assert Ok(s', sid);
    ChangeKeeps(s, s', sid);
  }

  lemma SessionKeeps(s: State, l: Label)
    requires Inv(s) && Enabled(s, l)
    requires l.RecvReturns? || l.AnnounceReturns? || l.SendReturns? || l.PeerDone?
             || (l.StatReturns? && !l.st.MapsAt?) || (l.RegisterReturns? && !l.rr.RegisteredAs?)
    ensures Inv(Apply(s, l))
  {
    var sid := l.sid;
    var x := s.sessions[sid];
    OwnsOf(s, sid);
    match l
    case RecvReturns(_, fd) =>
      QuietKeeps(s, sid, if fd then x.(phase := Statting, entered := true) else x.(phase := Closed), None);
    case StatReturns(_, st) =>
      if st.StatFails? { FailKeeps(s, sid, x, st.code); } else { FailKeeps(s, sid, x.(size := st.size), st.code); }
    case RegisterReturns(_, rr) => FailKeeps(s, sid, x, rr.code);
    case AnnounceReturns(_, code) =>
      if code > 0 { FailKeeps(s, sid, x, code); } else { QuietKeeps(s, sid, x.(phase := Sending(0)), None); }
    case SendReturns(_, ok) =>
      if ok && x.phase.res >= 0 { QuietKeeps(s, sid, x.(phase := Waiting), None); }
      else { CloseKeeps(s, sid, x.phase.res); }
    case PeerDone(_) => CloseKeeps(s, sid, 0);
  }

  lemma MapUpdate(s: State, sid: Sid, a: Addr, size: nat, x: Session)
    requires Inv(s) && At(s, sid, Statting) && a !in s.maps
    requires x == s.sessions[sid].(phase := Registering, size := size, base := Some(a))
    ensures Inv(Update(s, sid, x, None, s.maps[a := Mapping(sid, size)], s.regs, [Map]))
  {
    OwnsOf(s, sid);
    UseSnoc(Events(s.log, sid), Map);
    OthersInsert(s.maps, a, sid, size);
    assert [Map][..0] == [];
    var maps' := s.maps[a := Mapping(sid, size)];
    assert Owns(sid, x, Mapped, maps', s.regs);
    assert SessionOk(sid, x, None, Events(s.log, sid) + [Map], maps', s.regs);
    UpdateKeeps(s, sid, x, None, maps', s.regs, [Map]);
  }

  lemma MapKeeps(s: State, l: Label)
    requires Inv(s) && Enabled(s, l) && l.StatReturns? && l.st.MapsAt?
    ensures Inv(Apply(s, l))
  {
    var sid, a, size := l.sid, l.st.addr, l.st.size;
    MapUpdate(s, sid, a, size, s.sessions[sid].(phase := Registering, size := size, base := Some(a)));
    assert [Map][..0] == [] && Tagged(sid, [Map]) == [(sid, Map)];
  }

  lemma RegisterUpdate(s: State, sid: Sid, i: nat, x: Session)
    requires Inv(s) && At(s, sid, Registering) && i !in s.regs
    requires x == s.sessions[sid].(phase := Announcing, index := i)
    ensures Inv(Update(s, sid, x, None, s.maps, s.regs[i := sid], [RegisterAs(i)]))
  {
    OwnsOf(s, sid);
    UseSnoc(Events(s.log, sid), RegisterAs(i));
    assert [RegisterAs(i)][..0] == [];
    UpdateKeeps(s, sid, x, None, s.maps, s.regs[i := sid], [RegisterAs(i)]);
  }

  lemma RegisterKeeps(s: State, l: Label)
    requires Inv(s) && Enabled(s, l) && l.RegisterReturns? && l.rr.RegisteredAs?
    ensures Inv(Apply(s, l))
  {
    var sid, i := l.sid, l.rr.index;
    RegisterUpdate(s, sid, i, s.sessions[sid].(phase := Announcing, index := i));
    var es := [RegisterAs(i)];
    assert es[..0] == [] && Tagged(sid, es) == [(sid, RegisterAs(i))];
  }

  /** The memory a cleanup task unmaps is mapped, with the size it was mapped with, and nothing but
      the task's own index refers to it. */
  lemma UnmapIsSafe(s: State, sid: Sid, a: Addr)
    requires Inv(s) && sid in s.cleanups && !s.cleanups[sid].phase.Ended?
    requires s.cleanups[sid].base == Some(a)
    ensures a in s.maps && s.maps[a] == Mapping(sid, s.cleanups[sid].size)
    ensures forall i :: i in s.regs && s.regs[i] == sid ==> i == s.cleanups[sid].index
  {
    OwnsOf(s, sid);
  }

  /** A step of a cleanup task. */
  function CleanupStep(s: State, sid: Sid, k: Cleanup, maps: map<Addr, Mapping>, es: seq<Event>): State {
    s.(cleanups := s.cleanups[sid := k], maps := maps, log := s.log + Tagged(sid, es))
  }

  lemma CleanupKeeps(s: State, sid: Sid, k: Cleanup, maps: map<Addr, Mapping>, es: seq<Event>)
    requires Inv(s) && sid < |s.sessions|
    requires SessionOk(sid, s.sessions[sid], Some(k), Events(s.log, sid) + es, maps, s.regs)
    requires OthersMaps(s.maps, maps, sid) && Owns(sid, s.sessions[sid], Has(s.sessions[sid], Some(k)), maps, s.regs)
    requires Registered(es) == Unregistered(es)
    ensures Inv(CleanupStep(s, sid, k, maps, es))
  {
    UpdateKeeps(s, sid, s.sessions[sid], Some(k), maps, s.regs, es);
    assert s.sessions[sid := s.sessions[sid]] == s.sessions;
  }

  lemma FinishMappedKeeps(s: State, sid: Sid, a: Addr)
    requires Inv(s) && sid in s.cleanups && s.cleanups[sid].phase.Spawned? && s.cleanups[sid].index == -1
    requires s.cleanups[sid].base == Some(a)
    ensures Inv(CleanupStep(s, sid, s.cleanups[sid].(phase := Ended(false)), s.maps - {a}, [Unmap]))
  {
    OwnsOf(s, sid);
    UnmapIsSafe(s, sid, a);
    UseSnoc(Events(s.log, sid), Unmap);
    assert [Unmap][..0] == [];
    CleanupKeeps(s, sid, s.cleanups[sid].(phase := Ended(false)), s.maps - {a}, [Unmap]);
  }

  lemma FinishBareKeeps(s: State, sid: Sid)
    requires Inv(s) && sid in s.cleanups && s.cleanups[sid].phase.Spawned? && s.cleanups[sid].index == -1
    requires s.cleanups[sid].base.None?
    ensures Inv(s.(cleanups := s.cleanups[sid := s.cleanups[sid].(phase := Ended(false))]))
  {
    OwnsOf(s, sid);
    assert Events(s.log, sid) + [] == Events(s.log, sid);
    CleanupKeeps(s, sid, s.cleanups[sid].(phase := Ended(false)), s.maps, []);
    assert s.log + Tagged(sid, []) == s.log;
  }

  lemma FinishApply(s: State, sid: Sid, a: Addr)
    requires sid in s.cleanups && s.cleanups[sid].base == Some(a)
    requires a in s.maps && s.maps[a] == Mapping(sid, s.cleanups[sid].size)
    requires forall i :: i in s.regs ==> s.regs[i] != sid
    ensures Finish(s, sid) == CleanupStep(s, sid, s.cleanups[sid].(phase := Ended(false)), s.maps - {a}, [Unmap])
  {
    assert [Unmap][..0] == [] && Tagged(sid, [Unmap]) == [(sid, Unmap)];
  }

  lemma FinishKeeps(s: State, sid: Sid)
    requires Inv(s) && sid in s.cleanups && s.cleanups[sid].phase.Spawned? && s.cleanups[sid].index == -1
    ensures Inv(Finish(s, sid))
  {
    var k := s.cleanups[sid];
    if k.base.Some? {
      UnmapIsSafe(s, sid, k.base.value);
      FinishApply(s, sid, k.base.value);
      FinishMappedKeeps(s, sid, k.base.value);
    } else {
      FinishBareKeeps(s, sid);
    }
  }

  lemma StartKeeps(s: State, l: Label)
    requires Inv(s) && Enabled(s, l) && l.CleanupStarts?
    ensures Inv(Apply(s, l))
  {
    var sid := l.sid;
    OwnsOf(s, sid);
    if s.cleanups[sid].index == -1 {
      FinishKeeps(s, sid);
    } else {
      assert Events(s.log, sid) + [] == Events(s.log, sid);
      CleanupKeeps(s, sid, s.cleanups[sid].(phase := Unregistering), s.maps, []);
      assert s.log + Tagged(sid, []) == s.log;
    }
  }

  lemma UnregisterFailKeeps(s: State, l: Label)
    requires Inv(s) && Enabled(s, l) && l.UnregisterReturns? && !l.ok
    ensures Inv(Apply(s, l))
  {
    var sid := l.sid;
    var k := s.cleanups[sid];
    OwnsOf(s, sid);
    var e := UnregisterTried(k.index, false);
    UseSnoc(Events(s.log, sid), e);
    assert [e][..0] == [] && Tagged(sid, [e]) == [(sid, e)];
    CleanupKeeps(s, sid, k.(phase := Ended(true)), s.maps, [e]);
  }

  /** A successful cleanup: unregister, tell the handler, unmap, in this order. */
  function CleanupEvents(i: nat): seq<Event> {
    [UnregisterTried(i, true), HandlerTold(i), Unmap]
  }

  lemma CleanupEventsFacts(sid: Sid, i: nat, before: seq<Event>)
    requires UseAll(before) == Some(InDriver(i))
    ensures UseAll(before + CleanupEvents(i)) == Some(Released)
    ensures Registered(CleanupEvents(i)) == 0 && Unregistered(CleanupEvents(i)) == 1
    ensures Tagged(sid, CleanupEvents(i)) == [(sid, UnregisterTried(i, true)), (sid, HandlerTold(i)), (sid, Unmap)]
  {
    var es := CleanupEvents(i);
    UseSnoc(before, es[0]);
    UseSnoc(before + [es[0]], es[1]);
    UseSnoc(before + [es[0]] + [es[1]], es[2]);
    assert before + es == before + [es[0]] + [es[1]] + [es[2]];
    var e2 := [es[0], es[1]];
    assert es[..2] == e2 && e2[..1] == [es[0]] && [es[0]][..0] == [];
    assert Registered([es[0]]) == 0 && Unregistered([es[0]]) == 1;
    assert Registered(e2) == 0 && Unregistered(e2) == 1;
  }

  lemma UnregisterKeeps(s: State, l: Label)
    requires Inv(s) && Enabled(s, l) && l.UnregisterReturns? && l.ok
    ensures Inv(Apply(s, l))
  {
    var sid := l.sid;
    var k := s.cleanups[sid];
    OwnsOf(s, sid);
    var a, i := k.base.value, k.index;
    UnmapIsSafe(s, sid, a);
    CleanupEventsFacts(sid, i, Events(s.log, sid));
    RemoveCard(s.regs, i);
    OthersRemove(s.maps, s.regs, a, i, sid);
    UpdateKeeps(s, sid, s.sessions[sid], Some(k.(phase := Ended(false))), s.maps - {a}, s.regs - {i}, CleanupEvents(i));
    UnregisterApply(s, l, a, i);
  }

  lemma UnregisterApply(s: State, l: Label, a: Addr, i: nat)
    requires Enabled(s, l) && l.UnregisterReturns? && l.ok && l.sid < |s.sessions|
    requires s.cleanups[l.sid].index == i && s.cleanups[l.sid].base == Some(a)
    requires a in s.maps && s.maps[a] == Mapping(l.sid, s.cleanups[l.sid].size)
    requires forall j :: j in s.regs && s.regs[j] == l.sid ==> j == i
    requires Tagged(l.sid, CleanupEvents(i))
             == [(l.sid, UnregisterTried(i, true)), (l.sid, HandlerTold(i)), (l.sid, Unmap)]
    ensures Apply(s, l) == Update(s, l.sid, s.sessions[l.sid], Some(s.cleanups[l.sid].(phase := Ended(false))),
                                  s.maps - {a}, s.regs - {i}, CleanupEvents(i))
  {
    var sid := l.sid;
    assert s.sessions[sid := s.sessions[sid]] == s.sessions;
    assert s.log + Tagged(sid, CleanupEvents(i))
           == s.log + [(sid, UnregisterTried(i, true))] + [(sid, HandlerTold(i))] + [(sid, Unmap)];
  }

  lemma RemoveCard(m: map<nat, Sid>, i: nat)
    requires i in m
    ensures |m - {i}| == |m| - 1
  {
    assert (m - {i}).Keys == m.Keys - {i};
  }

  lemma StepKeeps(s: State, l: Label)
    requires Inv(s) && Enabled(s, l)
    ensures Inv(Apply(s, l))
  {
    match l
    case Accept => AcceptKeeps(s, l);
    case AcceptFails => AcceptKeeps(s, l);
    case RecvReturns(_, _) => SessionKeeps(s, l);
    case StatReturns(_, r) => if r.MapsAt? { MapKeeps(s, l); } else { SessionKeeps(s, l); }
    case RegisterReturns(_, r) => if r.RegisteredAs? { RegisterKeeps(s, l); } else { SessionKeeps(s, l); }
    case AnnounceReturns(_, _) => SessionKeeps(s, l);
    case SendReturns(_, _) => SessionKeeps(s, l);
    case PeerDone(_) => SessionKeeps(s, l);
    case CleanupStarts(_) => StartKeeps(s, l);
    case UnregisterReturns(_, ok) => if ok { UnregisterKeeps(s, l); } else { UnregisterFailKeeps(s, l); }
  }
}
