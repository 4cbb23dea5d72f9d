/** The main results about the shared-memory server: what holds of every run. */
module ShmRuns {
  import opened Options
  import opened Seqs
  import opened ShmServer
  import opened ShmInvariant

  predicate Exec(s: State, ls: seq<Label>, s': State)
    decreases |ls|
  {
    if ls == [] then s' == s
    else Enabled(s, ls[0]) && Exec(Apply(s, ls[0]), ls[1..], s')
  }

  ghost predicate Reaches(s0: State, ls: seq<Label>, s: State) {
    Initial(s0) && Exec(s0, ls, s)
  }

  lemma {:induction false} RunKeeps(s: State, ls: seq<Label>, s': State)
    requires Inv(s) && Exec(s, ls, s')
    ensures Inv(s')
    decreases |ls|
  {
    if ls != [] {
      StepKeeps(s, ls[0]);
      RunKeeps(Apply(s, ls[0]), ls[1..], s');
    }
  }

  lemma ReachesInv(s0: State, ls: seq<Label>, s: State)
    requires Reaches(s0, ls, s)
    ensures Inv(s)
  {
    RunKeeps(s0, ls, s);
  }

  // ---------------------------------------------------------------- mapping safety

  /** The orders in which a session may use its resources, written out. */
  predicate InOrder(es: seq<Event>, r: Resources) {
    match r
    case Nothing => es == []
    case Mapped => es == [Map]
    case InDriver(i) => es == [Map, RegisterAs(i)]
    case OutOfDriver(i) => es == [Map, RegisterAs(i), UnregisterTried(i, true)]
    case Told(i) => es == [Map, RegisterAs(i), UnregisterTried(i, true), HandlerTold(i)]
    case Released =>
      || es == [Map, Unmap]
      || (|es| == 5 && es[1].RegisterAs?
          && es == [Map, es[1], UnregisterTried(es[1].index, true), HandlerTold(es[1].index), Unmap])
    case Kept(i) => es == [Map, RegisterAs(i), UnregisterTried(i, false)]
  }

  lemma {:induction false} OrderOf(es: seq<Event>, r: Resources)
    requires UseAll(es) == Some(r)
    ensures InOrder(es, r)
    decreases |es|
  {
    if es != [] {
      var k := |es| - 1;
      OrderOf(es[..k], UseAll(es[..k]).value);
      assert es == es[..k] + [es[k]];
    }
  }

  /** In every reachable state of every interleaving, each session has used its resources in order:
      memory is unmapped only if it was never registered or after the driver unregistered it and
      the handler was told; the handler is told only after a successful unregister; no unregister
      is tried twice. No unmap names memory that is not mapped. */
  lemma MappingSafety(s0: State, ls: seq<Label>, s: State, sid: Sid)
    requires Reaches(s0, ls, s) && sid < |s.sessions|
    ensures !s.fault
    ensures InOrder(Events(s.log, sid), Has(s.sessions[sid], CleanupOf(s, sid)))
  {
    ReachesInv(s0, ls, s);
    assert Ok(s, sid);
    OrderOf(Events(s.log, sid), Has(s.sessions[sid], CleanupOf(s, sid)));
  }

  /** Cleanup is started for the sessions that entered handle(), when handle() fails or the session
      ends, and never twice. */
  lemma CleanupStartedOnce(s0: State, ls: seq<Label>, s: State, sid: Sid)
    requires Reaches(s0, ls, s) && sid < |s.sessions|
    ensures !s.fault
    ensures sid in s.cleanups <==>
              var x := s.sessions[sid];
              x.entered && (x.phase.Closed? || (x.phase.Sending? && x.phase.res < 0))
  {
    ReachesInv(s0, ls, s);
    assert Ok(s, sid);
  }

  predicate InHandle(s: State, sid: Sid) {
    At(s, sid, Statting) || At(s, sid, Registering) || At(s, sid, Announcing)
  }

  /** Why error codes must be positive: a session whose handle() fails with `code`, wherever it is in
      handle(), and then ends starts a second cleanup exactly when the code is not positive. */
  lemma CleanupTwiceIff(s: State, sid: Sid, code: int)
    requires Inv(s) && InHandle(s, sid)
    ensures Close(HandleFails(s, sid, s.sessions[sid], code), sid, -code).fault <==> code <= 0
  {
    assert Ok(s, sid);
  }

  /** A session of a reachable state whose handle() waits for `handle_reg_shm`. */
  function AnnouncingSession(): State {
    State([Session(Announcing, true, 4096, Some(1), 0)], map[], map[1 := Mapping(0, 4096)], map[0 := 0], true,
          [(0, Map), (0, RegisterAs(0))], false)
  }

  lemma AnnouncingReached()
    ensures Reaches(State([], map[], map[], map[], true, [], false),
                    [Accept, RecvReturns(0, true), StatReturns(0, MapsAt(4096, 1)),
                     RegisterReturns(0, RegisteredAs(0))],
                    AnnouncingSession())
  {
    var l2, l3, l4 := RecvReturns(0, true), StatReturns(0, MapsAt(4096, 1)), RegisterReturns(0, RegisteredAs(0));
    var s0 := State([], map[], map[], map[], true, [], false);
    var s1 := s0.(sessions := [Session(Receiving, false, 0, None, -1)]);
    var s2 := s1.(sessions := [Session(Statting, true, 0, None, -1)]);
    var s3 := s2.(sessions := [Session(Registering, true, 4096, Some(1), -1)], maps := map[1 := Mapping(0, 4096)],
                  log := [(0, Map)]);
    assert Apply(s0, Accept) == s1 && Apply(s1, l2) == s2;
    assert Apply(s2, l3) == s3 && Apply(s3, l4) == AnnouncingSession();
    ExecCons(s3, l4, [], AnnouncingSession());
    ExecCons(s2, l3, [l4], AnnouncingSession());
    ExecCons(s1, l2, [l3, l4], AnnouncingSession());
    ExecCons(s0, Accept, [l2, l3, l4], AnnouncingSession());
  }

  /** If the handler then fails with the error code 0, two cleanups are started. */
  lemma CleanupTwice()
    ensures var s := AnnouncingSession();
            At(s, 0, Announcing) && Close(HandleFails(s, 0, s.sessions[0], 0), 0, 0).fault
  {
  }

  lemma ExecCons(s: State, l: Label, ls: seq<Label>, s': State)
    requires Enabled(s, l) && Exec(Apply(s, l), ls, s')
    ensures Exec(s, [l] + ls, s')
  {
    assert ([l] + ls)[1..] == ls;
  }

  // ---------------------------------------------------------------- conservation

  ghost function Holders(s: State): set<Sid> {
    set sid | 0 <= sid < |s.sessions| && HoldsIndex(Has(s.sessions[sid], CleanupOf(s, sid)))
  }

  lemma {:induction false} BijectionCard(m: map<nat, Sid>, h: set<Sid>)
    requires forall i :: i in m ==> m[i] in h
    requires forall i, j :: i in m && j in m && m[i] == m[j] ==> i == j
    requires forall x :: x in h ==> exists i :: i in m && m[i] == x
    ensures |m| == |h|
    decreases |m|
  {
    if m == map[] {
      assert h == {};
    } else {
      var i :| i in m;
      var m' := m - {i};
      RemoveCard(m, i);
      forall x | x in h - {m[i]} ensures exists j :: j in m' && m'[j] == x {
        var j :| j in m && m[j] == x;
        assert j in m' && m'[j] == x;
      }
      BijectionCard(m', h - {m[i]});
    }
  }

  /** Registrations minus successful unregistrations are the registrations the driver has, and as
      many sessions still hold an index. */
  lemma RegistrationsConserved(s0: State, ls: seq<Label>, s: State)
    requires Reaches(s0, ls, s)
    ensures CountRegistered(s.log) - CountUnregistered(s.log) == |s.regs| == |Holders(s)|
  {
    ReachesInv(s0, ls, s);
    forall i | i in s.regs ensures s.regs[i] in Holders(s) && s.sessions[s.regs[i]].index == i {
      assert RegOk(s, i);
    }
    forall sid | sid in Holders(s) ensures exists i :: i in s.regs && s.regs[i] == sid {
      assert Ok(s, sid);
      assert s.sessions[sid].index in s.regs;
    }
    BijectionCard(s.regs, Holders(s));
  }

  /** Every task of the server's scope has completed. */
  predicate Joined(s: State) {
    && !s.accepting
    && (forall sid :: 0 <= sid < |s.sessions| ==> s.sessions[sid].phase.Closed?)
    && (forall sid :: sid in s.cleanups ==> s.cleanups[sid].phase.Ended?)
  }

  /** When the join completes, a session acquired nothing, or only mapped and unmapped, or had
      exactly one unregister attempt; its memory and its index remain only where that failed. */
  lemma JoinOutcome(s0: State, ls: seq<Label>, s: State, sid: Sid)
    requires Reaches(s0, ls, s) && Joined(s) && sid < |s.sessions|
    ensures var r := Has(s.sessions[sid], CleanupOf(s, sid));
            && InOrder(Events(s.log, sid), r)
            && (r.Nothing? || r.Released? || r.Kept?)
            && (r.Kept? <==> sid in s.cleanups && s.cleanups[sid].phase.failed)
            && (r.Kept? <==> exists a :: a in s.maps && s.maps[a].owner == sid)
            && (r.Kept? <==> exists i :: i in s.regs && s.regs[i] == sid)
  {
    ReachesInv(s0, ls, s);
    OwnsOf(s, sid);
    var x := s.sessions[sid];
    var r := Has(x, CleanupOf(s, sid));
    OrderOf(Events(s.log, sid), r);
    if r.Kept? {
      assert x.base.value in s.maps && s.maps[x.base.value].owner == sid;
      assert x.index in s.regs && s.regs[x.index] == sid;
    }
  }

  // ---------------------------------------------------------------- the server drains

  function PhaseRank(p: Phase): nat {
    match p
    case Receiving => 10
    case Statting => 9
    case Registering => 8
    case Announcing => 7
    case Sending(_) => 4
    case Waiting => 3
    case Closed => 0
  }

  function Rank(s: State, sid: Sid): nat
    requires sid < |s.sessions|
  {
    PhaseRank(s.sessions[sid].phase)
    + if sid in s.cleanups then
        match s.cleanups[sid].phase case Spawned => 2 case Unregistering => 1 case Ended(_) => 0
      else 0
  }

  function Ranks(s: State): seq<nat> {
    seq(|s.sessions|, sid requires 0 <= sid < |s.sessions| => Rank(s, sid))
  }

  function Measure(s: State): nat {
    Total(Ranks(s)) + if s.accepting then 1 else 0
  }

  ghost predicate Drops(s: State, s': State, sid: Sid) {
    && sid < |s.sessions| == |s'.sessions| && s'.accepting == s.accepting
    && (forall u :: 0 <= u < |s.sessions| && u != sid ==> Rank(s', u) == Rank(s, u))
    && Rank(s', sid) < Rank(s, sid)
  }

  lemma ChangeDrops(s: State, s': State, sid: Sid)
    requires sid < |s.sessions| == |s'.sessions| && s'.accepting == s.accepting
    requires s'.sessions == s.sessions[sid := s'.sessions[sid]]
    requires s'.cleanups == s.cleanups || (sid in s'.cleanups && s'.cleanups == s.cleanups[sid := s'.cleanups[sid]])
    requires Rank(s', sid) < Rank(s, sid)
    ensures Drops(s, s', sid)
  {
  }

  lemma FailDrops(s: State, sid: Sid, x: Session, code: int)
    requires sid < |s.sessions| && sid !in s.cleanups && PhaseRank(s.sessions[sid].phase) > 6
    ensures Drops(s, HandleFails(s, sid, x, code), sid)
  {
    ChangeDrops(s, HandleFails(s, sid, x, code), sid);
  }

  lemma CloseDrops(s: State, sid: Sid, res: int)
    requires sid < |s.sessions| && PhaseRank(s.sessions[sid].phase) > 2
    requires res >= 0 ==> sid !in s.cleanups
    ensures Drops(s, Close(s, sid, res), sid)
  {
    ChangeDrops(s, Close(s, sid, res), sid);
  }

  lemma SessionDrops(s: State, l: Label)
    requires Enabled(s, l) && !l.Accept? && !l.AcceptFails? && !l.CleanupStarts? && !l.UnregisterReturns?
    requires CleanupOk(s.sessions[l.sid], CleanupOf(s, l.sid))
    ensures Drops(s, Apply(s, l), l.sid)
  {
    var sid := l.sid;
    var x := s.sessions[sid];
    match l
    case RecvReturns(_, _) => ChangeDrops(s, Apply(s, l), sid);
    case StatReturns(_, st) =>
      if st.StatFails? { FailDrops(s, sid, x, st.code); }
      else if st.MapFails? { FailDrops(s, sid, x.(size := st.size), st.code); }
      else { ChangeDrops(s, Apply(s, l), sid); }
    case RegisterReturns(_, rr) =>
      if rr.RegisterFails? { FailDrops(s, sid, x, rr.code); } else { ChangeDrops(s, Apply(s, l), sid); }
    case AnnounceReturns(_, code) =>
      if code > 0 { FailDrops(s, sid, x, code); } else { ChangeDrops(s, Apply(s, l), sid); }
    case SendReturns(_, ok) =>
      if ok && x.phase.res >= 0 { ChangeDrops(s, Apply(s, l), sid); } else { CloseDrops(s, sid, x.phase.res); }
    case PeerDone(_) => CloseDrops(s, sid, 0);
  }

  lemma FinishDrops(s: State, s1: State, sid: Sid)
    requires sid < |s.sessions| && sid in s.cleanups && !s.cleanups[sid].phase.Ended?
    requires s1.sessions == s.sessions && s1.cleanups == s.cleanups && s1.accepting == s.accepting
    requires !s1.fault && !Finish(s1, sid).fault
    ensures Drops(s, Finish(s1, sid), sid)
  {
    var s' := Finish(s1, sid);
    assert s'.sessions == s.sessions[sid := s'.sessions[sid]];
    ChangeDrops(s, s', sid);
  }

  lemma CleanupDrops(s: State, l: Label)
    requires Enabled(s, l) && (l.CleanupStarts? || l.UnregisterReturns?)
    requires l.sid < |s.sessions| && !s.fault && !Apply(s, l).fault
    ensures Drops(s, Apply(s, l), l.sid)
  {
    var sid := l.sid;
    var k := s.cleanups[sid];
    if l.CleanupStarts? && k.index == -1 {
      FinishDrops(s, s, sid);
    } else if l.UnregisterReturns? && l.ok {
      var s1 := Log(s.(regs := s.regs - {k.index}), sid, UnregisterTried(k.index, true));
      FinishDrops(s, Log(s1, sid, HandlerTold(k.index)), sid);
    } else {
      assert s.sessions == s.sessions[sid := s.sessions[sid]];
      ChangeDrops(s, Apply(s, l), sid);
    }
  }

  /** Every step but an accept decreases the measure. */
  lemma StepDrains(s: State, l: Label)
    requires Inv(s) && Enabled(s, l) && !l.Accept?
    ensures Inv(Apply(s, l)) && Measure(Apply(s, l)) < Measure(s)
  {
    StepKeeps(s, l);
    if l.AcceptFails? {
      assert Ranks(Apply(s, l)) == Ranks(s);
    } else if l.CleanupStarts? || l.UnregisterReturns? {
      CleanupDrains(s, l);
    } else {
      SessionDrains(s, l);
    }
  }

  lemma DropsDrain(s: State, s': State, sid: Sid)
    requires Drops(s, s', sid)
    ensures Measure(s') < Measure(s)
  {
    TotalDrops(Ranks(s), Ranks(s'), sid, 1);
  }

  lemma CleanupDrains(s: State, l: Label)
    requires Inv(s) && Enabled(s, l) && (l.CleanupStarts? || l.UnregisterReturns?) && !Apply(s, l).fault
    ensures Measure(Apply(s, l)) < Measure(s)
  {
    CleanupDrops(s, l);
    DropsDrain(s, Apply(s, l), l.sid);
  }

  lemma SessionDrains(s: State, l: Label)
    requires Inv(s) && Enabled(s, l)
    requires !l.Accept? && !l.AcceptFails? && !l.CleanupStarts? && !l.UnregisterReturns?
    ensures Measure(Apply(s, l)) < Measure(s)
  {
    assert Ok(s, l.sid);
    SessionDrops(s, l);
    DropsDrain(s, Apply(s, l), l.sid);
  }

  /** Without new clients, every run of the server ends. */
  lemma {:induction false} RunsEnd(s: State, ls: seq<Label>, s': State)
    requires Inv(s) && Exec(s, ls, s')
    requires forall i :: 0 <= i < |ls| ==> !ls[i].Accept?
    ensures Inv(s') && |ls| + Measure(s') <= Measure(s)
    decreases |ls|
  {
    if ls != [] {
      StepDrains(s, ls[0]);
      RunsEnd(Apply(s, ls[0]), ls[1..], s');
    }
  }

  /** A server that no longer accepts and has nothing left to do has joined. */
  lemma StuckIsJoined(s: State)
    requires Inv(s) && !s.accepting
    requires forall l :: !Enabled(s, l)
    ensures Joined(s)
  {
    forall sid | 0 <= sid < |s.sessions| ensures s.sessions[sid].phase.Closed? {
      assert !Enabled(s, RecvReturns(sid, false));
      assert !Enabled(s, StatReturns(sid, StatFails(1)));
      assert !Enabled(s, RegisterReturns(sid, RegisterFails(1)));
      assert !Enabled(s, AnnounceReturns(sid, 0));
      assert !Enabled(s, SendReturns(sid, false));
      assert !Enabled(s, PeerDone(sid));
    }
    forall sid | sid in s.cleanups ensures s.cleanups[sid].phase.Ended? {
      assert !Enabled(s, CleanupStarts(sid));
      assert !Enabled(s, UnregisterReturns(sid, true));
    }
  }
}
