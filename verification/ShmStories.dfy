/** What a session of the shared-memory server has been through, read off the labels of a run. */
module ShmStories {
  import opened Options
  import opened ShmServer
  import opened ShmInvariant
  import opened ShmRuns

  predicate OfSession(l: Label, sid: Sid) {
    match l
    case RecvReturns(s, _) => s == sid
    case StatReturns(s, _) => s == sid
    case RegisterReturns(s, _) => s == sid
    case AnnounceReturns(s, _) => s == sid
    case SendReturns(s, _) => s == sid
    case PeerDone(s) => s == sid
    case _ => false
  }

  /** The labels of one session. */
  function Story(ls: seq<Label>, sid: Sid): seq<Label>
    decreases |ls|
  {
    if ls == [] then []
    else
      var k := |ls| - 1;
      Story(ls[..k], sid) + if OfSession(ls[k], sid) then [ls[k]] else []
  }

  // ---------------------------------------------------------------- stories

  /** handle() has mapped the client's memory. */
  predicate HasMapped(st: seq<Label>, sid: Sid, x: Session) {
    && |st| >= 2 && st[0] == RecvReturns(sid, true)
    && x.base.Some? && st[1] == StatReturns(sid, MapsAt(x.size, x.base.value))
  }

  /** handle() has registered it, too. */
  predicate HasRegistered(st: seq<Label>, sid: Sid, x: Session) {
    && |st| >= 3 && HasMapped(st, sid, x)
    && x.index >= 0 && st[2] == RegisterReturns(sid, RegisteredAs(x.index))
  }

  /** handle() has told its handler and returned. */
  predicate HandleDone(st: seq<Label>, sid: Sid, x: Session) {
    |st| >= 4 && HasRegistered(st, sid, x) && st[3] == AnnounceReturns(sid, 0)
  }

  /** handle() has failed with this code: statx, mmap, the registration or the handler. */
  predicate HandleFailed(st: seq<Label>, sid: Sid, x: Session, code: int) {
    && code > 0
    && ((|st| == 2 && st[0] == RecvReturns(sid, true) && x.base.None? && x.index == -1
         && (st[1] == StatReturns(sid, StatFails(code)) || st[1] == StatReturns(sid, MapFails(x.size, code))))
        || (|st| == 3 && HasMapped(st, sid, x) && x.index == -1 && st[2] == RegisterReturns(sid, RegisterFails(code)))
        || (|st| == 4 && HasRegistered(st, sid, x) && st[3] == AnnounceReturns(sid, code)))
  }

  /** The code a call in handle() failed with, 0 if it did not. */
  function FailCode(l: Label): int {
    match l
    case StatReturns(_, StatFails(code)) => code
    case StatReturns(_, MapFails(_, code)) => code
    case RegisterReturns(_, RegisterFails(code)) => code
    case AnnounceReturns(_, code) => code
    case _ => 0
  }

  /** A story that ended after a failed handle(): the code was sent, or sending it failed. */
  predicate EndedFailed(st: seq<Label>, sid: Sid, x: Session) {
    && |st| >= 3 && st[|st| - 1].SendReturns? && st[|st| - 1].sid == sid
    && HandleFailed(st[..|st| - 1], sid, x, FailCode(st[|st| - 2]))
  }

  /** Where a session is, and with what fields, by its story alone. */
  predicate Tells(st: seq<Label>, sid: Sid, x: Session) {
    (x.entered <==> st != [] && st[0] == RecvReturns(sid, true)) && PhaseTold(st, sid, x)
  }

  predicate PhaseTold(st: seq<Label>, sid: Sid, x: Session) {
    match x.phase
    case Receiving => st == []
    case Statting => st == [RecvReturns(sid, true)]
    case Registering => |st| == 2 && HasMapped(st, sid, x)
    case Announcing => |st| == 3 && HasRegistered(st, sid, x)
    case Sending(res) =>
      if res >= 0 then res == 0 && |st| == 4 && HandleDone(st, sid, x) else HandleFailed(st, sid, x, -res)
    case Waiting => |st| == 5 && HandleDone(st, sid, x) && st[4] == SendReturns(sid, true)
    case Closed =>
      || st == [RecvReturns(sid, false)]
      || (|st| == 5 && HandleDone(st, sid, x) && st[4] == SendReturns(sid, false))
      || (|st| == 6 && HandleDone(st, sid, x) && st[4] == SendReturns(sid, true) && st[5] == PeerDone(sid))
      || EndedFailed(st, sid, x)
  }

  // ---------------------------------------------------------------- one step

  /** A step of session u changes no other session. */
  predicate OnlyChanges(s: State, s': State, u: Sid) {
    |s'.sessions| == |s.sessions| && forall v :: 0 <= v < |s.sessions| && v != u ==> s'.sessions[v] == s.sessions[v]
  }

  lemma HandleStays(s: State, l: Label, u: Sid)
    requires Enabled(s, l) && OfSession(l, u) && (l.StatReturns? || l.RegisterReturns? || l.AnnounceReturns?)
    ensures OnlyChanges(s, Apply(s, l), u)
  {
  }

  lemma RestStays(s: State, l: Label, u: Sid)
    requires Enabled(s, l) && OfSession(l, u) && (l.RecvReturns? || l.SendReturns? || l.PeerDone?)
    ensures OnlyChanges(s, Apply(s, l), u)
  {
  }

  lemma CleanupStays(s: State, l: Label)
    requires Enabled(s, l) && (l.CleanupStarts? || l.UnregisterReturns? || l.AcceptFails?)
    ensures Apply(s, l).sessions == s.sessions
  {
  }

  lemma OtherSessionsStay(s: State, l: Label, sid: Sid)
    requires Enabled(s, l) && sid < |s.sessions| && !OfSession(l, sid)
    ensures sid < |Apply(s, l).sessions| && Apply(s, l).sessions[sid] == s.sessions[sid]
  {
    if l.StatReturns? || l.RegisterReturns? || l.AnnounceReturns? { HandleStays(s, l, l.sid); }
    else if l.RecvReturns? || l.SendReturns? || l.PeerDone? { RestStays(s, l, l.sid); }
    else if !l.Accept? { CleanupStays(s, l); }
  }

  lemma StatTells(s: State, sid: Sid, r: StatResult, st: seq<Label>)
    requires Inv(s) && Enabled(s, StatReturns(sid, r)) && Tells(st, sid, s.sessions[sid])
    ensures Tells(st + [StatReturns(sid, r)], sid, Apply(s, StatReturns(sid, r)).sessions[sid])
  {
    assert Ok(s, sid);
  }

  lemma RegisterTells(s: State, sid: Sid, r: RegisterResult, st: seq<Label>)
    requires Inv(s) && Enabled(s, RegisterReturns(sid, r)) && Tells(st, sid, s.sessions[sid])
    ensures Tells(st + [RegisterReturns(sid, r)], sid, Apply(s, RegisterReturns(sid, r)).sessions[sid])
  {
    assert Ok(s, sid);
  }

  lemma AnnounceTells(s: State, sid: Sid, code: int, st: seq<Label>)
    requires Enabled(s, AnnounceReturns(sid, code)) && Tells(st, sid, s.sessions[sid])
    ensures Tells(st + [AnnounceReturns(sid, code)], sid, Apply(s, AnnounceReturns(sid, code)).sessions[sid])
  {
  }

  lemma FailedSendTells(s: State, ok: bool, st: seq<Label>, sid: Sid)
    requires sid < |s.sessions| && s.sessions[sid].phase.Sending? && s.sessions[sid].phase.res < 0
    requires Tells(st, sid, s.sessions[sid])
    ensures Tells(st + [SendReturns(sid, ok)], sid, Apply(s, SendReturns(sid, ok)).sessions[sid])
  {
    var more := st + [SendReturns(sid, ok)];
    assert more[..|more| - 1] == st && more[|more| - 2] == st[|st| - 1];
  }

  lemma SentTells(s: State, ok: bool, st: seq<Label>, sid: Sid)
    requires sid < |s.sessions| && s.sessions[sid].phase.Sending? && s.sessions[sid].phase.res >= 0
    requires Tells(st, sid, s.sessions[sid])
    ensures Tells(st + [SendReturns(sid, ok)], sid, Apply(s, SendReturns(sid, ok)).sessions[sid])
  {
  }

  lemma HangUpTells(s: State, st: seq<Label>, sid: Sid)
    requires Enabled(s, PeerDone(sid)) && Tells(st, sid, s.sessions[sid])
    ensures Tells(st + [PeerDone(sid)], sid, Apply(s, PeerDone(sid)).sessions[sid])
  {
  }

  lemma StepTells(s: State, l: Label, st: seq<Label>, sid: Sid)
    requires Inv(s) && Enabled(s, l) && OfSession(l, sid) && Tells(st, sid, s.sessions[sid])
    ensures |Apply(s, l).sessions| == |s.sessions|
    ensures Tells(st + [l], sid, Apply(s, l).sessions[sid])
  {
    if l.StatReturns? || l.RegisterReturns? || l.AnnounceReturns? {
      HandleStays(s, l, sid);
    } else {
      RestStays(s, l, sid);
    }
    match l
    case RecvReturns(_, _) =>
    case StatReturns(_, r) => StatTells(s, sid, r, st);
    case RegisterReturns(_, r) => RegisterTells(s, sid, r, st);
    case AnnounceReturns(_, code) => AnnounceTells(s, sid, code, st);
    case SendReturns(_, ok) =>
      if s.sessions[sid].phase.res < 0 { FailedSendTells(s, ok, st, sid); } else { SentTells(s, ok, st, sid); }
    case PeerDone(_) => HangUpTells(s, st, sid);
  }

  // ---------------------------------------------------------------- runs

  lemma {:induction false} ExecLast(s: State, ls: seq<Label>, s': State) returns (mid: State)
    requires ls != [] && Exec(s, ls, s')
    ensures Exec(s, ls[..|ls| - 1], mid) && Enabled(mid, ls[|ls| - 1]) && s' == Apply(mid, ls[|ls| - 1])
    decreases |ls|
  {
    if |ls| == 1 {
      mid := s;
    } else {
      mid := ExecLast(Apply(s, ls[0]), ls[1..], s');
      assert ls[1..][..|ls| - 2] == ls[..|ls| - 1][1..];
    }
  }

  predicate Told(s: State, ls: seq<Label>, sid: Sid) {
    if sid < |s.sessions| then Tells(Story(ls, sid), sid, s.sessions[sid]) else Story(ls, sid) == []
  }

  lemma StorySnoc(ls: seq<Label>, l: Label, sid: Sid)
    ensures Story(ls + [l], sid) == if OfSession(l, sid) then Story(ls, sid) + [l] else Story(ls, sid)
  {
    assert (ls + [l])[..|ls|] == ls;
  }

  lemma NewTold(s: State, ls: seq<Label>, l: Label, sid: Sid)
    requires Enabled(s, l) && |s.sessions| <= sid && Story(ls, sid) == []
    ensures Told(Apply(s, l), ls + [l], sid)
  {
    StorySnoc(ls, l, sid);
    if l.StatReturns? || l.RegisterReturns? || l.AnnounceReturns? { HandleStays(s, l, l.sid); }
    else if l.RecvReturns? || l.SendReturns? || l.PeerDone? { RestStays(s, l, l.sid); }
    else if !l.Accept? { CleanupStays(s, l); }
  }

  lemma StepTold(s: State, ls: seq<Label>, l: Label, sid: Sid)
    requires Inv(s) && Enabled(s, l) && Told(s, ls, sid)
    ensures Told(Apply(s, l), ls + [l], sid)
  {
    StorySnoc(ls, l, sid);
    if |s.sessions| <= sid {
      NewTold(s, ls, l, sid);
    } else if OfSession(l, sid) {
      StepTells(s, l, Story(ls, sid), sid);
    } else {
      OtherSessionsStay(s, l, sid);
    }
  }

  /** In every reachable state of every interleaving, a session's phase and fields are those that its own
      labels tell. */
  lemma {:induction false} SessionStory(s0: State, ls: seq<Label>, s: State, sid: Sid)
    requires Reaches(s0, ls, s)
    ensures Told(s, ls, sid)
    decreases |ls|
  {
    if ls != [] {
      var k := |ls| - 1;
      var mid := ExecLast(s0, ls, s);
      SessionStory(s0, ls[..k], mid, sid);
      ReachesInv(s0, ls[..k], mid);
      StepTold(mid, ls[..k], ls[k], sid);
      assert ls == ls[..k] + [ls[k]];
    }
  }

  lemma {:induction false} InStory(ls: seq<Label>, sid: Sid, l: Label)
    requires OfSession(l, sid)
    ensures l in Story(ls, sid) <==> l in ls
    decreases |ls|
  {
    if ls != [] {
      var k := |ls| - 1;
      InStory(ls[..k], sid, l);
      assert ls == ls[..k] + [ls[k]];
    }
  }

  // ---------------------------------------------------------------- how long a registration lasts

  /** The session holds its mapping and its registration. */
  predicate Holds(s: State, sid: Sid) {
    && sid < |s.sessions|
    && var x := s.sessions[sid];
       && x.base.Some? && x.base.value in s.maps && s.maps[x.base.value] == Mapping(sid, x.size)
       && x.index >= 0 && x.index in s.regs && s.regs[x.index] == sid
  }

  /** Once handle() has succeeded the client's memory stays mapped and registered, and no cleanup is started,
      until sending the reply fails or the client is done; then a cleanup is started. In between the session
      sends the reply, then waits. */
  lemma KeptUntilHangUp(s0: State, ls: seq<Label>, s: State, sid: Sid)
    requires Reaches(s0, ls, s) && AnnounceReturns(sid, 0) in ls
    ensures sid < |s.sessions|
    ensures sid in s.cleanups <==> SendReturns(sid, false) in ls || PeerDone(sid) in ls
    ensures sid !in s.cleanups ==>
              && Holds(s, sid)
              && s.sessions[sid].phase == if SendReturns(sid, true) in ls then Waiting else Sending(0)
  {
    var st := Story(ls, sid);
    SessionStory(s0, ls, s, sid);
    SessionIsOk(s0, ls, s, sid);
    InStory(ls, sid, AnnounceReturns(sid, 0));
    InStory(ls, sid, SendReturns(sid, false));
    InStory(ls, sid, SendReturns(sid, true));
    InStory(ls, sid, PeerDone(sid));
    DoneStory(st, sid, s.sessions[sid]);
  }

  /** What a story with a successful handle() says. */
  lemma DoneStory(st: seq<Label>, sid: Sid, x: Session)
    requires Tells(st, sid, x) && AnnounceReturns(sid, 0) in st
    ensures HandleDone(st, sid, x)
    ensures x.phase.Closed? <==> SendReturns(sid, false) in st || PeerDone(sid) in st
    ensures !x.phase.Closed? ==> x.phase == if SendReturns(sid, true) in st then Waiting else Sending(0)
  {
  }

  lemma SessionIsOk(s0: State, ls: seq<Label>, s: State, sid: Sid)
    requires Reaches(s0, ls, s)
    ensures Inv(s)
    ensures sid < |s.sessions| ==> Ok(s, sid)
  {
    ReachesInv(s0, ls, s);
  }

  /** The error of a failed handle(). */
  predicate FailsWith(l: Label, sid: Sid, code: int) {
    || l == StatReturns(sid, StatFails(code))
    || (l.StatReturns? && l.sid == sid && l.st.MapFails? && l.st.code == code)
    || l == RegisterReturns(sid, RegisterFails(code))
    || (l == AnnounceReturns(sid, code) && code > 0)
  }

  /** A failed handle() starts the cleanup at once and its negated code is what the client is sent; once
      that is over, whether it worked or not, the session is closed. */
  lemma FailureIsReported(s0: State, ls: seq<Label>, s: State, sid: Sid, l: Label, code: int)
    requires Reaches(s0, ls, s) && l in ls && FailsWith(l, sid, code)
    ensures sid < |s.sessions| && sid in s.cleanups
    ensures s.sessions[sid].phase
            == if SendReturns(sid, true) in ls || SendReturns(sid, false) in ls then Closed else Sending(-code)
  {
    SessionStory(s0, ls, s, sid);
    SessionIsOk(s0, ls, s, sid);
    InStory(ls, sid, l);
    InStory(ls, sid, SendReturns(sid, false));
    InStory(ls, sid, SendReturns(sid, true));
    KnownSession(s, ls, sid, l);
    FailedStory(Story(ls, sid), sid, s.sessions[sid], l, code);
  }

  lemma KnownSession(s: State, ls: seq<Label>, sid: Sid, l: Label)
    requires Told(s, ls, sid) && l in Story(ls, sid)
    ensures sid < |s.sessions| && Tells(Story(ls, sid), sid, s.sessions[sid])
  {
  }

  lemma FailedStory(st: seq<Label>, sid: Sid, x: Session, l: Label, code: int)
    requires Tells(st, sid, x) && l in st && FailsWith(l, sid, code)
    ensures x.phase == if SendReturns(sid, true) in st || SendReturns(sid, false) in st then Closed else Sending(-code)
    ensures x.entered
  {
    if x.phase.Closed? && EndedFailed(st, sid, x) {
      assert st[|st| - 1] in st;
    }
  }
}
