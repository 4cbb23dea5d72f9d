/** A session object as the code updates it. Each method runs from one suspension point to the next
    and is proved to do to its fields, and to the cleanup task it may spawn, what the matching step
    of ShmServer does. */
module ShmSession {
  import opened Options
  import S = ShmServer

  /** In state s, step l turns session sid into x and spawns the given cleanup, if any. */
  predicate Does(s: S.State, sid: S.Sid, l: S.Label, x: S.Session, spawned: Option<S.Cleanup>) {
    && sid < |s.sessions| && S.Enabled(s, l)
    && S.Apply(s, l).sessions == s.sessions[sid := x]
    && S.Apply(s, l).cleanups == if spawned.Some? then s.cleanups[sid := spawned.value] else s.cleanups
  }

  class Session {
    var phase: S.Phase
    var entered: bool
    var size: nat
    var base: Option<S.Addr>
    var index: int

    constructor ()
      ensures Abs() == S.Session(S.Receiving, false, 0, None, -1)
    {
      phase, entered, size, base, index := S.Receiving, false, 0, None, -1;
    }

    function Abs(): S.Session
      reads this
    {
      S.Session(phase, entered, size, base, index)
    }

    predicate Is(s: S.State, sid: S.Sid)
      reads this
    {
      sid < |s.sessions| && s.sessions[sid] == Abs()
    }

    /** cleanup: the task gets a copy of the fields. */
    method Cleanup() returns (k: S.Cleanup)
      ensures k == S.Cleanup(S.Spawned, size, base, index)
    {
      k := S.Cleanup(S.Spawned, size, base, index);
    }

    /** handle throws or is stopped: its deferred cleanup runs, and the code becomes the result. */
    method HandleEnds(code: int) returns (spawned: Option<S.Cleanup>)
      modifies this`phase
      ensures Abs() == old(Abs()).(phase := S.Sending(-code))
      ensures spawned == Some(S.Cleanup(S.Spawned, size, base, index))
    {
      var k := Cleanup();
      spawned := Some(k);
      phase := S.Sending(-code);
    }

    method AfterReceive(fd: bool, ghost s: S.State, ghost sid: S.Sid)
      requires Is(s, sid) && S.Enabled(s, S.RecvReturns(sid, fd))
      modifies this`phase, this`entered
      ensures Does(s, sid, S.RecvReturns(sid, fd), Abs(), None)
    {
      if fd {
        phase, entered := S.Statting, true;
      } else {
        phase := S.Closed;
      }
    }

    method AfterStat(st: S.StatResult, ghost s: S.State, ghost sid: S.Sid) returns (spawned: Option<S.Cleanup>)
      requires Is(s, sid) && S.Enabled(s, S.StatReturns(sid, st)) && sid !in s.cleanups
      modifies this`phase, this`size, this`base
      ensures Does(s, sid, S.StatReturns(sid, st), Abs(), spawned)
    {
      if st.StatFails? {
        spawned := HandleEnds(st.code);
        return;
      }
      size := st.size;
      if st.MapFails? {
        spawned := HandleEnds(st.code);
        return;
      }
      base := Some(st.addr);
      phase := S.Registering;
      spawned := None;
    }

    method AfterRegister(rr: S.RegisterResult, ghost s: S.State, ghost sid: S.Sid) returns (spawned: Option<S.Cleanup>)
      requires Is(s, sid) && S.Enabled(s, S.RegisterReturns(sid, rr)) && sid !in s.cleanups
      modifies this`phase, this`index
      ensures Does(s, sid, S.RegisterReturns(sid, rr), Abs(), spawned)
    {
      if rr.RegisterFails? {
        spawned := HandleEnds(rr.code);
        return;
      }
      index := rr.index;
      phase := S.Announcing;
      spawned := None;
    }

    method AfterAnnounce(code: int, ghost s: S.State, ghost sid: S.Sid) returns (spawned: Option<S.Cleanup>)
      requires Is(s, sid) && S.Enabled(s, S.AnnounceReturns(sid, code)) && sid !in s.cleanups
      modifies this`phase
      ensures Does(s, sid, S.AnnounceReturns(sid, code), Abs(), spawned)
    {
      if code > 0 {
        spawned := HandleEnds(code);
        return;
      }
      phase := S.Sending(0);
      spawned := None;
    }

    /** shm_session ends: its deferred cleanup runs if handle had succeeded. */
    method Close(res: int) returns (spawned: Option<S.Cleanup>)
      modifies this`phase
      ensures Abs() == old(Abs()).(phase := S.Closed)
      ensures spawned == if res >= 0 then Some(S.Cleanup(S.Spawned, size, base, index)) else None
    {
      phase := S.Closed;
      if res >= 0 {
        var k := Cleanup();
        return Some(k);
      }
      spawned := None;
    }

    method AfterSend(ok: bool, ghost s: S.State, ghost sid: S.Sid) returns (spawned: Option<S.Cleanup>)
      requires Is(s, sid) && S.Enabled(s, S.SendReturns(sid, ok))
      requires phase.Sending? && phase.res >= 0 ==> sid !in s.cleanups
      modifies this`phase
      ensures Does(s, sid, S.SendReturns(sid, ok), Abs(), spawned)
    {
      var res := phase.res;
      if !ok || res < 0 {
        spawned := Close(res);
        return;
      }
      phase := S.Waiting;
      spawned := None;
    }

    method AfterHangUp(ghost s: S.State, ghost sid: S.Sid) returns (spawned: Option<S.Cleanup>)
      requires Is(s, sid) && S.Enabled(s, S.PeerDone(sid)) && sid !in s.cleanups
      modifies this`phase
      ensures Does(s, sid, S.PeerDone(sid), Abs(), spawned)
    {
      spawned := Close(0);
    }
  }
}
