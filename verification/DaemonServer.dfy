/** The daemon calls as the code performs them, command by command; each is proved to do what its
    function in DaemonLifecycle says. */
module DaemonServer {
  import opened Options
  import opened DaemonLifecycle

  class Control {
    var world: World
    const env: Env

    constructor (world: World, answer: nat -> Answer)
      ensures this.world == world && env == Env(answer, MAX_RETRY)
    {
      this.world := world;
      this.env := Env(answer, MAX_RETRY);
    }

    /** One control command reaches the driver. */
    method Command(cmd: Command) returns (r: Reply)
      modifies this
      ensures (world, r) == Issue(env, old(world), cmd)
    {
      var answer := Issue(env, world, cmd);
      world := answer.0;
      r := answer.1;
    }

    /** One try of `get_dev_info`; `ok` is false if it should be tried again. */
    method TryQuery(id: DevId) returns (ok: bool, r: Result<Info>)
      modifies this
      ensures ok == (Issue(env, old(world), GetDevInfo2(id)).1 != Failed(EACCES))
      ensures !ok ==> world == Issue(env, old(world), GetDevInfo2(id)).0 && r == Err(EACCES)
      ensures ok ==> forall n: nat :: Query(env, old(world), id, n) == (world, r)
    {
      var reply := Command(GetDevInfo2(id));
      if reply.GotInfo? {
        return true, Ok(reply.info);
      }
      if reply == Failed(EACCES) {
        return false, Err(EACCES);
      }
      if reply == Failed(EOPNOTSUPP) {
        reply := Command(GetDevInfo(id));
        return true, if reply.GotInfo? then Ok(reply.info) else Err(ErrorOf(reply));
      }
      return true, Err(ErrorOf(reply));
    }

    method QueryDevice(id: DevId) returns (r: Result<Info>)
      modifies this
      ensures (world, r) == Query(env, old(world), id, env.retries)
    {
      ghost var before := world;
      var ok;
      ok, r := TryQuery(id);
      var i := 0;
      while !ok && i < env.retries
        invariant i <= env.retries
        invariant ok ==> (world, r) == Query(env, old(world), id, env.retries)
        invariant !ok ==> Issue(env, before, GetDevInfo2(id)) == (world, Failed(EACCES)) && r == Err(EACCES)
        invariant !ok ==> Query(env, old(world), id, env.retries) == Query(env, before, id, env.retries - i)
      {
        before := world;
        ok, r := TryQuery(id);
        i := i + 1;
      }
    }

    method CachedInfo(cache: Option<Info>, id: DevId) returns (r: Result<Info>)
      modifies this
      ensures (world, r) == CachedQuery(env, old(world), cache, id)
    {
      if cache.Some? && cache.value.devId == id {
        return Ok(cache.value);
      }
      r := QueryDevice(id);
    }

    method SendCommand(cache: Option<Info>, cmd: Command) returns (r: Reply)
      modifies this
      ensures (world, r) == Send(env, old(world), cache, cmd)
    {
      var info := CachedInfo(cache, Target(cmd));
      if info.Err? {
        return Failed(info.code);
      }
      r := Command(WithPath(cmd, Unprivileged(info.value)));
    }

    method SetUp(given: Info) returns (r: Result<bool>, info: Info)
      modifies this
      ensures (world, r, info) == Setup(env, old(world), given)
    {
      info := given;
      var reply := Command(AddDev(info));
      if reply.GotInfo? {
        return Ok(true), reply.info;
      }
      if info.devId == ANY_ID || reply != Failed(EEXIST) {
        return Err(ErrorOf(reply)), info;
      }
      var found := QueryDevice(info.devId);
      if found.Err? {
        return Err(found.code), info;
      }
      info := found.value;
      if UserRecovery(info) && NeedRecovery(info) {
        reply := SendCommand(Some(info), StartRecovery(info.devId, false));
        if reply.Failed? {
          return Err(reply.code), info;
        }
      }
      r := Ok(false);
    }

    method ConfigureDevice(cache: Option<Info>, id: DevId, given: Params, size: nat)
        returns (r: Result<bool>, params: Params)
      modifies this
      ensures (world, r, params) == Configure(env, old(world), cache, id, given, size)
    {
      params := given;
      var info := CachedInfo(cache, id);
      if info.Err? {
        return Err(info.code), params;
      }
      if info.value.state.Dead? {
        var reply := SendCommand(Some(info.value), SetParams(id, params.(len := size), false));
        r := if reply.Failed? then Err(reply.code) else Ok(true);
      } else {
        var reply := SendCommand(Some(info.value), GetParams(id, false));
        if reply.GotParams? {
          return Ok(false), reply.params;
        }
        params := params.(len := size);
        r := Err(ErrorOf(reply));
      }
    }

    method StartDevice(cache: Option<Info>, id: DevId, pid: int) returns (r: Result<()>)
      modifies this
      ensures (world, r) == Start(env, old(world), cache, id, pid)
    {
      var info := CachedInfo(cache, id);
      if info.Err? {
        return Err(info.code);
      }
      var reply;
      if !NeedRecovery(info.value) {
        reply := SendCommand(Some(info.value), StartDev(id, pid, false));
      } else if UserRecovery(info.value) {
        reply := SendCommand(Some(info.value), EndRecovery(id, pid, false));
      } else {
        return Err(NOT_STARTABLE);
      }
      r := if reply.Failed? then Err(reply.code) else Ok(());
    }
  }
}
