/** Module start-up of the PHP extension: the cross-process readiness flag, the order in which
    `init` sets the pipeline up, and the service-instance name. */
module PhpModule {
  import opened Wrappers
  import Strings
  import Util
  import Channel
  import Execute

  /** The boolean in shared memory that says the reporter is ready for requests. It starts false
      and the only store ever made is `true`. */
  class ReadyFlag {
    var ready: bool

    /** `get_ready_for_request`'s lazy initialisation. */
    constructor ()
      ensures !ready
    {
      ready := false;
    }

    /** `is_ready_for_request`: a load, which changes nothing. */
    method IsReady() returns (b: bool)
      ensures b == ready
    {
      b := ready;
    }

    /** `mark_ready_for_request`: idempotent, and never clears the flag. */
    method MarkReady()
      modifies this
      ensures ready
    {
      ready := true;
    }
  }

  /** `SERVICE_INSTANCE`: a random id, an `@`, and the first of the host's addresses. `IPS` is never
      empty, so this is defined for every interface query. */
  function ServiceInstance(randomId: string, query: Option<seq<Util.Network>>): (r: string)
    ensures |r| > |randomId| + 1
    ensures r[..|randomId|] == randomId && r[|randomId|] == '@'
    ensures r[|randomId| + 1..] == Util.Ips(query)[0]
  {
    randomId + "@" + Util.Ips(query)[0]
  }

  /** The instance name can be taken apart again at its first `@` when the random id has none: the
      id comes back, and so does the address. */
  lemma ServiceInstanceSplits(randomId: string, query: Option<seq<Util.Network>>)
    requires '@' !in randomId
    ensures Strings.SplitOnce(ServiceInstance(randomId, query), '@') == Some((randomId, Util.Ips(query)[0]))
  {
    Strings.SplitOnceAt(randomId, '@', Util.Ips(query)[0]);
  }

  const FPM_SAPI: string := "fpm-fcgi"

  /** `init`. `sapiName` is the server API the extension is loaded into, `enabled` the
      `skywalking_agent.enable` setting and `created` whether `ipc::channel()` succeeds inside
      `init_channel`. `reporterStarted` says whether `init_reporter` was called. Logger setup is not
      modelled. The result is `true` on every path. */
  method Init(sapiName: string, enabled: bool, created: bool, channel: Channel.Channel, engine: Execute.Engine)
    returns (ok: bool, reporterStarted: bool)
    modifies channel, engine
    ensures ok
    ensures sapiName != FPM_SAPI || !enabled ==>
      !reporterStarted && channel.State() == old(channel.State()) &&
      engine.zendExecuteInternal == old(engine.zendExecuteInternal) &&
      engine.oriExecuteInternal == old(engine.oriExecuteInternal)
    ensures sapiName == FPM_SAPI && enabled ==>
      channel.State() == Channel.InitStep(old(channel.State()), created).0
    ensures reporterStarted <==>
      sapiName == FPM_SAPI && enabled && Channel.InitStep(old(channel.State()), created).1.Success?
    ensures reporterStarted ==>
      engine.oriExecuteInternal == old(engine.zendExecuteInternal) &&
      engine.zendExecuteInternal == Some(Execute.AgentExecuteInternal)
    ensures !reporterStarted ==>
      engine.zendExecuteInternal == old(engine.zendExecuteInternal) &&
      engine.oriExecuteInternal == old(engine.oriExecuteInternal)
  {
    reporterStarted := false;
    if sapiName != FPM_SAPI {
      return true, false;
    }
    if enabled {
      var initialised := channel.Init(created);
      if initialised.Failure? {
        return true, false;
      }
      engine.RegisterExecuteFunctions();
      reporterStarted := true;
    }
    ok := true;
  }
}
