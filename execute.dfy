/** The hook that the agent installs as the interpreter's `zend_execute_internal`: it looks up a
    plugin for the called function and wraps the original handler between the plugin's before- and
    after-hooks. The interpreter's data and the hooks' own work are outside the model; what is
    modelled is which calls happen, in what order. */
module Execute {
  import opened Wrappers

  /** A handler the interpreter can call for an internal function. */
  datatype Handler =
    | AgentExecuteInternal    // the agent's own `execute_internal`
    | SysExecuteInternal      // the interpreter's default, `sys::execute_internal`
    | Installed(id: nat)      // a handler some other extension installed earlier

  /** `raw_ori_execute_internal`: the saved previous handler, or the default when none was saved. */
  function OriginalHandler(saved: Option<Handler>): (h: Handler)
    ensures saved.Some? ==> h == saved.value
    ensures saved.None? ==> h == SysExecuteInternal
  {
    match saved
    case Some(f) => f
    case None => SysExecuteInternal
  }

  /** The two interpreter globals involved: the installed `zend_execute_internal` hook and the
      agent's `ORI_EXECUTE_INTERNAL` copy of the one it replaced. */
  class Engine {
    var zendExecuteInternal: Option<Handler>
    var oriExecuteInternal: Option<Handler>

    /** The handler the agent falls back to. */
    function Original(): Handler
      reads this
    {
      OriginalHandler(oriExecuteInternal)
    }

    constructor (installed: Option<Handler>)
      ensures zendExecuteInternal == installed && oriExecuteInternal == None
    {
      zendExecuteInternal, oriExecuteInternal := installed, None;
    }

    /** `register_execute_functions`: remember the current hook, then install the agent's. Unless
        the agent was already installed, the fallback is never the agent itself. */
    method RegisterExecuteFunctions()
      modifies this
      ensures oriExecuteInternal == old(zendExecuteInternal)
      ensures zendExecuteInternal == Some(AgentExecuteInternal)
      ensures Original() == OriginalHandler(old(zendExecuteInternal))
      ensures old(zendExecuteInternal) != Some(AgentExecuteInternal) ==> Original() != AgentExecuteInternal
    {
      oriExecuteInternal := zendExecuteInternal;
      zendExecuteInternal := Some(AgentExecuteInternal);
    }
  }

  /** How a before- or after-hook ends; errors and panics are both caught. */
  datatype HookOutcome = HookOk | HookError | HookPanic

  /** The observable steps of one call of `execute_internal`. */
  datatype Action =
    | RunOriginal(handler: Handler)
    | SelectPlugin
    | LookUpHook
    | RunBefore
    | LogBeforeFailure
    | RunAfter
    | LogAfterFailure

  /** The trace calls a handler exactly once, and that handler is `h`. */
  ghost predicate RunsOriginalOnce(trace: seq<Action>, h: Handler) {
    exists k :: 0 <= k < |trace| && trace[k] == RunOriginal(h) &&
      forall i :: 0 <= i < |trace| && i != k ==> !trace[i].RunOriginal?
  }

  /** `execute_internal`. `ready` is the readiness flag, `nameDecodes` whether the function name is
      valid UTF-8, `pluginFound` and `hookFound` the outcomes of `select_plugin` and `plugin.hook`,
      `before` and `after` how the hooks end, `saved` the value of `ORI_EXECUTE_INTERNAL`. */
  method ExecuteInternal(ready: bool, nameDecodes: bool, pluginFound: bool, hookFound: bool,
                         before: HookOutcome, after: HookOutcome, saved: Option<Handler>)
    returns (trace: seq<Action>)
    // the original handler runs exactly once, and it is always the saved one (or the default)
    ensures RunsOriginalOnce(trace, OriginalHandler(saved))
    // no plugin lookup at all before the agent is ready or when the name is not UTF-8
    ensures !ready || !nameDecodes ==> trace == [RunOriginal(OriginalHandler(saved))]
    ensures SelectPlugin in trace <==> ready && nameDecodes
    ensures RunBefore in trace <==> ready && nameDecodes && pluginFound && hookFound
    // the after-hook runs if and only if the before-hook ran and returned Ok
    ensures RunAfter in trace <==> RunBefore in trace && before == HookOk
    // the before-hook runs before the original handler and the after-hook after it
    ensures forall i, j :: 0 <= i < |trace| && 0 <= j < |trace| && trace[i] == RunBefore && trace[j].RunOriginal? ==> i < j
    ensures forall i, j :: 0 <= i < |trace| && 0 <= j < |trace| && trace[i].RunOriginal? && trace[j] == RunAfter ==> i < j
    // hook failures are logged, never propagated
    ensures LogBeforeFailure in trace <==> RunBefore in trace && before != HookOk
    ensures LogAfterFailure in trace <==> RunAfter in trace && after != HookOk
  {
    var original := OriginalHandler(saved);
    ghost var at: nat;  // where the original handler runs
    if !ready {
      trace, at := [RunOriginal(original)], 0;
    } else if !nameDecodes {
      trace, at := [RunOriginal(original)], 0;
    } else if !pluginFound {
      trace, at := [SelectPlugin, RunOriginal(original)], 1;
    } else if !hookFound {
      trace, at := [SelectPlugin, LookUpHook, RunOriginal(original)], 2;
    } else if before != HookOk {
      trace, at := [SelectPlugin, LookUpHook, RunBefore, LogBeforeFailure, RunOriginal(original)], 4;
    } else if after != HookOk {
      trace, at := [SelectPlugin, LookUpHook, RunBefore, RunOriginal(original), RunAfter, LogAfterFailure], 3;
    } else {
      trace, at := [SelectPlugin, LookUpHook, RunBefore, RunOriginal(original), RunAfter], 3;
    }
    assert trace[at] == RunOriginal(original);
  }

  datatype ArgError = ArgumentCountIncorrect

  /** `validate_num_args`: an error exactly when fewer than `num` arguments were passed. */
  function ValidateNumArgs(numArgs: nat, num: nat): (r: Result<(), ArgError>)
    ensures r.Failure? <==> numArgs < num
  {
    if numArgs < num then Failure(ArgumentCountIncorrect) else Success(())
  }
}
