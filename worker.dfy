/** The worker variant of the consumer process: connect with endless retry, mark the agent ready,
    then hand the connection to the tracer's reporting loop. */
module Worker {
  import opened Wrappers
  import Channel
  import PhpModule
  import opened Retry

  type Positive = x: nat | x >= 1 witness 1

  /** `worker_threads`: the configured count when it is positive, otherwise the available
      parallelism, or 1 when that cannot be determined. The runtime always gets at least one
      thread. */
  function WorkerThreads(configured: Option<Channel.I64>, parallelism: Option<Positive>): (r: nat)
    ensures r >= 1
    ensures configured.Some? && configured.value > 0 ==> r == configured.value
    ensures !(configured.Some? && configured.value > 0) && parallelism.Some? ==> r == parallelism.value
    ensures !(configured.Some? && configured.value > 0) && parallelism.None? ==> r == 1
  {
    var setting := configured.GetOr(0);
    if setting <= 0 then parallelism.GetOr(1) else setting
  }

  /** Where `start_worker` is when the observed outcomes run out. */
  datatype Phase = EndpointInvalid | Connecting | Reporting | ReportingStopped

  /** `connect`: retries with the fixed delay and returns only with a connection. */
  method Connect(connects: seq<bool>) returns (connected: bool, events: seq<Event>)
    ensures connected <==> true in connects
    ensures events == RetrySteps(ConnectServer, connects)
  {
    var attempts;
    connected, attempts, events := RetryUntilSuccess(ConnectServer, connects);
  }

  /** The log of `start_worker`: nothing for an invalid address; otherwise the connect attempts,
      and once connected the readiness mark followed by the start of reporting, whose failure is
      logged. */
  function WorkerLog(endpointValid: bool, connects: seq<bool>, reportingFails: bool): seq<Event>
  {
    if !endpointValid then []
    else if true !in connects then RetrySteps(ConnectServer, connects)
    else RetrySteps(ConnectServer, connects) + [MarkReady, ReportingStarted] + (if reportingFails then [ReportingFailed] else [])
  }

  /** Readiness is marked only after a successful connect, immediately after it, and reporting
      starts only after readiness was marked. */
  lemma WorkerReadyOrdering(endpointValid: bool, connects: seq<bool>, reportingFails: bool)
    ensures var log := WorkerLog(endpointValid, connects, reportingFails);
            MarkReady in log <==> endpointValid && true in connects
    ensures var log := WorkerLog(endpointValid, connects, reportingFails);
            forall i :: 0 <= i < |log| && log[i] == MarkReady ==> i >= 1 && log[i - 1] == Attempt(ConnectServer, true)
    ensures var log := WorkerLog(endpointValid, connects, reportingFails);
            forall i :: 0 <= i < |log| && log[i] == ReportingStarted ==> i >= 1 && log[i - 1] == MarkReady
  {
    RetryStepsShape(ConnectServer, connects);
    var log := WorkerLog(endpointValid, connects, reportingFails);
    var c := RetrySteps(ConnectServer, connects);
    if endpointValid && true in connects {
      assert log[|c|] == MarkReady;
    } else if endpointValid {
      assert log == c;
      assert MarkReady !in c by {
        forall k | 0 <= k < |c| ensures c[k] != MarkReady { }
      }
    }
  }

  /** `start_worker`, for one observed run. `reportingFails` is whether the tracer's reporting loop
      ends with an error; the error is logged and not passed on. */
  method StartWorker(endpointValid: bool, connects: seq<bool>, reportingFails: bool, flag: PhpModule.ReadyFlag)
    returns (phase: Phase, events: seq<Event>)
    modifies flag
    ensures events == WorkerLog(endpointValid, connects, reportingFails)
    ensures flag.ready == (old(flag.ready) || (endpointValid && true in connects))
    ensures phase == if !endpointValid then EndpointInvalid
                     else if true !in connects then Connecting
                     else if reportingFails then ReportingStopped
                     else Reporting
  {
    if !endpointValid {
      return EndpointInvalid, [];
    }
    var connected;
    connected, events := Connect(connects);
    if !connected {
      return Connecting, events;
    }
    flag.MarkReady();
    events := events + [MarkReady, ReportingStarted];
    if reportingFails {
      events := events + [ReportingFailed];
      phase := ReportingStopped;
    } else {
      phase := Reporting;
    }
  }
}
