# SkyWalking PHP agent core, modelled in Dafny

This project models the core of the SkyWalking PHP agent, a PHP extension written in Rust. The
agent does five things:

- It hooks the interpreter's `zend_execute_internal` so that calls to internal functions pass through
  the registered plugins. Only the curl plugin is registered; the PDO plugin's source is present but
  not compiled in.
- It buffers trace segments in a cross-process channel.
- Every FPM worker process sends segments into that buffer.
- A background reporter connects to a SkyWalking collector, marks the agent ready for requests and
  drains the channel.
- It keeps a per-request tracing context in a one-slot store.

Each core source file becomes one Dafny module:

| module | source | form |
|---|---|---|
| `Channel` | `src/channel.rs` | class `Channel` whose methods are proved against the step functions `InitStep`, `SendStep`, `ReceiveStep` and `TryReceiveStep` on a `ChannelState` value; the lemmas about the step functions cover FIFO order, the capacity of 100, counter drift and the wrap-around of the `usize` counter |
| `Execute` | `src/execute.rs` | class `Engine` for the two handler globals; `ExecuteInternal` returns the trace of actions that one call performs |
| `PhpModule` | `src/module.rs` | class `ReadyFlag` for the shared ready flag; `Init` changes a `Channel` and an `Engine` |
| `Retry` | retry loops of `src/report.rs` and `src/worker.rs` | the connect/register retry loop as a `while` method proved against `RetrySteps` |
| `Report` | `src/report.rs` | `StartReporter`, `ReportInstanceProperties` and `ReceiveAndTrace` as methods over the channel, specified by the event logs `ReporterLog` and `TurnEvents` |
| `Worker` | `src/worker.rs` | `StartWorker` and `Connect`, specified by `WorkerLog` |
| `Util` | `src/util.rs` | pure functions: the address list `IPS`, `HOST_NAME`, `OS_NAME` |
| `Plugin` | `src/plugin/mod.rs` | `SelectPlugin`, a `for` loop with `break` that yields the first match |
| `Pdo` | `src/plugin/pdo.rs` | the hook table, the DSN parser (`FromStr` is the reference and `ParseDsn` is the loop), and class `DsnMap` |
| `Context` | `src/context.rs` | class `RequestContextSlot` holding one optional `RequestContext` |
| `Strings`, `Wrappers` | support | Rust's `splitn(2, c)` and `split(c)`; `Option` and `Result` |

Inputs the agent reads from outside become parameters. These are the PHP ini settings, whether
`ipc::channel()` or an `IpcSender::send` succeeds, and each connect, register, decode and collect
attempt. A loop that never ends in the source, such as the retry loops and the drain loop, gets one
finite sequence of outcomes per observed run. It runs until that sequence is used up, and the model
then reports the phase it is still in.

The source behaves as follows, and the model keeps it:

- `channel_send` does not check the message size. The size check is commented out
  (src/channel.rs:92-94), and `MAX_LENGTH` is only computed.
- There is no compensating decrement. A send refused with "fulled", "not initialized" or "send
  failed" still leaves the shared counter one higher. Once the receiver exists, a receive or
  try-receive that returns decrements the counter even when it returns an error or nothing, so the
  counter can fall below zero. It then wraps to
  `usize::MAX`, which makes the next send fail as "fulled" and wraps the counter back to zero.
- `report.rs` marks the agent ready right after the connection is made. Registration of the instance
  properties comes after that (src/report.rs:86-89).
- `PLUGINS` holds only the curl plugin (src/plugin/mod.rs:30-31). The PDO plugin is not registered:
  `mod.rs` declares `mod curl` alone. The PDO plugin implements `hook`, while the `Plugin` trait
  declares `execute`. `execute.rs` calls `plugin.hook` (src/execute.rs:98). In the model,
  `Plugin.PluginSpec` carries no hook. `Execute.ExecuteInternal` takes whether a hook was found as
  an input, and only `Pdo.Hook` computes one, as an `Option<HookKind>`.
- In the DSN parser, the first piece of a `splitn` always exists. So the "unknown db type" and
  "unknown key" errors cannot happen, and the model has only `UnknownDatasource` and `UnknownValue`.
- `channel_receive` on an empty queue waits inside `recv()` (src/channel.rs:118). `init_channel`
  keeps its sender for the life of the process, so the wait lasts until a segment arrives, and the
  counter is not touched while it lasts. The model gives a waiting receive as `None` with the state
  unchanged, and a drain turn that waits logs nothing. The disconnect error, which decrements the
  counter, happens only when no sender exists.

## Model

| member | source | states |
|---|---|---|
| Channel.MaxLength | src/channel.rs:41-47 | the maximum message length is never zero; a positive setting is used as is; a negative one is reinterpreted as a `usize` (plus 2^64, beyond every `i64`); an unset or zero setting means `usize::MAX` |
| Channel.InitStep | src/channel.rs:55-76 | a failed `ipc::channel()` gives CreateFailed, and an end already set gives AlreadyInitialized; initialisation succeeds exactly when the IPC channel is created and neither end was set; on success both ends are set and the queue is empty; with the sender already set nothing changes; the counter is never touched |
| Channel.SendStep | src/channel.rs:91-109 | every send adds one to the counter, wrapping at 2^64; it fails as Full exactly when the old count was at least 100; under the cap, a missing sender gives NotInitialized and a failed IPC send gives SendFailed; it succeeds exactly when under the cap, initialised and delivered, and only then appends the segment |
| Channel.WrappingIncrement | src/channel.rs:96 | `fetch_add(1)` is addition modulo 2^64, and gives 0 exactly from `usize::MAX` |
| Channel.WrappingDecrement | src/channel.rs:119 | `fetch_sub(1)` is subtraction modulo 2^64, and gives `usize::MAX` exactly from 0 |
| Channel.CastI64ToUsize | src/channel.rs:42 | `as usize` keeps the value modulo 2^64, and reading the result back as an `i64` gives the setting again |
| Channel.ReceiveStep | src/channel.rs:111-121 | without a receiver nothing changes and the result is NotInitialized; on an empty queue with the sender kept the receive waits and nothing changes; once it returns the counter drops by one, wrapping, even on failure; success exactly when the queue is non-empty, yielding its head and leaving its tail; the disconnect error exactly when the queue is empty and no sender exists |
| Channel.TryReceiveStep | src/channel.rs:123-137 | like a receive, but an empty queue gives `Ok(None)` at once instead of waiting, again with the counter dropped |
| Channel.Channel.constructor | src/channel.rs:78-89 | a fresh channel has a zero counter, an empty queue and no ends set |
| Channel.Channel.Init | src/channel.rs:55-76 | the new state and result are those of `InitStep` on the old state |
| Channel.Channel.Send | src/channel.rs:91-109 | the new state and result are those of `SendStep` on the old state |
| Channel.Channel.Receive | src/channel.rs:111-121 | the new state and result are those of `ReceiveStep` on the old state |
| Channel.Channel.TryReceive | src/channel.rs:123-137 | the new state and result are those of `TryReceiveStep` on the old state |
| Channel.Channel.Recv | src/channel.rs:150-159 | the asynchronous `recv` wraps the blocking receive: it waits exactly when that receive waits, a success always carries a segment, and state and error are those of `ReceiveStep` |
| Channel.Channel.TryRecv | src/channel.rs:161-169 | the asynchronous `try_recv` passes through the state and result of `TryReceiveStep` |
| Channel.SendAll | src/channel.rs:91-109 | a run of sends yields one result per segment, only appends to the queue, at most one segment per send, and leaves the endpoints alone |
| Channel.SendsAlwaysCount | src/channel.rs:96-99 | every send raises the counter, accepted or not: a run of sends adds its length modulo 2^64 |
| Channel.ReceiveN | src/channel.rs:111-121 | a run of n receives yields n results, only removes segments from the front of the queue and leaves the endpoints alone |
| Channel.SendAllWithinCap | src/channel.rs:96-99 | while the count stays within 100, every send of an initialised channel succeeds, the segments queue up in order and the count grows by their number |
| Channel.RefusedSendsDrift | src/channel.rs:96-99 | at or over the cap every send fails as Full, the queue is unchanged, and the count still grows by the number of refused sends |
| Channel.WrappingInverse | src/channel.rs:96-119 | an increment and a decrement undo each other, wrap-around included |
| Channel.ReceiveNTakesPrefix | src/channel.rs:118-120 | n receives from an initialised channel return the first n queued segments in order and drop the count by n |
| Channel.FifoRoundTrip | src/channel.rs:91-121 | segments sent into an empty initialised channel within the cap are received back in the same order, and the count returns to where it was |
| Channel.FillingUp | src/channel.rs:39 | after initialisation 100 sends are accepted, the 101st is refused as Full, and the count ends at 101 |
| Channel.TryReceiveUnderflow | src/channel.rs:130-135 | a try-receive on an empty channel with count 0 wraps the count to `usize::MAX`; the next send is refused as Full and wraps the count to 0; the send after that succeeds |
| Channel.IdleReceiveWaits | src/channel.rs:111-121 | on a freshly initialised, empty channel a receive waits and changes nothing; a send then is accepted with the counter at 1, and the receive returns that segment with the counter back at 0 |
| Channel.SecondInitRefused | src/channel.rs:63-73 | once initialised, every further initialisation fails and changes nothing |
| Execute.OriginalHandler | src/execute.rs:129-136 | the original handler is the saved one, or the interpreter's default when none was saved |
| Execute.Engine.constructor | src/execute.rs:50-52 | before registration the interpreter has its installed handler and the agent has saved nothing |
| Execute.Engine.RegisterExecuteFunctions | src/execute.rs:138-143 | the previously installed handler is saved and the agent's handler is installed; the fallback is never the agent itself unless the agent was already installed |
| Execute.ExecuteInternal | src/execute.rs:55-121 | every call runs the original handler exactly once; when not ready, or when the function name is not UTF-8, it does nothing else; a plugin is looked up iff ready and the name decodes; the before-hook runs iff a plugin and a hook were found, and before the original; the after-hook runs iff the before-hook succeeded, and after the original; each hook failure is logged |
| Execute.ValidateNumArgs | src/execute.rs:145-150 | an argument-count error exactly when fewer arguments than required were passed |
| PhpModule.ReadyFlag.constructor | src/module.rs:79-87 | the shared ready flag starts false |
| PhpModule.ReadyFlag.IsReady | src/module.rs:70-72 | reading the flag returns its value and changes nothing |
| PhpModule.ReadyFlag.MarkReady | src/module.rs:74-76 | after marking, the flag is true |
| PhpModule.ServiceInstance | src/module.rs:35-36 | the instance name is the random id, then `@`, then the first entry of `IPS` |
| PhpModule.ServiceInstanceSplits | src/module.rs:35-36 | the instance name splits at its first `@` back into the random id and the first address |
| PhpModule.Init | src/module.rs:38-64 | module init always returns true; outside FPM or when disabled nothing changes; otherwise the channel is initialised, and the execute hook is registered and the reporter started exactly when that initialisation succeeded |
| Retry.FirstSuccess | src/report.rs:73-84 | the index of the first success, or the number of attempts when none succeeded; no success before it |
| Retry.RetryStepsShape | src/report.rs:73-84 | the retry log holds only attempts of this call and 10-second waits; it holds a successful attempt iff some attempt succeeds, that success is last, and nothing before it succeeded |
| Retry.RetryAttempts | src/report.rs:73-84 | the loop makes one attempt per outcome up to and including the first success, or all of them when none succeeds |
| Retry.RetryNeverGivesUp | src/report.rs:76-82 | without a success the loop alternates a failed attempt and a 10-second wait for every outcome and never stops on its own |
| Retry.RetryUntilSuccess | src/report.rs:73-84 | the `loop` succeeds iff some attempt succeeds, counts its attempts as `RetryAttempts` says, and produces exactly the log `RetrySteps` describes |
| Report.DrainStep | src/report.rs:140-159 | one drain turn: the channel moves as one receive; the turn waits, with nothing logged, exactly when that receive waits; it fails to receive exactly when that receive returns an error; otherwise it concerns the channel's head segment, which is delivered iff it decodes and is collected |
| Report.Drain | src/report.rs:139-160 | the drain loop yields at most one turn per outcome, and fewer only when it ends waiting on an empty queue |
| Report.DrainStuck | src/report.rs:141 | once a drain turn waits, the later outcomes change nothing |
| Report.IdleReporterWaits | src/report.rs:141 | an idle reporter on an initialised channel logs no turn and no wait and leaves the counter alone, so a send under the cap is still accepted |
| Report.DrainTakesQueueInOrder | src/report.rs:139-160 | with a receiver, the drain loop takes the queued segments in FIFO order, min(turns, queue) of them, and leaves the rest queued |
| Report.DrainWithoutReceiver | src/report.rs:141 | without a receiver every turn fails to receive, none waits, and the channel is untouched |
| Report.TurnEventsShape | src/report.rs:156-159 | the drain loop logs only drained turns and 10-second waits |
| Report.ReadyRightAfterConnect | src/report.rs:73-87 | the reporter marks ready iff the address is valid and a connect succeeds, exactly once, immediately after the successful connect |
| Report.RegisterAfterReady | src/report.rs:86-90 | every registration attempt comes after the ready mark, and every drained turn comes after a successful registration |
| Report.ConnectAttemptsThenReady | src/report.rs:73-87 | k failed connects followed by a success mean exactly k + 1 connect attempts and then the ready mark |
| Report.StartReporter | src/report.rs:68-98 | the reporter's phase, log, ready flag and channel state are those `ReporterPhase`, `ReporterLog` and `Drain` describe |
| Report.ReportInstanceProperties | src/report.rs:100-133 | registration succeeds iff some attempt succeeds, with the retry log of `RetrySteps` |
| Report.ReceiveAndTrace | src/report.rs:135-161 | the drain loop leaves the channel as `Drain` does and logs `TurnEvents` of its turns; a receive that waits ends the observed run |
| Worker.WorkerThreads | src/worker.rs:48-55 | at least one thread; a positive setting is used, otherwise the available parallelism, otherwise 1 |
| Worker.Connect | src/worker.rs:96-112 | connecting succeeds iff some attempt succeeds, with the retry log of `RetrySteps` |
| Worker.WorkerReadyOrdering | src/worker.rs:65-94 | the worker marks ready iff the address is valid and a connect succeeds, immediately after that connect, and reporting starts immediately after the ready mark |
| Worker.StartWorker | src/worker.rs:65-94 | the worker's log is `WorkerLog`; the ready flag is set iff connected; the phase says whether the address was invalid, connecting is still going, reporting runs, or it stopped with an error |
| Util.FormatV4 | src/util.rs:34 | the dotted-quad text splits at its dots into the four octets in decimal, in order |
| Util.KeptAddrs | src/util.rs:20-41 | interfaces that are all `lo`, `docker*` or `br-*` keep no address |
| Util.V4Addrs | src/util.rs:26-38 | the IPv4 filter keeps exactly the IPv4 addresses of an interface |
| Util.Ips | src/util.rs:15-50 | the address list is never empty and holds only dotted IPv4 texts; it falls back to the loopback address when the query fails or nothing is kept, and otherwise lists the kept addresses in order |
| Util.LoopbackText | src/util.rs:49 | the fallback address is the text `127.0.0.1` |
| Util.KeptAddrsSound | src/util.rs:26-41 | every kept address is an IPv4 address of an interface that is not `lo`, `docker*` or `br-*` |
| Util.KeptAddrsComplete | src/util.rs:26-41 | every IPv4 address of such an interface is kept |
| Util.OnlyExcludedGivesLoopback | src/util.rs:28-49 | when every interface is excluded, the list is just `127.0.0.1` |
| Util.HostName | src/util.rs:52-57 | the host name when it is found and is valid text, otherwise `unknown` |
| Util.OsName | src/util.rs:59-67 | Linux exactly for a Linux target, Windows exactly for Windows, Macos exactly for macOS, and Unknown exactly for other systems |
| Util.OsNameInjective | src/util.rs:59-67 | different target systems get different names |
| Plugin.SelectPlugin | src/plugin/mod.rs:33-54 | the selected plugin is the first one that claims the call by class list or by name prefix; none is selected iff no plugin claims it |
| Plugin.SelectRegistered | src/plugin/curl.rs:35-38 | with the registered list, a call is selected iff its function name starts with `curl_`, and the plugin is curl |
| Pdo.Hook | src/plugin/pdo.rs:35-59 | the construct hook exactly for `PDO::__construct`, the query hook exactly for the six listed `PDO` methods, the statement hook exactly for `PDOStatement::execute`, and no hook outside the plugin's two classes |
| Pdo.HookedCallsAreClaimed | src/plugin/pdo.rs:26-33 | the plugin claims exactly the calls on `PDO` and `PDOStatement`, and every hooked call is claimed |
| Pdo.DefaultPort | src/plugin/pdo.rs:115-122 | 3306 for mysql, 1521 for oci, 1433 for sqlsrv, 5432 for pgsql, `unknown` otherwise |
| Pdo.LastValueDefault | src/plugin/pdo.rs:124-140 | a host or port stays at its default when no item sets that key |
| Pdo.LastValueFound | src/plugin/pdo.rs:124-140 | the value found is the default or the value of an item for that key that no later item overrides |
| Pdo.FromStr | src/plugin/pdo.rs:110-149 | DSN parsing fails as unknown datasource iff there is no `:`; on success driver and data source join back with `:` into the input, the driver has no `:`, and every `;` item has an `=` |
| Pdo.ScanItems | src/plugin/pdo.rs:124-140 | the item loop with mutable host and port stops with an error iff some item lacks `=`, and otherwise ends with the last host and the last port, or their defaults |
| Pdo.ParseDsn | src/plugin/pdo.rs:110-149 | the one-pass parser with mutable host and port gives exactly the result of `FromStr` |
| Pdo.LastValueAppend | src/plugin/pdo.rs:126-139 | an item added last decides its key, and its value is everything after its first `=`, further `=` included |
| Pdo.OtherKeyUnchanged | src/plugin/pdo.rs:131-139 | an item for one key does not change another key's value |
| Pdo.LastHostWins | src/plugin/pdo.rs:124-142 | appending `;host=h` to a valid DSN makes the peer `h` on the unchanged port |
| Pdo.DefaultPeer | src/plugin/pdo.rs:115-142 | with neither host nor port given, the peer is `unknown` on the driver's default port |
| Pdo.EmptyDataSourceRejected | src/plugin/pdo.rs:124-128 | a DSN with nothing after `:` is rejected as unknown value |
| Pdo.TrailingSemicolonRejected | src/plugin/pdo.rs:124-128 | a DSN ending in `;` is rejected as unknown value |
| Pdo.ConstructCheck | src/plugin/pdo.rs:65-75 | the construct hook succeeds iff there is an argument, a `$this`, a UTF-8 string DSN and the DSN parses; the checks come in that order, each failure giving its own error (argument count, empty `$this`, DSN not a string, DSN not UTF-8, then the parse error), and a success pairs the object handle with the parsed DSN |
| Pdo.DsnMap.constructor | src/plugin/pdo.rs:18-20 | the DSN map starts empty |
| Pdo.DsnMap.ConstructBefore | src/plugin/pdo.rs:63-85 | on success the handle maps to the parsed DSN, replacing an older entry; on any failure the map is unchanged and the error is that of `ConstructCheck` |
| Context.RequestContextSlot.constructor | src/context.rs:9-11 | the slot starts empty |
| Context.RequestContextSlot.SetGlobal | src/context.rs:18-27 | storing replaces whatever the slot held |
| Context.RequestContextSlot.RemoveGlobal | src/context.rs:29-34 | taking returns the stored context, if any, and leaves the slot empty |
| Context.RequestContextSlot.WithGlobal | src/context.rs:36-44 | on an empty slot nothing happens and the result is None; otherwise the result is the callback's, and the context it changed stays stored |
| Context.RequestContextSlot.TryWithGlobalTracingContext | src/context.rs:46-53 | fails with "global tracing context not exists" iff the slot is empty; otherwise the callback runs on the tracing context alone and the entry span is kept |
| Strings.SplitOnce | src/plugin/pdo.rs:111-113 | `splitn(2, c)` has a second piece iff `c` occurs; the pieces join back with `c` into the input, and the first has no `c` |
| Strings.Split | src/plugin/pdo.rs:124 | `split(c)` yields at least one piece, so even an empty data source has one item |
| Strings.SplitPieces | src/plugin/pdo.rs:124 | no piece of `split(c)` contains `c` |
| Strings.JoinSplit | src/plugin/pdo.rs:124 | joining the pieces of `split(c)` with `c` gives the input back |
| Strings.SplitOnceAt | src/plugin/pdo.rs:126-128 | `k=v` with no `=` in `k` splits back into `k` and `v`, even when `v` contains `=` |

## Left out

- Forking the worker process, `prctl`, `exit` and the tokio runtime (worker.rs `init_worker`,
  `new_tokio_runtime`; report.rs `init_reporter`, `new_tokio_runtime` apart from the thread count):
  they are process and thread management. `Worker.WorkerThreads` models the thread-count choice
  in both files, which is the same.
- The `Mutex` around the receiver and its "Get lock failed" error: the model is sequential. The
  `spawn_blocking` join error in `Receiver::recv`/`try_recv` is left out for the same reason.
- `try_recv`'s "disconnected" error (src/channel.rs:133): the model keeps no sender-less channel
  apart for `try_recv`, so a try-receive on an empty queue is always `Ok(None)`.
- Other processes sending while the reporter waits in `recv()`: the model is sequential, so a
  waiting receive ends the observed run instead of returning the next segment sent.
- The contents of trace segments, protobuf decoding and the gRPC calls: they are external
  libraries. Their outcomes are parameters (`DrainOutcome`, the connect and register outcome
  sequences, `Worker.StartWorker`'s `reportingFails`).
- Logging (`init_logger`, every `debug!`/`warn!`/`error!` except the failures `Execute.ExecuteInternal`
  records): it has no effect on the agent's state.
- The shared-memory layout of the counter and the ready flag (transmuted atomics): the model keeps
  the values only.
- `get_count()`'s "shared memory is null" error: the mapping is created on first use and is never
  null in the model.
- The random generator and the system network query in `SERVICE_INSTANCE` and `IPS`: they become
  parameters. The source walks `networks.values()` (src/util.rs:21), a map keyed by interface name,
  so the order of interfaces, and with it `IPS[0]` in `SERVICE_INSTANCE`, is that map's order. The
  model takes the interfaces in any order, as a sequence, and its results hold for every order.
- `current_formatted_time` (src/util.rs:69-71): it reads the clock.
- Request lifecycle (src/request.rs), the module definition (src/lib.rs), the component id
  (src/component.rs) and the curl plugin's hook body (src/plugin/curl.rs): src/request.rs,
  src/lib.rs, src/component.rs and those parts of src/plugin/curl.rs are not part of this model.
  The curl plugin appears only through its name prefix.
- A `Some(request_id)` argument to the context functions, which is `todo!()` in the source: every
  context operation requires `requestId == None`.
- The PDO query and statement hooks do nothing before or after the call in the source. The model
  tells them apart by `HookKind` and does not model a body.
- Channel.SendAll: does not state which results succeed, which segments are queued or the counter;
  those are in `SendAllWithinCap`, `RefusedSendsDrift` and `SendsAlwaysCount`.
- Channel.ReceiveN: does not state the results or how many segments are taken; those are in
  `ReceiveNTakesPrefix`.
- Report.Drain: does not state the contents of its turns; those are in `DrainTakesQueueInOrder`,
  `DrainWithoutReceiver` and `IdleReporterWaits`.
- Infinite loops (the retry loops, the drain loop, the tracer's reporting) are modelled over a
  finite sequence of outcomes: what happens after the last given outcome is not modelled.
