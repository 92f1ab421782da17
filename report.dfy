/** The reporter of the consumer process: parse the collector address, connect with endless retry,
    mark the agent ready, register the service instance with endless retry, then drain the channel
    forever, sending each segment to the collector. */
module Report {
  import opened Wrappers
  import Channel
  import PhpModule
  import opened Retry

  /** Where the reporter is when the observed outcomes run out. There is no "finished" phase: apart
      from an invalid address the reporter never returns on its own. */
  datatype Phase = EndpointInvalid | Connecting | Registering | Draining

  /** What happens to a received segment: whether it decodes and whether the collector takes it. */
  datatype DrainOutcome = DrainOutcome(decodes: bool, collects: bool)

  /** One turn of `receive_and_trace`: receive from the channel, decode, send to the collector.
      A failure at any stage ends the turn; the segment is not put back. `None` is a turn still
      waiting in the receive for a segment: it has changed nothing and logged nothing. */
  function DrainStep(s: Channel.ChannelState, o: DrainOutcome): (r: (Channel.ChannelState, Option<Iteration>))
    ensures r.0 == Channel.ReceiveStep(s).0
    ensures r.1.None? <==> Channel.Blocks(s)
    ensures r.1 == Some(ReceiveFailed) <==> Channel.ReceiveStep(s).1.Some? && Channel.ReceiveStep(s).1.value.Failure?
    ensures r.1.Some? && !r.1.value.ReceiveFailed? ==> r.1.value.seg == s.queue[0]
    ensures (r.1.Some? && r.1.value.Delivered?) <==> s.receiverSet && s.queue != [] && o.decodes && o.collects
  {
    var (next, received) := Channel.ReceiveStep(s);
    match received
    case None => (next, None)
    case Some(Failure(_)) => (next, Some(ReceiveFailed))
    case Some(Success(seg)) =>
      if !o.decodes then (next, Some(DecodeFailed(seg)))
      else if !o.collects then (next, Some(CollectFailed(seg)))
      else (next, Some(Delivered(seg)))
  }

  /** The drain loop run once per outcome, in order. A turn that waits for a segment adds no turn,
      and since it changes nothing every later turn waits as well: fewer turns than outcomes means
      the loop ended up waiting on an empty queue. */
  function Drain(s: Channel.ChannelState, outcomes: seq<DrainOutcome>): (r: (Channel.ChannelState, seq<Iteration>))
    ensures |r.1| <= |outcomes|
    ensures |r.1| < |outcomes| ==> Channel.Blocks(r.0)
    decreases |outcomes|
  {
    if outcomes == [] then (s, [])
    else
      var (mid, turns) := Drain(s, outcomes[..|outcomes| - 1]);
      var (next, turn) := DrainStep(mid, outcomes[|outcomes| - 1]);
      (next, if turn.None? then turns else turns + [turn.value])
  }

  /** Once the drain loop waits, it waits for good in this model: the outcomes after the first
      waiting turn change nothing. */
  lemma {:induction false} DrainStuck(s: Channel.ChannelState, outcomes: seq<DrainOutcome>, i: nat)
    requires i <= |outcomes|
    requires Channel.Blocks(Drain(s, outcomes[..i]).0)
    ensures Drain(s, outcomes) == Drain(s, outcomes[..i])
    decreases |outcomes| - i
  {
    assert outcomes[..|outcomes|] == outcomes;
    if i < |outcomes| {
      var front := outcomes[..|outcomes| - 1];
      assert front[..i] == outcomes[..i];
      DrainStuck(s, front, i);
      var (mid, turns) := Drain(s, front);
      assert DrainStep(mid, outcomes[|outcomes| - 1]) == (mid, None);
    }
  }

  /** An idle reporter on an initialised channel waits in the receive: it logs no turn and no wait
      and leaves the channel, the counter included, as it was, so producers are not locked out. */
  lemma {:induction false} IdleReporterWaits(s: Channel.ChannelState, outcomes: seq<DrainOutcome>, seg: Channel.Segment)
    requires Channel.Blocks(s)
    ensures Drain(s, outcomes) == (s, [])
    ensures TurnEvents(Drain(s, outcomes).1) == []
    ensures s.count < Channel.MAX_COUNT ==> Channel.SendStep(Drain(s, outcomes).0, seg, true).1 == Success(())
    decreases |outcomes|
  {
    if outcomes != [] {
      IdleReporterWaits(s, outcomes[..|outcomes| - 1], seg);
    }
  }

  /** The events of drain turns: a failed turn is logged and followed by the fixed wait. */
  function TurnEvents(turns: seq<Iteration>): seq<Event>
    decreases |turns|
  {
    if turns == [] then []
    else
      var last := turns[|turns| - 1];
      TurnEvents(turns[..|turns| - 1]) +
        (if last.Delivered? then [Drained(last)] else [Drained(last), Wait(RETRY_DELAY_SECS)])
  }

  /** The segments taken off the channel, in the order they were taken. */
  function Received(turns: seq<Iteration>): seq<Channel.Segment>
    decreases |turns|
  {
    if turns == [] then []
    else
      var last := turns[|turns| - 1];
      Received(turns[..|turns| - 1]) + (if last.ReceiveFailed? then [] else [last.seg])
  }

  function Min(a: nat, b: nat): nat { if a < b then a else b }

  /** Each drain turn takes one segment off the front of the queue, whether or not the segment is
      then sent: draining `n` times takes the first `n` segments, in queue order, each once, and
      leaves the rest. */
  lemma {:induction false} DrainTakesQueueInOrder(s: Channel.ChannelState, outcomes: seq<DrainOutcome>)
    requires s.receiverSet
    ensures var n := Min(|outcomes|, |s.queue|);
            Received(Drain(s, outcomes).1) == s.queue[..n] && Drain(s, outcomes).0.queue == s.queue[n..]
    ensures Drain(s, outcomes).0.receiverSet
    decreases |outcomes|
  {
    if outcomes != [] {
      var front := outcomes[..|outcomes| - 1];
      DrainTakesQueueInOrder(s, front);
      var (mid, turns) := Drain(s, front);
      var m := Min(|front|, |s.queue|);
      var (next, turn) := DrainStep(mid, outcomes[|outcomes| - 1]);
      if turn.Some? {
        assert Drain(s, outcomes) == (next, turns + [turn.value]);
        ReceivedSnoc(turns, turn.value);
      }
      if mid.queue != [] {
        TakeOneMore(s.queue, m);
      }
    }
  }

  lemma ReceivedSnoc(turns: seq<Iteration>, turn: Iteration)
    ensures Received(turns + [turn]) == Received(turns) + (if turn.ReceiveFailed? then [] else [turn.seg])
  {
    assert (turns + [turn])[..|turns|] == turns;
  }

  lemma TakeOneMore<T>(q: seq<T>, m: nat)
    requires m < |q|
    ensures q[..m + 1] == q[..m] + [q[m]]
    ensures q[m..][1..] == q[m + 1..]
    ensures q[m..][0] == q[m]
  {
  }

  /** Without a receiver in the channel every drain turn fails at the receive stage, none of them
      waits, and the channel is left as it was. */
  lemma {:induction false} DrainWithoutReceiver(s: Channel.ChannelState, outcomes: seq<DrainOutcome>)
    requires !s.receiverSet
    ensures Drain(s, outcomes).0 == s
    ensures |Drain(s, outcomes).1| == |outcomes|
    ensures forall k :: 0 <= k < |outcomes| ==> Drain(s, outcomes).1[k] == ReceiveFailed
    decreases |outcomes|
  {
    if outcomes != [] {
      DrainWithoutReceiver(s, outcomes[..|outcomes| - 1]);
    }
  }

  /** The whole log of `start_reporter`. Readiness is marked right after the connection is made and
      before registration is tried; the drain loop starts only after a registration succeeded. */
  function ReporterLog(endpointValid: bool, connects: seq<bool>, registers: seq<bool>, turns: seq<Iteration>): seq<Event>
  {
    if !endpointValid then []
    else if true !in connects then RetrySteps(ConnectServer, connects)
    else if true !in registers then RetrySteps(ConnectServer, connects) + [MarkReady] + RetrySteps(RegisterInstance, registers)
    else RetrySteps(ConnectServer, connects) + [MarkReady] + RetrySteps(RegisterInstance, registers) + TurnEvents(turns)
  }

  function ReporterPhase(endpointValid: bool, connects: seq<bool>, registers: seq<bool>): Phase
  {
    if !endpointValid then EndpointInvalid
    else if true !in connects then Connecting
    else if true !in registers then Registering
    else Draining
  }

  lemma {:induction false} TurnEventsShape(turns: seq<Iteration>)
    ensures forall k :: 0 <= k < |TurnEvents(turns)| ==>
      TurnEvents(turns)[k].Drained? || TurnEvents(turns)[k] == Wait(RETRY_DELAY_SECS)
    decreases |turns|
  {
    if turns != [] {
      TurnEventsShape(turns[..|turns| - 1]);
    }
  }

  /** Readiness is marked at most once, only when the address is valid and a connect succeeded, and
      immediately after that successful connect attempt. */
  lemma ReadyRightAfterConnect(endpointValid: bool, connects: seq<bool>, registers: seq<bool>, turns: seq<Iteration>)
    ensures var log := ReporterLog(endpointValid, connects, registers, turns);
            MarkReady in log <==> endpointValid && true in connects
    ensures var log := ReporterLog(endpointValid, connects, registers, turns);
            forall i :: 0 <= i < |log| && log[i] == MarkReady ==>
              i == |RetrySteps(ConnectServer, connects)| && i >= 1 && log[i - 1] == Attempt(ConnectServer, true)
  {
    RetryStepsShape(ConnectServer, connects);
    RetryStepsShape(RegisterInstance, registers);
    var log := ReporterLog(endpointValid, connects, registers, turns);
    var c := RetrySteps(ConnectServer, connects);
    var r := RetrySteps(RegisterInstance, registers);
    TurnEventsShape(turns);
    var t := TurnEvents(turns);
    if endpointValid && true in connects {
      forall i | 0 <= i < |log| && log[i] == MarkReady
        ensures i == |c| && i >= 1 && log[i - 1] == Attempt(ConnectServer, true)
      {
      }
      assert log[|c|] == MarkReady;
    } else if endpointValid {
      assert log == c;
      assert MarkReady !in c by {
        forall k | 0 <= k < |c| ensures c[k] != MarkReady { }
      }
    }
  }

  /** Registration is attempted only after readiness was marked, and the channel is drained only
      after a registration succeeded. */
  lemma RegisterAfterReady(endpointValid: bool, connects: seq<bool>, registers: seq<bool>, turns: seq<Iteration>)
    ensures var log := ReporterLog(endpointValid, connects, registers, turns);
            forall i :: 0 <= i < |log| && log[i].Attempt? && log[i].call == RegisterInstance ==> MarkReady in log[..i]
    ensures var log := ReporterLog(endpointValid, connects, registers, turns);
            forall i :: 0 <= i < |log| && log[i].Drained? ==> Attempt(RegisterInstance, true) in log[..i]
  {
    RetryStepsShape(ConnectServer, connects);
    RetryStepsShape(RegisterInstance, registers);
    var log := ReporterLog(endpointValid, connects, registers, turns);
    var c := RetrySteps(ConnectServer, connects);
    var r := RetrySteps(RegisterInstance, registers);
    TurnEventsShape(turns);
    if endpointValid {
      forall i | 0 <= i < |log| && log[i].Attempt? && log[i].call == RegisterInstance
        ensures MarkReady in log[..i]
      {
        assert log[..i][|c|] == MarkReady;
      }
      forall i | 0 <= i < |log| && log[i].Drained?
        ensures Attempt(RegisterInstance, true) in log[..i]
      {
        assert log[..i][|c| + |r|] == r[|r| - 1];
      }
    }
  }

  /** After k failed connects and then a success the reporter has made exactly k + 1 connect
      attempts, whatever follows. */
  lemma ConnectAttemptsThenReady(k: nat, later: seq<bool>, registers: seq<bool>, turns: seq<Iteration>)
    ensures var connects := seq(k, _ => false) + [true] + later;
            var log := ReporterLog(true, connects, registers, turns);
            AttemptCount(log[..|RetrySteps(ConnectServer, connects)|], ConnectServer) == k + 1 &&
            log[|RetrySteps(ConnectServer, connects)|] == MarkReady
  {
    var connects := seq(k, _ => false) + [true] + later;
    assert connects[k] && true in connects;
    assert true !in connects[..k] by {
      assert connects[..k] == seq(k, _ => false);
    }
    FirstSuccessAt(connects, k);
    RetryAttempts(ConnectServer, connects);
    var log := ReporterLog(true, connects, registers, turns);
    var c := RetrySteps(ConnectServer, connects);
    assert log[..|c|] == c;
  }

  /** `start_reporter`, for one observed run. `endpointValid` is whether `Endpoint::from_shared`
      accepts the address; `connects`, `registers` and `drains` are the outcomes of the successive
      connect attempts, registration calls and drain turns. */
  method StartReporter(endpointValid: bool, connects: seq<bool>, registers: seq<bool>, drains: seq<DrainOutcome>,
                       channel: Channel.Channel, flag: PhpModule.ReadyFlag)
    returns (phase: Phase, events: seq<Event>)
    modifies channel, flag
    ensures phase == ReporterPhase(endpointValid, connects, registers)
    ensures events == ReporterLog(endpointValid, connects, registers, Drain(old(channel.State()), drains).1)
    ensures flag.ready == (old(flag.ready) || (endpointValid && true in connects))
    ensures channel.State() == if phase == Draining then Drain(old(channel.State()), drains).0 else old(channel.State())
  {
    if !endpointValid {
      return EndpointInvalid, [];
    }
    var connected, _, connectEvents := RetryUntilSuccess(ConnectServer, connects);
    events := connectEvents;
    if !connected {
      return Connecting, events;
    }
    flag.MarkReady();
    events := events + [MarkReady];
    var registered := ReportInstanceProperties(registers);
    events := events + registered.1;
    if !registered.0 {
      return Registering, events;
    }
    var drained := ReceiveAndTrace(channel, drains);
    events := events + drained;
    phase := Draining;
  }

  /** `report_instance_properties`: the registration call retried until it succeeds. */
  method ReportInstanceProperties(registers: seq<bool>) returns (r: (bool, seq<Event>))
    ensures r.0 <==> true in registers
    ensures r.1 == RetrySteps(RegisterInstance, registers)
  {
    var ok, _, events := RetryUntilSuccess(RegisterInstance, registers);
    r := (ok, events);
  }

  /** `receive_and_trace`: the endless drain loop, run for one turn per outcome. A receive that
      waits never returns, so the observed run ends there. */
  method ReceiveAndTrace(channel: Channel.Channel, drains: seq<DrainOutcome>) returns (events: seq<Event>)
    modifies channel
    ensures channel.State() == Drain(old(channel.State()), drains).0
    ensures events == TurnEvents(Drain(old(channel.State()), drains).1)
  {
    ghost var start := channel.State();
    ghost var turns: seq<Iteration> := [];
    events := [];
    var i := 0;
    while i < |drains|
      invariant 0 <= i <= |drains|
      invariant (channel.State(), turns) == Drain(start, drains[..i])
      invariant events == TurnEvents(turns)
    {
      ghost var before := channel.State();
      var received := channel.Receive();
      if received.None? {
        assert drains[..i + 1][..i] == drains[..i];
        DrainStuck(start, drains, i);
        return;
      }
      var turn: Iteration;
      if received.value.Failure? {
        turn := ReceiveFailed;
      } else if !drains[i].decodes {
        turn := DecodeFailed(received.value.value);
      } else if !drains[i].collects {
        turn := CollectFailed(received.value.value);
      } else {
        turn := Delivered(received.value.value);
      }
      assert (channel.State(), Some(turn)) == DrainStep(before, drains[i]);
      if turn.Delivered? {
        events := events + [Drained(turn)];
      } else {
        events := events + [Drained(turn), Wait(RETRY_DELAY_SECS)];
      }
      assert drains[..i + 1][..i] == drains[..i];
      turns := turns + [turn];
      i := i + 1;
    }
    assert drains[..i] == drains;
  }
}
