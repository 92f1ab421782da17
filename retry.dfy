/** What the consumer process does over time, as a log of events, and the fixed-delay retry loop
    that both the connect step and the instance registration use. Network outcomes are inputs: a
    loop that would run forever is run over a finite sequence of outcomes, the prefix of the run
    being observed, and is still running when that prefix is used up. */
module Retry {
  import Channel

  /** The delay after every failed attempt, in seconds. */
  const RETRY_DELAY_SECS: nat := 10

  /** The remote calls that are retried until they succeed. */
  datatype Call = ConnectServer | RegisterInstance

  /** One turn of the drain loop: the segment received, or the stage at which the turn failed. */
  datatype Iteration =
    | Delivered(seg: Channel.Segment)
    | ReceiveFailed
    | DecodeFailed(seg: Channel.Segment)
    | CollectFailed(seg: Channel.Segment)

  datatype Event =
    | Attempt(call: Call, ok: bool)
    | Wait(secs: nat)
    | MarkReady
    | Drained(turn: Iteration)
    | ReportingStarted
    | ReportingFailed

  /** Index of the first successful outcome, or `|outcomes|` when every outcome is a failure. */
  function FirstSuccess(outcomes: seq<bool>): (i: nat)
    ensures i <= |outcomes|
    ensures i < |outcomes| ==> outcomes[i]
    ensures true !in outcomes[..i]
    ensures i == |outcomes| <==> true !in outcomes
  {
    if outcomes == [] then 0
    else if outcomes[0] then 0
    else
      assert outcomes[1..][..FirstSuccess(outcomes[1..])] == outcomes[1..1 + FirstSuccess(outcomes[1..])];
      1 + FirstSuccess(outcomes[1..])
  }

  /** The events of a retry loop: each failed attempt is followed by a fixed wait and the loop
      stops at the first success. */
  function RetrySteps(call: Call, outcomes: seq<bool>): seq<Event>
    decreases |outcomes|
  {
    if outcomes == [] then []
    else if outcomes[0] then [Attempt(call, true)]
    else [Attempt(call, false), Wait(RETRY_DELAY_SECS)] + RetrySteps(call, outcomes[1..])
  }

  /** The retry log holds only attempts at `call` and fixed waits; it holds a successful attempt
      exactly when some outcome is a success, that attempt is its last event, and no earlier event
      is a success. */
  lemma {:induction false} RetryStepsShape(call: Call, outcomes: seq<bool>)
    ensures var r := RetrySteps(call, outcomes);
      forall k :: 0 <= k < |r| ==> (r[k].Attempt? && r[k].call == call) || r[k] == Wait(RETRY_DELAY_SECS)
    ensures Attempt(call, true) in RetrySteps(call, outcomes) <==> true in outcomes
    ensures true in outcomes ==> RetrySteps(call, outcomes)[|RetrySteps(call, outcomes)| - 1] == Attempt(call, true)
    ensures var r := RetrySteps(call, outcomes);
      forall k :: 0 <= k < |r| - 1 ==> r[k] != Attempt(call, true)
    decreases |outcomes|
  {
    if outcomes != [] && !outcomes[0] {
      var rest := RetrySteps(call, outcomes[1..]);
      RetryStepsShape(call, outcomes[1..]);
      var r := RetrySteps(call, outcomes);
      assert r == [Attempt(call, false), Wait(RETRY_DELAY_SECS)] + rest;
      assert outcomes == [outcomes[0]] + outcomes[1..];
      assert forall k :: 2 <= k < |r| ==> r[k] == rest[k - 2];
    }
  }

  /** Number of attempts at `call` in a log. */
  function AttemptCount(events: seq<Event>, call: Call): nat
  {
    if events == [] then 0
    else (if events[0].Attempt? && events[0].call == call then 1 else 0) + AttemptCount(events[1..], call)
  }

  lemma {:induction false} AttemptCountAppend(a: seq<Event>, b: seq<Event>, call: Call)
    ensures AttemptCount(a + b, call) == AttemptCount(a, call) + AttemptCount(b, call)
  {
    if a != [] {
      assert (a + b)[1..] == a[1..] + b;
      AttemptCountAppend(a[1..], b, call);
    } else {
      assert a + b == b;
    }
  }

  /** The retry loop makes one attempt per outcome up to and including the first success: after k
      failures and then a success there have been exactly k + 1 attempts. */
  lemma {:induction false} RetryAttempts(call: Call, outcomes: seq<bool>)
    ensures AttemptCount(RetrySteps(call, outcomes), call) ==
            if true in outcomes then FirstSuccess(outcomes) + 1 else |outcomes|
    decreases |outcomes|
  {
    if outcomes != [] && !outcomes[0] {
      RetryAttempts(call, outcomes[1..]);
      var head: seq<Event> := [Attempt(call, false), Wait(RETRY_DELAY_SECS)];
      AttemptCountAppend(head, RetrySteps(call, outcomes[1..]), call);
      assert AttemptCount(head, call) == 1;
      assert outcomes == [outcomes[0]] + outcomes[1..];
    }
  }

  /** Under failures only, the loop never gives up: every outcome is an attempt followed by a wait. */
  lemma {:induction false} RetryNeverGivesUp(call: Call, outcomes: seq<bool>)
    requires true !in outcomes
    ensures |RetrySteps(call, outcomes)| == 2 * |outcomes|
    ensures forall k :: 0 <= k < |outcomes| ==>
      RetrySteps(call, outcomes)[2 * k] == Attempt(call, false) &&
      RetrySteps(call, outcomes)[2 * k + 1] == Wait(RETRY_DELAY_SECS)
    decreases |outcomes|
  {
    if outcomes != [] {
      assert outcomes[1..] <= outcomes[1..] && forall x :: x in outcomes[1..] ==> x in outcomes;
      RetryNeverGivesUp(call, outcomes[1..]);
      var r := RetrySteps(call, outcomes);
      var rest := RetrySteps(call, outcomes[1..]);
      assert r == [Attempt(call, false), Wait(RETRY_DELAY_SECS)] + rest;
      forall k | 1 <= k < |outcomes|
        ensures r[2 * k] == Attempt(call, false) && r[2 * k + 1] == Wait(RETRY_DELAY_SECS)
      {
        assert r[2 * k] == rest[2 * (k - 1)];
        assert r[2 * k + 1] == rest[2 * (k - 1) + 1];
      }
    }
  }

  /** The retry loop over a finite prefix of outcomes. `ok` is whether a success was reached,
      `attempts` how many attempts were made. */
  method RetryUntilSuccess(call: Call, outcomes: seq<bool>) returns (ok: bool, attempts: nat, events: seq<Event>)
    ensures ok <==> true in outcomes
    ensures attempts == if ok then FirstSuccess(outcomes) + 1 else |outcomes|
    ensures events == RetrySteps(call, outcomes)
  {
    events := [];
    var i := 0;
    while i < |outcomes|
      invariant 0 <= i <= |outcomes|
      invariant true !in outcomes[..i]
      invariant events + RetrySteps(call, outcomes[i..]) == RetrySteps(call, outcomes)
    {
      if outcomes[i] {
        assert RetrySteps(call, outcomes[i..]) == [Attempt(call, true)];
        assert FirstSuccess(outcomes) == i by {
          FirstSuccessAt(outcomes, i);
        }
        return true, i + 1, events + [Attempt(call, true)];
      }
      assert outcomes[i..][1..] == outcomes[i + 1..];
      events := events + [Attempt(call, false), Wait(RETRY_DELAY_SECS)];
      assert outcomes[..i + 1] == outcomes[..i] + [outcomes[i]];
      i := i + 1;
    }
    assert outcomes[..i] == outcomes;
    assert outcomes[i..] == [];
    ok, attempts := false, |outcomes|;
  }

  /** The first success is at `i` when `i` holds one and nothing before it does. */
  lemma {:induction false} FirstSuccessAt(outcomes: seq<bool>, i: nat)
    requires i < |outcomes| && outcomes[i] && true !in outcomes[..i]
    ensures FirstSuccess(outcomes) == i
  {
  }
}
