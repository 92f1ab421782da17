/** The cross-process segment channel: one reader, many writers, and a shared occupancy counter that
    soft-caps how many segments may be in flight. The counter is a machine-word `usize` that is only
    ever changed by wrapping `fetch_add(1)` and `fetch_sub(1)`. */
module Channel {
  import opened Wrappers

  /** Soft cap on the number of segments in the channel. */
  const MAX_COUNT: nat := 100

  const USIZE_MODULUS: int := 0x1_0000_0000_0000_0000
  const USIZE_MAX: int := USIZE_MODULUS - 1
  const I64_MIN: int := -0x8000_0000_0000_0000
  const I64_MAX: int := 0x7fff_ffff_ffff_ffff

  type Usize = x: int | 0 <= x < USIZE_MODULUS
  type I64 = x: int | I64_MIN <= x <= I64_MAX

  /** A serialised trace segment; its bytes are opaque to the channel. */
  type Segment = seq<bv8>

  /** `fetch_add(1)` on an `AtomicUsize`: wraps from `usize::MAX` to 0. */
  function WrappingIncrement(c: Usize): (r: Usize)
    ensures r == (c + 1) % USIZE_MODULUS
    ensures r == 0 <==> c == USIZE_MAX
  {
    if c == USIZE_MAX then 0 else c + 1
  }

  /** `fetch_sub(1)` on an `AtomicUsize`: wraps from 0 to `usize::MAX`. */
  function WrappingDecrement(c: Usize): (r: Usize)
    ensures r == (c - 1) % USIZE_MODULUS
    ensures r == USIZE_MAX <==> c == 0
  {
    if c == 0 then USIZE_MAX else c - 1
  }

  /** Each of the two atomic updates undoes the other, wrap-around included. */
  lemma WrappingInverse(c: Usize)
    ensures WrappingDecrement(WrappingIncrement(c)) == c
    ensures WrappingIncrement(WrappingDecrement(c)) == c
  {
  }

  /** `v as usize` for an `i64`: the two's-complement bits are kept, so a negative value becomes
      `v + 2^64`. Reading the result back as an `i64` gives `v` again. */
  function CastI64ToUsize(v: I64): (r: Usize)
    ensures r % USIZE_MODULUS == v % USIZE_MODULUS
    ensures r <= I64_MAX ==> r == v
    ensures r > I64_MAX ==> r - USIZE_MODULUS == v
  {
    if v < 0 then v + USIZE_MODULUS else v
  }

  /** `MAX_LENGTH`: the configured maximum message length (absent reads as 0), cast to `usize`, with
      a cast value of 0 meaning "no limit". A negative setting is not turned into "no limit"; it
      wraps to a huge length instead. */
  function MaxLength(configured: Option<I64>): (r: Usize)
    ensures r != 0
    ensures configured.Some? && configured.value > 0 ==> r == configured.value
    ensures configured.Some? && configured.value < 0 ==> r == configured.value + USIZE_MODULUS
    ensures configured.Some? && configured.value < 0 ==> r > I64_MAX
    ensures (configured.None? || configured.value == 0) ==> r == USIZE_MAX
  {
    var length := CastI64ToUsize(configured.GetOr(0));
    if length == 0 then USIZE_MAX else length
  }

  datatype ChannelError =
    | AlreadyInitialized   // "Channel has initialized"
    | NotInitialized       // "Channel haven't initialized"
    | Full                 // "Channel is fulled"
    | CreateFailed         // `ipc::channel()` failed
    | SendFailed           // "Channel send failed"
    | ReceiveFailed        // the IPC receive itself failed

  /** Everything the channel functions touch: the shared counter, the segments in the IPC queue, and
      whether the `SENDER` and `RECEIVER` cells hold an endpoint. */
  datatype ChannelState = ChannelState(count: Usize, queue: seq<Segment>, senderSet: bool, receiverSet: bool)

  /** The state before `init_channel`: the counter's shared memory is created holding 0. */
  const INITIAL: ChannelState := ChannelState(0, [], false, false)

  /** `init_channel`. `created` is whether `ipc::channel()` succeeded. The sender cell is checked and
      filled before the receiver cell, so a half-initialised state still ends with the sender set.
      That state, a receiver without a sender, cannot be reached from `INITIAL`; from it the source's
      new sender would belong to a fresh IPC channel whose receiver is dropped, which the model does
      not distinguish from the existing receiver's sender. */
  function InitStep(s: ChannelState, created: bool): (r: (ChannelState, Result<(), ChannelError>))
    ensures !created ==> r.1 == Failure(CreateFailed)
    ensures created && (s.senderSet || s.receiverSet) ==> r.1 == Failure(AlreadyInitialized)
    ensures r.1.Success? <==> created && !s.senderSet && !s.receiverSet
    ensures r.1.Success? ==> r.0 == ChannelState(s.count, [], true, true)
    ensures s.senderSet ==> r.0 == s
    ensures r.0.count == s.count
  {
    if !created then (s, Failure(CreateFailed))
    else if s.senderSet then (s, Failure(AlreadyInitialized))
    else if s.receiverSet then (s.(senderSet := true), Failure(AlreadyInitialized))
    else (ChannelState(s.count, [], true, true), Success(()))
  }

  /** `channel_send`. The counter is incremented first and the check is on its previous value; a
      refused or failed send does not undo the increment. `delivered` is whether the IPC send itself
      succeeds. */
  function SendStep(s: ChannelState, seg: Segment, delivered: bool): (r: (ChannelState, Result<(), ChannelError>))
    ensures r.0.count == WrappingIncrement(s.count)
    ensures r.1 == Failure(Full) <==> s.count >= MAX_COUNT
    ensures r.1.Success? <==> s.count < MAX_COUNT && s.senderSet && delivered
    ensures s.count < MAX_COUNT && !s.senderSet ==> r.1 == Failure(NotInitialized)
    ensures s.count < MAX_COUNT && s.senderSet && !delivered ==> r.1 == Failure(SendFailed)
    ensures r.0.queue == if r.1.Success? then s.queue + [seg] else s.queue
    ensures r.0.senderSet == s.senderSet && r.0.receiverSet == s.receiverSet
  {
    var next := s.(count := WrappingIncrement(s.count));
    if s.count >= MAX_COUNT then (next, Failure(Full))
    else if !s.senderSet then (next, Failure(NotInitialized))
    else if !delivered then (next, Failure(SendFailed))
    else (next.(queue := s.queue + [seg]), Success(()))
  }

  /** Whether `receiver.recv()` waits: the queue is empty while a sender still exists, so the call does
      not return until some writer sends a segment. `init_channel` keeps its sender for the life of
      the process, so every initialised channel with an empty queue is in this state. */
  predicate Blocks(s: ChannelState) {
    s.receiverSet && s.senderSet && s.queue == []
  }

  /** `channel_receive`. `None` is a receive still waiting inside `recv()`: it has not returned, so
      nothing has changed, the counter included. Once `recv()` returns the counter is decremented,
      whether or not it succeeded. An empty queue with no sender left is the IPC disconnect error. */
  function ReceiveStep(s: ChannelState): (r: (ChannelState, Option<Result<Segment, ChannelError>>))
    ensures r.1.None? <==> Blocks(s)
    ensures r.1.None? ==> r.0 == s
    ensures !s.receiverSet ==> r == (s, Some(Failure(NotInitialized)))
    ensures s.receiverSet && r.1.Some? ==> r.0.count == WrappingDecrement(s.count)
    ensures r.1 == Some(Failure(ReceiveFailed)) <==> s.receiverSet && !s.senderSet && s.queue == []
    ensures (r.1.Some? && r.1.value.Success?) <==> s.receiverSet && s.queue != []
    ensures r.1.Some? && r.1.value.Success? ==> r.1.value.value == s.queue[0] && r.0.queue == s.queue[1..]
    ensures !(r.1.Some? && r.1.value.Success?) ==> r.0.queue == s.queue
    ensures r.0.senderSet == s.senderSet && r.0.receiverSet == s.receiverSet
  {
    if !s.receiverSet then (s, Some(Failure(NotInitialized)))
    else if s.queue == [] then
      if s.senderSet then (s, None)
      else (s.(count := WrappingDecrement(s.count)), Some(Failure(ReceiveFailed)))
    else (s.(count := WrappingDecrement(s.count), queue := s.queue[1..]), Some(Success(s.queue[0])))
  }

  /** `channel_try_receive`: like `ReceiveStep`, but an empty queue gives `None` at once instead of
      waiting, and the counter is still decremented. */
  function TryReceiveStep(s: ChannelState): (r: (ChannelState, Result<Option<Segment>, ChannelError>))
    ensures !s.receiverSet ==> r == (s, Failure(NotInitialized))
    ensures s.receiverSet ==> r.0.count == WrappingDecrement(s.count) && r.1.Success?
    ensures s.receiverSet && s.queue == [] ==> r.1 == Success(None) && r.0.queue == []
    ensures s.receiverSet && s.queue != [] ==> r.1 == Success(Some(s.queue[0])) && r.0.queue == s.queue[1..]
    ensures r.0.senderSet == s.senderSet && r.0.receiverSet == s.receiverSet
  {
    if !s.receiverSet then (s, Failure(NotInitialized))
    else if s.queue == [] then (s.(count := WrappingDecrement(s.count)), Success(None))
    else (s.(count := WrappingDecrement(s.count), queue := s.queue[1..]), Success(Some(s.queue[0])))
  }

  /** The process-wide channel: the shared counter, the IPC queue and the two endpoint cells. */
  class Channel {
    var count: Usize
    var queue: seq<Segment>
    var senderSet: bool
    var receiverSet: bool

    function State(): ChannelState
      reads this
    {
      ChannelState(count, queue, senderSet, receiverSet)
    }

    /** The counter starts at 0 and neither endpoint exists yet. */
    constructor ()
      ensures State() == INITIAL
    {
      count, queue, senderSet, receiverSet := 0, [], false, false;
    }

    method Init(created: bool) returns (r: Result<(), ChannelError>)
      modifies this
      ensures (State(), r) == InitStep(old(State()), created)
    {
      if !created {
        return Failure(CreateFailed);
      }
      if senderSet {
        return Failure(AlreadyInitialized);
      }
      senderSet := true;
      if receiverSet {
        return Failure(AlreadyInitialized);
      }
      receiverSet := true;
      queue := [];
      r := Success(());
    }

    method Send(seg: Segment, delivered: bool) returns (r: Result<(), ChannelError>)
      modifies this
      ensures (State(), r) == SendStep(old(State()), seg, delivered)
    {
      var oldCount := count;
      count := WrappingIncrement(count);
      if oldCount >= MAX_COUNT {
        return Failure(Full);
      }
      if !senderSet {
        return Failure(NotInitialized);
      }
      if !delivered {
        return Failure(SendFailed);
      }
      queue := queue + [seg];
      r := Success(());
    }

    /** `None`: the receive is still waiting, and nothing has changed. */
    method Receive() returns (r: Option<Result<Segment, ChannelError>>)
      modifies this
      ensures (State(), r) == ReceiveStep(old(State()))
    {
      if !receiverSet {
        return Some(Failure(NotInitialized));
      }
      if queue == [] {
        if senderSet {
          return None;
        }
        r := Some(Failure(ReceiveFailed));
      } else {
        r := Some(Success(queue[0]));
        queue := queue[1..];
      }
      count := WrappingDecrement(count);
    }

    method TryReceive() returns (r: Result<Option<Segment>, ChannelError>)
      modifies this
      ensures (State(), r) == TryReceiveStep(old(State()))
    {
      if !receiverSet {
        return Failure(NotInitialized);
      }
      if queue == [] {
        r := Success(None);
      } else {
        r := Success(Some(queue[0]));
        queue := queue[1..];
      }
      count := WrappingDecrement(count);
    }

    /** `Receiver::recv`: a successful receive is always reported as `Some`. `None` is a receive
        still waiting, as in `Receive`. */
    method Recv() returns (r: Option<Result<Option<Segment>, ChannelError>>)
      modifies this
      ensures r.Some? && r.value.Success? ==> r.value.value.Some?
      ensures var (s, rr) := ReceiveStep(old(State()));
              State() == s && r.None? == rr.None? &&
              (rr.Some? && rr.value.Success? ==> r == Some(Success(Some(rr.value.value)))) &&
              (rr.Some? && rr.value.Failure? ==> r == Some(Failure(rr.value.error)))
    {
      var received := Receive();
      if received.None? {
        r := None;
      } else if received.value.Success? {
        r := Some(Success(Some(received.value.value)));
      } else {
        r := Some(Failure(received.value.error));
      }
    }

    /** `Receiver::try_recv`: the result of `channel_try_receive`, unchanged. */
    method TryRecv() returns (r: Result<Option<Segment>, ChannelError>)
      modifies this
      ensures (State(), r) == TryReceiveStep(old(State()))
    {
      r := TryReceive();
    }
  }

  // ---------------------------------------------------------------------------------------------
  // Runs of several operations, and what they show about the counter.

  /** Sends `segs` one after another, every IPC send succeeding. Whatever their results, the sends
      only ever append to the queue, at most one segment each, and leave the endpoints alone. */
  function SendAll(s: ChannelState, segs: seq<Segment>): (r: (ChannelState, seq<Result<(), ChannelError>>))
    ensures |r.1| == |segs|
    ensures s.queue <= r.0.queue && |r.0.queue| <= |s.queue| + |segs|
    ensures r.0.senderSet == s.senderSet && r.0.receiverSet == s.receiverSet
    decreases |segs|
  {
    if segs == [] then (s, [])
    else
      var (s1, r1) := SendStep(s, segs[0], true);
      var (s2, rs) := SendAll(s1, segs[1..]);
      (s2, [r1] + rs)
  }

  /** Every send counts, accepted or not: a run of sends raises the counter by its length, modulo
      2^64. */
  lemma {:induction false} SendsAlwaysCount(s: ChannelState, segs: seq<Segment>)
    ensures SendAll(s, segs).0.count == (s.count + |segs|) % USIZE_MODULUS
    decreases |segs|
  {
    if segs != [] {
      var s1 := SendStep(s, segs[0], true).0;
      SendsAlwaysCount(s1, segs[1..]);
    }
  }

  /** Receives `n` times in a row. Receives only ever take from the front of the queue and leave the
      endpoints alone. */
  function ReceiveN(s: ChannelState, n: nat): (r: (ChannelState, seq<Option<Result<Segment, ChannelError>>>))
    ensures |r.1| == n
    ensures |r.0.queue| <= |s.queue| && r.0.queue == s.queue[|s.queue| - |r.0.queue|..]
    ensures r.0.senderSet == s.senderSet && r.0.receiverSet == s.receiverSet
    decreases n
  {
    if n == 0 then (s, [])
    else
      var (s1, r1) := ReceiveStep(s);
      var (s2, rs) := ReceiveN(s1, n - 1);
      (s2, [r1] + rs)
  }

  /** Sends below the cap are all accepted: each segment is appended in order and the counter rises
      by one per send. */
  lemma {:induction false} SendAllWithinCap(s: ChannelState, segs: seq<Segment>)
    requires s.senderSet
    requires s.count + |segs| <= MAX_COUNT
    ensures SendAll(s, segs).0 == s.(count := s.count + |segs|, queue := s.queue + segs)
    ensures forall k :: 0 <= k < |segs| ==> SendAll(s, segs).1[k] == Success(())
    decreases |segs|
  {
    if segs != [] {
      var s1 := SendStep(s, segs[0], true).0;
      SendAllWithinCap(s1, segs[1..]);
      assert s.queue + [segs[0]] + segs[1..] == s.queue + segs;
    }
  }

  /** Once the counter is at or above the cap, every further send is refused as full, nothing is
      queued, and each refusal still adds one to the counter: the counter drifts upwards. */
  lemma {:induction false} RefusedSendsDrift(s: ChannelState, segs: seq<Segment>)
    requires s.count >= MAX_COUNT
    requires s.count + |segs| <= USIZE_MAX
    ensures SendAll(s, segs).0 == s.(count := s.count + |segs|)
    ensures forall k :: 0 <= k < |segs| ==> SendAll(s, segs).1[k] == Failure(Full)
    decreases |segs|
  {
    if segs != [] {
      var s1 := SendStep(s, segs[0], true).0;
      RefusedSendsDrift(s1, segs[1..]);
    }
  }

  /** Receiving with the receiver in place takes the queue's segments front first, one per call, and
      decrements the counter once per call. */
  lemma {:induction false} ReceiveNTakesPrefix(s: ChannelState, n: nat)
    requires s.receiverSet
    requires n <= |s.queue|
    requires n <= s.count
    ensures ReceiveN(s, n).0 == s.(count := s.count - n, queue := s.queue[n..])
    ensures forall k :: 0 <= k < n ==> ReceiveN(s, n).1[k] == Some(Success(s.queue[k]))
    decreases n
  {
    if n > 0 {
      var s1 := ReceiveStep(s).0;
      ReceiveNTakesPrefix(s1, n - 1);
      assert s1.queue[n - 1..] == s.queue[n..];
    }
  }

  /** Segments sent into an empty, initialised channel below the cap come out in the order they were
      sent, each exactly once, and the counter is back where it started. */
  lemma FifoRoundTrip(s: ChannelState, segs: seq<Segment>)
    requires s.senderSet && s.receiverSet && s.queue == []
    requires s.count + |segs| <= MAX_COUNT
    ensures var (s1, rs) := ReceiveN(SendAll(s, segs).0, |segs|);
            s1 == s && |rs| == |segs| && forall k :: 0 <= k < |segs| ==> rs[k] == Some(Success(segs[k]))
  {
    SendAllWithinCap(s, segs);
    var sent := SendAll(s, segs).0;
    assert sent.queue == segs;
    ReceiveNTakesPrefix(sent, |segs|);
    assert segs[|segs|..] == [];
  }

  /** A freshly initialised channel accepts exactly `MAX_COUNT` segments; the next send is refused
      as full and leaves the counter at `MAX_COUNT + 1`, one above the cap. */
  lemma {:induction false} FillingUp(segs: seq<Segment>, extra: Segment)
    requires |segs| == MAX_COUNT
    ensures var s := InitStep(INITIAL, true).0;
            var (full, rs) := SendAll(s, segs);
            var (after, r) := SendStep(full, extra, true);
            full.queue == segs && full.count == MAX_COUNT &&
            (forall k :: 0 <= k < |segs| ==> rs[k] == Success(())) &&
            r == Failure(Full) && after.queue == segs && after.count == MAX_COUNT + 1
  {
    var s := InitStep(INITIAL, true).0;
    SendAllWithinCap(s, segs);
  }

  /** A receive on a freshly initialised, empty channel waits instead of failing: it changes nothing,
      so the counter stays at 0 and a send made meanwhile is accepted and is what the waiting receive
      then returns. */
  lemma IdleReceiveWaits(seg: Segment)
    ensures var s := InitStep(INITIAL, true).0;
            Blocks(s) && ReceiveStep(s) == (s, None) &&
            SendStep(ReceiveStep(s).0, seg, true) == (s.(count := 1, queue := [seg]), Success(())) &&
            ReceiveStep(SendStep(s, seg, true).0) == (s, Some(Success(seg)))
  {
    assert [] + [seg] == [seg];
  }

  /** `try_recv` on an empty channel whose counter is 0 wraps the counter round to `usize::MAX`.
      The next send is then refused as full even though the channel is empty, and its increment
      wraps the counter back to 0, so the send after it is accepted again. */
  lemma TryReceiveUnderflow(s: ChannelState, a: Segment, b: Segment)
    requires s.senderSet && s.receiverSet && s.queue == [] && s.count == 0
    ensures TryReceiveStep(s) == (s.(count := USIZE_MAX), Success(None))
    ensures var (s1, r1) := SendStep(TryReceiveStep(s).0, a, true);
            var (s2, r2) := SendStep(s1, b, true);
            r1 == Failure(Full) && s1.count == 0 && s1.queue == [] &&
            r2 == Success(()) && s2.count == 1 && s2.queue == [b]
  {
  }

  /** A second `init_channel` is refused and leaves the first endpoints and their queue alone. */
  lemma SecondInitRefused(s: ChannelState, created: bool)
    requires s.senderSet
    ensures InitStep(s, created).0 == s
    ensures InitStep(s, created).1.Failure?
  {
  }
}
