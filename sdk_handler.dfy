/** The SDK's logging handler: formatted records are buffered and handed off
    in batches, a batch being sealed when the buffer reaches the batch size
    or the flush interval has passed since the last hand-off. The monotonic
    clock is an input; a hand-off is recorded instead of starting the
    sending thread. */
module SdkHandler {
  import SdkConfig

  /** The messages of the batches, in hand-off order. */
  function Flatten(bs: seq<seq<string>>): seq<string> {
    if bs == [] then [] else Flatten(bs[..|bs| - 1]) + bs[|bs| - 1]
  }

  lemma FlattenSnoc(bs: seq<seq<string>>, b: seq<string>)
    ensures Flatten(bs + [b]) == Flatten(bs) + b
  {
    assert (bs + [b])[..|bs|] == bs;
  }

  /** What the handler holds: its buffer, the time of the last hand-off and
      the batches handed off so far. */
  datatype Buffered = Buffered(buffer: seq<string>, lastFlush: int, sent: seq<seq<string>>)

  /** Every message emitted so far, in order: the handed-off ones, then the
      buffered ones. */
  function Contents(s: Buffered): seq<string> {
    Flatten(s.sent) + s.buffer
  }

  /** `_flush_locked`. */
  function FlushStep(s: Buffered, now: int): Buffered {
    if s.buffer == [] then s else Buffered([], now, s.sent + [s.buffer])
  }

  /** `emit` on an already formatted message. */
  function EmitStep(s: Buffered, msg: string, now: int, batchSize: int, flushInterval: int): Buffered {
    var grown := s.(buffer := s.buffer + [msg]);
    if |grown.buffer| >= batchSize || now - s.lastFlush >= flushInterval then FlushStep(grown, now) else grown
  }

  /** A flush of an empty buffer does nothing, not even touch the time; any
      other hands off exactly the buffer, in order, empties it and records
      the time. No message is lost or repeated either way. */
  lemma FlushStepSpec(s: Buffered, now: int)
    ensures s.buffer == [] ==> FlushStep(s, now) == s
    ensures s.buffer != [] ==>
      && FlushStep(s, now).sent == s.sent + [s.buffer]
      && FlushStep(s, now).buffer == []
      && FlushStep(s, now).lastFlush == now
    ensures Contents(FlushStep(s, now)) == Contents(s)
  {
    if s.buffer != [] {
      FlattenSnoc(s.sent, s.buffer);
    }
  }

  /** The buffer is empty or shorter than the batch size. */
  predicate Bounded(s: Buffered, batchSize: int) {
    s.buffer == [] || |s.buffer| < batchSize
  }

  /** No batch handed off is empty. */
  predicate NonEmptyBatches(s: Buffered) {
    forall i :: 0 <= i < |s.sent| ==> s.sent[i] != []
  }

  /** An emit adds its message after all earlier ones; it keeps the buffer
      below the batch size, so with a batch size of at least one the buffer
      is always shorter than it; and it never hands off an empty batch. */
  lemma EmitStepSpec(s: Buffered, msg: string, now: int, batchSize: int, flushInterval: int)
    ensures Contents(EmitStep(s, msg, now, batchSize, flushInterval)) == Contents(s) + [msg]
    ensures Bounded(s, batchSize) ==> Bounded(EmitStep(s, msg, now, batchSize, flushInterval), batchSize)
    ensures batchSize >= 1 && Bounded(s, batchSize) ==>
      |EmitStep(s, msg, now, batchSize, flushInterval).buffer| < batchSize
    ensures NonEmptyBatches(s) ==> NonEmptyBatches(EmitStep(s, msg, now, batchSize, flushInterval))
  {
    var grown := s.(buffer := s.buffer + [msg]);
    FlushStepSpec(grown, now);
    assert Contents(grown) == Contents(s) + [msg];
  }

  /** A run of emits, message `k` at clock reading `times[k]`. */
  function EmitAll(s: Buffered, msgs: seq<string>, times: seq<int>, batchSize: int, flushInterval: int): Buffered
    requires |times| == |msgs|
  {
    if msgs == [] then s
    else
      var n := |msgs| - 1;
      EmitStep(EmitAll(s, msgs[..n], times[..n], batchSize, flushInterval), msgs[n], times[n], batchSize, flushInterval)
  }

  /** Over any run of emits, every message ends up in exactly one handed-off
      batch or in the buffer, in the order emitted, and the bound on the
      buffer holds throughout. */
  lemma {:induction false} EmitAllSpec(s: Buffered, msgs: seq<string>, times: seq<int>, batchSize: int, flushInterval: int)
    requires |times| == |msgs|
    ensures Contents(EmitAll(s, msgs, times, batchSize, flushInterval)) == Contents(s) + msgs
    ensures Bounded(s, batchSize) ==> Bounded(EmitAll(s, msgs, times, batchSize, flushInterval), batchSize)
    ensures NonEmptyBatches(s) ==> NonEmptyBatches(EmitAll(s, msgs, times, batchSize, flushInterval))
    decreases |msgs|
  {
    if msgs != [] {
      var n := |msgs| - 1;
      var before := EmitAll(s, msgs[..n], times[..n], batchSize, flushInterval);
      EmitAllSpec(s, msgs[..n], times[..n], batchSize, flushInterval);
      EmitStepSpec(before, msgs[n], times[n], batchSize, flushInterval);
      assert msgs == msgs[..n] + [msgs[n]];
    }
  }

  /** `SentryLogHandler`. */
  class SentryLogHandler {
    const config: SdkConfig.SentryLoggerConfig
    var buffer: seq<string>
    var lastFlush: int
    /** The batches given to `_send`, one sending thread each. */
    var sent: seq<seq<string>>

    function State(): Buffered
      reads this
    {
      Buffered(buffer, lastFlush, sent)
    }

    ghost predicate Valid()
      reads this, config
    {
      Bounded(State(), config.batchSize) && NonEmptyBatches(State())
    }

    constructor(config: SdkConfig.SentryLoggerConfig, now: int)
      ensures Valid()
      ensures this.config == config
      ensures buffer == [] && lastFlush == now && sent == []
    {
      this.config := config;
      buffer := [];
      lastFlush := now;
      sent := [];
    }

    /** `_flush_locked`, called with the lock held. */
    method FlushLocked(now: int)
      modifies this
      ensures State() == FlushStep(old(State()), now)
    {
      if buffer == [] {
        return;
      }
      var logs := buffer;
      buffer := [];
      lastFlush := now;
      sent := sent + [logs];
    }

    /** `emit` on the formatted message `msg` at clock reading `now`. */
    method Emit(msg: string, now: int)
      requires Valid()
      modifies this
      ensures Valid()
      ensures State() == EmitStep(old(State()), msg, now, config.batchSize, config.flushIntervalSeconds)
    {
      ghost var s0 := State();
      buffer := buffer + [msg];
      if |buffer| >= config.batchSize || now - lastFlush >= config.flushIntervalSeconds {
        FlushLocked(now);
      }
      EmitStepSpec(s0, msg, now, config.batchSize, config.flushIntervalSeconds);
    }

    /** `flush`: whatever is buffered is handed off, so the buffer ends up
        empty. */
    method Flush(now: int)
      requires Valid()
      modifies this
      ensures Valid()
      ensures State() == FlushStep(old(State()), now)
      ensures buffer == []
    {
      FlushLocked(now);
    }
  }
}
