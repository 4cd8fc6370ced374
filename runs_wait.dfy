/** The "wait" run handlers (`wait_run`, `wait_run_stateless`): a consumer
    task folds the run's `(mode, chunk)` stream into the last values or error
    chunk and publishes it through a ValueEvent, while the response body
    sends a newline keep-alive on every timeout until the chunk arrives. */
module RunsWait {
  import opened Py
  import opened ValueEvents
  import opened AsyncIter

  /** One item of the run's output stream. */
  datatype Chunk = Chunk(mode: Bytes, data: Bytes)

  /** `b"values"` */
  const VALUES_MODE: Bytes := [0x76, 0x61, 0x6c, 0x75, 0x65, 0x73]
  /** `b"error"` */
  const ERROR_MODE: Bytes := [0x65, 0x72, 0x72, 0x6f, 0x72]
  /** `b'{"__error__":'` */
  const ENVELOPE_OPEN: Bytes := [0x7b, 0x22, 0x5f, 0x5f, 0x65, 0x72, 0x72, 0x6f, 0x72, 0x5f, 0x5f, 0x22, 0x3a]
  /** `b"}"` */
  const ENVELOPE_CLOSE: Bytes := [0x7d]

  /** `orjson.dumps({"__error__": orjson.Fragment(chunk)})`: the chunk is
      embedded verbatim as the value of the `__error__` key. */
  function ErrorEnvelope(chunk: Bytes): (r: Bytes)
    ensures |r| == |chunk| + 14
    ensures r[..13] == ENVELOPE_OPEN && r[13..|r| - 1] == chunk && r[|r| - 1..] == ENVELOPE_CLOSE
  {
    ENVELOPE_OPEN + chunk + ENVELOPE_CLOSE
  }

  /** The inverse of ErrorEnvelope: the embedded chunk of an envelope. */
  function OpenEnvelope(b: Bytes): (r: Option<Bytes>)
    ensures r.Some? ==> b == ErrorEnvelope(r.value)
    ensures r.None? ==> forall c: Bytes :: b != ErrorEnvelope(c)
  {
    if |b| >= 14 && b[..13] == ENVELOPE_OPEN && b[|b| - 1..] == ENVELOPE_CLOSE then
      assert b == b[..13] + b[13..|b| - 1] + b[|b| - 1..];
      Some(b[13..|b| - 1])
    else None
  }

  lemma EnvelopeRoundTrip(chunk: Bytes)
    ensures OpenEnvelope(ErrorEnvelope(chunk)) == Some(chunk)
  {
  }

  /** Distinct error chunks give distinct envelopes. */
  lemma EnvelopeInjective(c1: Bytes, c2: Bytes)
    requires ErrorEnvelope(c1) == ErrorEnvelope(c2)
    ensures c1 == c2
  {
    EnvelopeRoundTrip(c1);
    EnvelopeRoundTrip(c2);
  }

  /** The chunks the fold reacts to. */
  predicate Relevant(c: Chunk) {
    c.mode == VALUES_MODE || c.mode == ERROR_MODE
  }

  /** What a relevant chunk contributes: a values chunk as is, an error
      chunk wrapped. */
  function Contribution(c: Chunk): Bytes {
    if c.mode == VALUES_MODE then c.data else ErrorEnvelope(c.data)
  }

  /** One iteration of the `async for` in `consume`: a values chunk
      replaces `vchunk`, an error chunk replaces it with its envelope, any
      other mode leaves it alone. */
  function Keep(vchunk: Option<Bytes>, c: Chunk): Option<Bytes> {
    if Relevant(c) then Some(Contribution(c)) else vchunk
  }

  /** `vchunk` after the loop has seen `cs`, starting from None. */
  function Kept(cs: seq<Chunk>): Option<Bytes> {
    if cs == [] then None else Keep(Kept(cs[..|cs| - 1]), cs[|cs| - 1])
  }

  /** The fold keeps the contribution of the LAST relevant chunk, and is None
      exactly when no chunk is relevant. */
  lemma {:induction false} KeptIsLastRelevant(cs: seq<Chunk>)
    ensures Kept(cs) == None <==> forall i | 0 <= i < |cs| :: !Relevant(cs[i])
    ensures forall i | 0 <= i < |cs| && Relevant(cs[i]) ::
              (forall j | i < j < |cs| :: !Relevant(cs[j])) ==> Kept(cs) == Some(Contribution(cs[i]))
  {
    if cs != [] {
      var init, last := cs[..|cs| - 1], cs[|cs| - 1];
      KeptIsLastRelevant(init);
      assert forall i | 0 <= i < |init| :: init[i] == cs[i];
      assert Kept(cs) == Keep(Kept(init), last);
      if !Relevant(last) {
        forall i | 0 <= i < |cs| && Relevant(cs[i]) && (forall j | i < j < |cs| :: !Relevant(cs[j]))
          ensures Kept(cs) == Some(Contribution(cs[i]))
        {
          assert i < |init| && init[i] == cs[i];
          assert forall j | i < j < |init| :: !Relevant(init[j]);
        }
      }
    }
  }

  /** Chunks after the last relevant one do not change the result. */
  lemma {:induction false} IrrelevantSuffixIgnored(cs: seq<Chunk>, tail: seq<Chunk>)
    requires forall i | 0 <= i < |tail| :: !Relevant(tail[i])
    ensures Kept(cs + tail) == Kept(cs)
  {
    if tail != [] {
      var all := cs + tail;
      var init := tail[..|tail| - 1];
      assert all == (cs + init) + [tail[|tail| - 1]];
      KeptSnoc(cs + init, tail[|tail| - 1]);
      IrrelevantSuffixIgnored(cs, init);
    } else {
      assert cs + tail == cs;
    }
  }

  lemma KeptSnoc(cs: seq<Chunk>, c: Chunk)
    ensures Kept(cs + [c]) == Keep(Kept(cs), c)
  {
    assert (cs + [c])[..|cs|] == cs;
  }

  /** The argument of `last_chunk.set(vchunk)`. */
  function AsValue(vchunk: Option<Bytes>): (r: Value)
    ensures vchunk.None? <==> r == PyNone
    ensures vchunk.Some? ==> r == PyBytes(vchunk.value)
  {
    match vchunk
    case None => PyNone
    case Some(b) => PyBytes(b)
  }

  /** One round of `consume`'s loop: the next chunk is folded into
      `vchunk`, or the stream has ended, with the exception that stopped
      it, if any. `seen` is the chunks folded so far. */
  method FoldStep(stream: AsyncGen<Chunk>, vchunk: Option<Bytes>, ghost seen: seq<Chunk>)
    returns (vchunk': Option<Bytes>, going: bool, err: Option<Exc>, ghost seen': seq<Chunk>)
    requires stream.Valid() && vchunk == Kept(seen)
    modifies stream`pos, stream`finished
    ensures stream.Valid() && vchunk' == Kept(seen')
    ensures going ==> !old(stream.finished) && !stream.finished && stream.pos == old(stream.pos) + 1
    ensures going ==> seen' + stream.Remaining() == seen + old(stream.Remaining())
                      && stream.PendingFailure() == old(stream.PendingFailure()) && err == None
    ensures !going ==> stream.finished && seen' == seen + old(stream.Remaining())
                       && err == old(stream.PendingFailure())
  {
    var s := stream.Next();
    match s {
      case Yield(c) =>
        assert stream.items[stream.pos - 1..] == [c] + stream.items[stream.pos..];
        KeptSnoc(seen, c);
        vchunk', going, err, seen' := Keep(vchunk, c), true, None, seen + [c];
      case Stop =>
        assert seen + [] == seen;
        vchunk', going, err, seen' := vchunk, false, None, seen;
      case Fail(e) =>
        assert seen + [] == seen;
        vchunk', going, err, seen' := vchunk, false, Some(e), seen;
    }
  }

  /** The body of `consume`'s loop shared by both handlers: iterate the
      stream to its end, folding the chunks. */
  method Fold(stream: AsyncGen<Chunk>) returns (vchunk: Option<Bytes>, err: Option<Exc>)
    requires stream.Valid()
    modifies stream`pos, stream`finished
    ensures stream.Valid() && stream.finished
    ensures vchunk == Kept(old(stream.Remaining())) && err == old(stream.PendingFailure())
  {
    ghost var all := stream.Remaining();
    ghost var failure := stream.PendingFailure();
    vchunk := None;
    err := None;
    ghost var seen: seq<Chunk> := [];
    var going := true;
    while going
      invariant stream.Valid()
      invariant vchunk == Kept(seen)
      invariant going ==> seen + stream.Remaining() == all && stream.PendingFailure() == failure && err == None
      invariant !going ==> stream.finished && seen == all && err == failure
      decreases going, if stream.finished then 0 else |stream.items| - stream.pos + 1
    {
      vchunk, going, err, seen := FoldStep(stream, vchunk, seen);
    }
  }

  /** `consume` of `wait_run`: fold the stream inside `aclosing(...)`, call
      `last_chunk.set(vchunk)` once at the end of the block, then close the
      stream. A stream failure propagates out of the task after the stream is
      closed, and `last_chunk` is then never set. */
  method ConsumeStateful(stream: AsyncGen<Chunk>, lastChunk: ValueEvent) returns (raised: Option<Exc>)
    requires stream.Valid() && lastChunk.Valid()
    modifies stream, lastChunk
    ensures stream.Valid() && stream.finished && stream.closed && lastChunk.Valid()
    ensures raised == old(stream.PendingFailure())
    ensures raised.None? ==>
              lastChunk.State() == SetStep(old(lastChunk.State()), AsValue(Kept(old(stream.Remaining()))))
    ensures raised.Some? ==> lastChunk.State() == old(lastChunk.State())
  {
    var cm := new AClosing(stream);
    var s := cm.Enter();
    var vchunk, err := Fold(s);
    if err.None? {
      lastChunk.Set(AsValue(vchunk));
    }
    cm.Exit();
    raised := err;
  }

  /** `consume` of `wait_run_stateless`: the same fold, but `last_chunk.set`
      runs after the stream is closed, and any Exception raised on the way is
      logged and swallowed, leaving `last_chunk` unset. Only a BaseException
      that is not an Exception escapes. */
  method ConsumeStateless(stream: AsyncGen<Chunk>, lastChunk: ValueEvent) returns (raised: Option<Exc>)
    requires stream.Valid() && lastChunk.Valid()
    modifies stream, lastChunk
    ensures stream.Valid() && stream.finished && stream.closed && lastChunk.Valid()
    ensures raised == (var f := old(stream.PendingFailure());
                       if f.Some? && !IsException(f.value) then f else None)
    ensures old(stream.PendingFailure()).None? ==>
              lastChunk.State() == SetStep(old(lastChunk.State()), AsValue(Kept(old(stream.Remaining()))))
    ensures old(stream.PendingFailure()).Some? ==> lastChunk.State() == old(lastChunk.State())
  {
    var cm := new AClosing(stream);
    var s := cm.Enter();
    var vchunk, err := Fold(s);
    cm.Exit();
    if err.None? {
      lastChunk.Set(AsValue(vchunk));
      raised := None;
    } else if IsException(err.value) {
      raised := None;
    } else {
      raised := err;
    }
  }

  /** A successful consume on a fresh event stores the kept chunk, an empty
      one included. With no relevant chunk it sets None, and with an empty
      last values chunk it sets `b""`: both wake the waiters of the moment
      but leave the event unlatched. */
  lemma ConsumePublishesKept(cs: seq<Chunk>)
    ensures Kept(cs).Some? ==>
              SetStep(INITIAL, AsValue(Kept(cs))).value == PyBytes(Kept(cs).value)
    ensures (forall i | 0 <= i < |cs| :: !Relevant(cs[i])) ==>
              !Truthy(SetStep(INITIAL, AsValue(Kept(cs))).value)
    ensures Kept(cs) == Some([]) ==> !Truthy(SetStep(INITIAL, AsValue(Kept(cs))).value)
  {
    KeptIsLastRelevant(cs);
  }

  /** A stream with no `values` and no `error` chunk makes the consumer set
      None. A body suspended in `wait()` at that moment wakes with None, which
      it then yields as its payload. If the `set` lands while the body is
      emitting a keep-alive, no waiter is registered, nothing latches, and
      the body's next `wait()` suspends again. */
  lemma NoRelevantChunkOutcomes(s: EventState, cs: seq<Chunk>)
    requires WellFormed(s) && !Truthy(s.value)
    requires forall i | 0 <= i < |cs| :: !Relevant(cs[i])
    ensures AsValue(Kept(cs)) == PyNone
    ensures FinishStep(SetStep(BeginWaitStep(s).1, AsValue(Kept(cs))), s.nextId).0 == Woke(PyNone)
    ensures BeginWaitStep(SetStep(s, AsValue(Kept(cs)))).0 == Suspended(s.nextId)
  {
    KeptIsLastRelevant(cs);
    SuspendedWaiterWakesWithValue(s, PyNone, s.nextId);
  }

  /** How one `asyncio.wait_for(last_chunk.wait(), timeout=5)` ends. */
  datatype WaitForResult = TimedOut | ChunkReady(v: Value) | BodyCancelled

  /** What the body does, in order. */
  datatype Action =
    | StartConsumer    // `asyncio.create_task(consume())`
    | Emit(v: Value)   // `yield`
    | CancelConsumer   // `stream.cancel()`
    | AwaitConsumer    // `await stream`
    | Reraise          // `raise` of the CancelledError

  /** How `await stream` ends once the body has called `stream.cancel()`:
      the consumer had already returned (the cancel is a no-op and the await
      returns), the cancel took effect (the await raises the consumer's
      CancelledError), or the consumer had already ended with exception `e`,
      which the await raises. */
  datatype ConsumerEnd = ConsumerReturned | ConsumerCancelled | ConsumerFailed(e: Exc)

  /** How the body stops: after delivering the payload, by propagating a
      cancellation, by propagating the consumer's own exception, or not at
      all within the given events. */
  datatype BodyEnd = Delivered | CancelledUpward | FailedUpward(e: Exc) | StillWaiting

  /** `b"\n"` */
  const KEEP_ALIVE: Value := PyBytes([0x0a])

  function Repeat<T>(x: T, n: nat): (r: seq<T>)
    ensures |r| == n && forall i | 0 <= i < n :: r[i] == x
  {
    if n == 0 then [] else Repeat(x, n - 1) + [x]
  }

  /** The number of timeouts before the first other event. */
  function LeadingTimeouts(events: seq<WaitForResult>): (k: nat)
    ensures k <= |events|
    ensures forall i | 0 <= i < k :: events[i] == TimedOut
    ensures k < |events| ==> events[k] != TimedOut
  {
    if events == [] || events[0] != TimedOut then 0 else 1 + LeadingTimeouts(events[1..])
  }

  lemma {:induction false} LeadingTimeoutsExact(events: seq<WaitForResult>, i: nat)
    requires i <= |events| && forall j | 0 <= j < i :: events[j] == TimedOut
    requires i < |events| ==> events[i] != TimedOut
    ensures LeadingTimeouts(events) == i
  {
    if i > 0 {
      LeadingTimeoutsExact(events[1..], i - 1);
    }
  }

  /** What follows the keep-alives: the payload, or the cancellation
      protocol, whose bare `raise` runs only when `await stream` returned. */
  function Tail(e: WaitForResult, consumer: ConsumerEnd): seq<Action> {
    match e
    case TimedOut => []
    case ChunkReady(v) => [Emit(v)]
    case BodyCancelled =>
      [CancelConsumer, AwaitConsumer] + (if consumer.ConsumerReturned? then [Reraise] else [])
  }

  /** How the body stops on the first event that is not a timeout. */
  function EndOn(e: WaitForResult, consumer: ConsumerEnd): BodyEnd {
    match e
    case TimedOut => StillWaiting
    case ChunkReady(_) => Delivered
    case BodyCancelled =>
      if consumer.ConsumerFailed? then FailedUpward(consumer.e) else CancelledUpward
  }

  /** `body()` of both wait handlers, driven by how its successive waits end
      and by how the consumer ends if the body is cancelled: start the
      consumer, emit one keep-alive per timeout, then either emit the payload
      and stop, or cancel the consumer, await it and re-raise. */
  method HeartbeatBody(events: seq<WaitForResult>, consumer: ConsumerEnd) returns (actions: seq<Action>, end: BodyEnd)
    ensures LeadingTimeouts(events) == |events| ==>
              end == StillWaiting
              && actions == [StartConsumer] + Repeat(Emit(KEEP_ALIVE), |events|)
    ensures LeadingTimeouts(events) < |events| ==>
              actions == [StartConsumer] + Repeat(Emit(KEEP_ALIVE), LeadingTimeouts(events))
                         + Tail(events[LeadingTimeouts(events)], consumer)
    ensures LeadingTimeouts(events) < |events| ==> end == EndOn(events[LeadingTimeouts(events)], consumer)
    ensures end.FailedUpward? ==> consumer == ConsumerFailed(end.e)
  {
    actions := [StartConsumer];
    end := StillWaiting;
    var i := 0;
    while i < |events| && end == StillWaiting
      invariant 0 <= i <= |events|
      invariant end == StillWaiting ==>
                  (forall j | 0 <= j < i :: events[j] == TimedOut)
                  && actions == [StartConsumer] + Repeat(Emit(KEEP_ALIVE), i)
      invariant end != StillWaiting ==>
                  0 < i && LeadingTimeouts(events) == i - 1
                  && actions == [StartConsumer] + Repeat(Emit(KEEP_ALIVE), i - 1) + Tail(events[i - 1], consumer)
                  && end == EndOn(events[i - 1], consumer)
    {
      var e := events[i];
      i := i + 1;
      if e == TimedOut {
        actions := actions + [Emit(KEEP_ALIVE)];
      } else {
        LeadingTimeoutsExact(events, i - 1);
        if e.ChunkReady? {
          actions := actions + [Emit(e.v)];
          end := Delivered;
        } else {
          actions := actions + [CancelConsumer, AwaitConsumer];
          match consumer
          case ConsumerReturned =>
            actions := actions + [Reraise];
            end := CancelledUpward;
          case ConsumerCancelled =>
            end := CancelledUpward;
          case ConsumerFailed(x) =>
            end := FailedUpward(x);
        }
      }
    }
    if end == StillWaiting {
      LeadingTimeoutsExact(events, i);
    }
  }

  /** Once the payload is emitted nothing follows it, and it is the only
      chunk that is not a keep-alive. */
  lemma DeliveredIsLast(events: seq<WaitForResult>, k: nat, v: Value, consumer: ConsumerEnd)
    requires k < |events| && LeadingTimeouts(events) == k && events[k] == ChunkReady(v)
    ensures var actions := [StartConsumer] + Repeat(Emit(KEEP_ALIVE), k) + Tail(events[k], consumer);
            && actions[|actions| - 1] == Emit(v)
            && forall i | 1 <= i < |actions| - 1 :: actions[i] == Emit(KEEP_ALIVE)
    ensures EndOn(events[k], consumer) == Delivered
  {
  }

  /** A cancelled body cancels the consumer and awaits it before anything
      leaves the body, and emits nothing after the keep-alives. What leaves
      is the body's own cancellation, re-raised, when the consumer had
      returned; the consumer's cancellation when the cancel took effect; and
      the consumer's own exception when it had already failed. */
  lemma CancelledBodyStopsConsumer(events: seq<WaitForResult>, k: nat, consumer: ConsumerEnd)
    requires k < |events| && LeadingTimeouts(events) == k && events[k] == BodyCancelled
    ensures var actions := [StartConsumer] + Repeat(Emit(KEEP_ALIVE), k) + Tail(events[k], consumer);
            && actions[k + 1..k + 3] == [CancelConsumer, AwaitConsumer]
            && (forall i | 1 <= i < k + 1 :: actions[i] == Emit(KEEP_ALIVE))
            && (consumer.ConsumerReturned? <==> |actions| == k + 4)
            && (consumer.ConsumerReturned? ==> actions[k + 3] == Reraise)
            && (!consumer.ConsumerReturned? ==> |actions| == k + 3)
    ensures consumer.ConsumerFailed? ==> EndOn(events[k], consumer) == FailedUpward(consumer.e)
    ensures !consumer.ConsumerFailed? ==> EndOn(events[k], consumer) == CancelledUpward
  {
  }
}
