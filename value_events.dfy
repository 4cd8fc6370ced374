/** `ValueEvent`: an asyncio.Event whose `set` carries a value to every
    waiter. The stored value doubles as the flag: only a truthy value latches. */
module ValueEvents {
  import opened Py

  /** How the `await fut` of a suspended `wait()` stands: still pending,
      resumable with a result, or raising CancelledError (the future was
      cancelled, or the waiting task was cancelled after the future had
      already been resolved). */
  datatype FutureState = Pending | Resolved(result: Value) | Cancelled

  /** One entry of `_waiters`: the identity of the future and its state. */
  datatype Waiter = Waiter(id: nat, state: FutureState)

  /** `_value`, `_waiters`, and the supply of fresh future identities. */
  datatype EventState = EventState(value: Value, waiters: seq<Waiter>, nextId: nat)

  predicate WellFormed(s: EventState) {
    && (forall i | 0 <= i < |s.waiters| :: s.waiters[i].id < s.nextId)
    && (forall i, j | 0 <= i < j < |s.waiters| :: s.waiters[i].id != s.waiters[j].id)
  }

  /** asyncio.Event starts with its flag False and no waiters. */
  const INITIAL: EventState := EventState(PyBool(false), [], 0)

  /** `if not fut.done(): fut.set_result(v)` */
  function Resolve(w: Waiter, v: Value): Waiter {
    if w.state.Pending? then Waiter(w.id, Resolved(v)) else w
  }

  function ResolveAll(ws: seq<Waiter>, v: Value): (r: seq<Waiter>)
    ensures |r| == |ws|
    ensures forall i | 0 <= i < |ws| :: r[i] == Resolve(ws[i], v)
  {
    if ws == [] then [] else [Resolve(ws[0], v)] + ResolveAll(ws[1..], v)
  }

  /** `Task.cancel()` of the task awaiting the future with identity `id`:
      a pending future is cancelled; a future that is already resolved
      ignores `fut.cancel()`, but the task then records the request
      (`_must_cancel`) and its `await fut` raises CancelledError all the
      same. Either way the wait ends cancelled. */
  function CancelOne(w: Waiter, id: nat): Waiter {
    if w.id == id then Waiter(w.id, Cancelled) else w
  }

  function CancelIn(ws: seq<Waiter>, id: nat): (r: seq<Waiter>)
    ensures |r| == |ws|
    ensures forall i | 0 <= i < |ws| :: r[i] == CancelOne(ws[i], id)
  {
    if ws == [] then [] else [CancelOne(ws[0], id)] + CancelIn(ws[1..], id)
  }

  /** Position of the first waiter with identity `id`, or `|ws|` if none. */
  function IndexOf(ws: seq<Waiter>, id: nat): (k: nat)
    ensures k <= |ws|
    ensures forall j | 0 <= j < k :: ws[j].id != id
    ensures k < |ws| ==> ws[k].id == id
  {
    if ws == [] then 0 else if ws[0].id == id then 0 else 1 + IndexOf(ws[1..], id)
  }

  /** `_waiters.remove(fut)`: drops the first entry with that identity. */
  function Remove(ws: seq<Waiter>, id: nat): seq<Waiter> {
    var k := IndexOf(ws, id);
    if k < |ws| then ws[..k] + ws[k + 1..] else ws
  }

  // ---------------------------------------------------------------------
  // The operations as steps on the state.

  /** `set(v)`: when the stored value is falsy, store `v` and resolve every
      waiter that is not yet done; otherwise do nothing. */
  function SetStep(s: EventState, v: Value): EventState {
    if Truthy(s.value) then s else EventState(v, ResolveAll(s.waiters, v), s.nextId)
  }

  datatype WaitStart = Immediate(v: Value) | Suspended(id: nat)

  /** Entry to `wait()`: return a truthy stored value at once, otherwise
      append a fresh pending future and suspend on it. */
  function BeginWaitStep(s: EventState): (WaitStart, EventState) {
    if Truthy(s.value) then (Immediate(s.value), s)
    else (Suspended(s.nextId),
          EventState(s.value, s.waiters + [Waiter(s.nextId, Pending)], s.nextId + 1))
  }

  /** The task suspended in `wait()` on future `id` is cancelled (by
      `wait_for`'s timeout or a disconnect): the future is cancelled. */
  function CancelStep(s: EventState, id: nat): EventState {
    EventState(s.value, CancelIn(s.waiters, id), s.nextId)
  }

  datatype WaitEnd = Woke(v: Value) | WaitCancelled | NotResumed

  /** Resumption of `wait()` once its future is done: the `finally` removes
      the future, then the result is returned or CancelledError raised. A
      future that is absent or still pending cannot resume the task. */
  function FinishStep(s: EventState, id: nat): (WaitEnd, EventState) {
    var k := IndexOf(s.waiters, id);
    if k == |s.waiters| then (NotResumed, s)
    else
      var removed := EventState(s.value, Remove(s.waiters, id), s.nextId);
      match s.waiters[k].state
      case Pending => (NotResumed, s)
      case Resolved(v) => (Woke(v), removed)
      case Cancelled => (WaitCancelled, removed)
  }

  datatype EventOp = SetOp(v: Value) | WaitOp | CancelOp(id: nat) | FinishOp(id: nat)

  function Step(s: EventState, op: EventOp): EventState {
    match op
    case SetOp(v) => SetStep(s, v)
    case WaitOp => BeginWaitStep(s).1
    case CancelOp(id) => CancelStep(s, id)
    case FinishOp(id) => FinishStep(s, id).1
  }

  function Run(s: EventState, ops: seq<EventOp>): EventState
    decreases |ops|
  {
    if ops == [] then s else Run(Step(s, ops[0]), ops[1..])
  }

  /** The values passed to `set`, in order. */
  function SetValues(ops: seq<EventOp>): seq<Value>
    decreases |ops|
  {
    if ops == [] then []
    else (if ops[0].SetOp? then [ops[0].v] else []) + SetValues(ops[1..])
  }

  function FirstTruthy(vs: seq<Value>): (k: nat)
    ensures k <= |vs|
    ensures forall j | 0 <= j < k :: !Truthy(vs[j])
    ensures k < |vs| ==> Truthy(vs[k])
  {
    if vs == [] then 0 else if Truthy(vs[0]) then 0 else 1 + FirstTruthy(vs[1..])
  }

  /** Reference definition of the stored value after the calls `set(vs[0])`,
      `set(vs[1])`, ... starting from `init`: a truthy value stays; otherwise
      the first truthy argument wins; with none, the last falsy argument
      overwrites. */
  function LatchedValue(init: Value, vs: seq<Value>): Value {
    if Truthy(init) then init
    else
      var k := FirstTruthy(vs);
      if k < |vs| then vs[k] else if vs == [] then init else vs[|vs| - 1]
  }

  // ---------------------------------------------------------------------
  // Properties.

  lemma IndexOfAt(ws: seq<Waiter>, id: nat, n: nat)
    requires n < |ws| && ws[n].id == id
    requires forall j | 0 <= j < n :: ws[j].id != id
    ensures IndexOf(ws, id) == n
  {
  }

  /** Removing a waiter keeps identities unique and below `nextId`. */
  lemma RemoveKeepsWellFormed(s: EventState, id: nat)
    requires WellFormed(s)
    ensures WellFormed(EventState(s.value, Remove(s.waiters, id), s.nextId))
  {
    var k := IndexOf(s.waiters, id);
    if k < |s.waiters| {
      var r := Remove(s.waiters, id);
      assert |r| == |s.waiters| - 1;
      forall i | 0 <= i < |r|
        ensures r[i] == s.waiters[if i < k then i else i + 1]
      {
      }
      forall i, j | 0 <= i < j < |r|
        ensures r[i].id != r[j].id
      {
        var i' := if i < k then i else i + 1;
        var j' := if j < k then j else j + 1;
        assert r[i] == s.waiters[i'] && r[j] == s.waiters[j'];
      }
    }
  }

  /** Every operation keeps waiter identities unique and below `nextId`. */
  lemma StepPreservesWellFormed(s: EventState, op: EventOp)
    requires WellFormed(s)
    ensures WellFormed(Step(s, op))
  {
    match op
    case SetOp(v) =>
    case WaitOp =>
    case CancelOp(id) =>
    case FinishOp(id) =>
      RemoveKeepsWellFormed(s, id);
  }

  /** One `set(v)` in front of the later calls `vs`. */
  lemma LatchedAfterSet(s: EventState, v: Value, vs: seq<Value>)
    ensures LatchedValue(SetStep(s, v).value, vs) == LatchedValue(s.value, [v] + vs)
  {
    if !Truthy(s.value) {
      assert ([v] + vs)[1..] == vs;
      if !Truthy(v) {
        assert FirstTruthy([v] + vs) == 1 + FirstTruthy(vs);
      }
    }
  }

  /** Only `set` changes the stored value. */
  lemma OnlySetChangesValue(s: EventState, op: EventOp)
    requires !op.SetOp?
    ensures Step(s, op).value == s.value
  {
  }

  /** The stored value after any sequence of operations is the reference
      value of the `set` calls among them: first truthy value wins. */
  lemma {:induction false} StoredValueAfterRun(s: EventState, ops: seq<EventOp>)
    ensures Run(s, ops).value == LatchedValue(s.value, SetValues(ops))
    decreases |ops|
  {
    if ops != [] {
      var s1 := Step(s, ops[0]);
      var rest := ops[1..];
      StoredValueAfterRun(s1, rest);
      if ops[0].SetOp? {
        assert SetValues(ops) == [ops[0].v] + SetValues(rest);
        LatchedAfterSet(s, ops[0].v, SetValues(rest));
      } else {
        assert SetValues(ops) == SetValues(rest);
        OnlySetChangesValue(s, ops[0]);
      }
    }
  }

  /** Once a truthy value is stored, no operation changes it and every later
      `wait()` returns it without suspending. */
  lemma {:induction false} LatchIsPermanent(s: EventState, ops: seq<EventOp>)
    requires Truthy(s.value)
    ensures Run(s, ops).value == s.value
    ensures BeginWaitStep(Run(s, ops)) == (Immediate(s.value), Run(s, ops))
  {
    StoredValueAfterRun(s, ops);
  }

  /** After a latch, `set(w)` changes nothing at all: neither the stored
      value nor any waiter's result. */
  lemma LaterSetIsNoOp(s: EventState, v: Value, w: Value)
    requires !Truthy(s.value) && Truthy(v)
    ensures SetStep(SetStep(s, v), w) == SetStep(s, v)
  {
  }

  /** `set(v)` on an unlatched event resolves each pending waiter with
      exactly `v` and leaves done waiters as they were, in the same order. */
  lemma SetResolvesPendingWaiters(s: EventState, v: Value, i: nat)
    requires !Truthy(s.value) && i < |s.waiters|
    ensures |SetStep(s, v).waiters| == |s.waiters|
    ensures SetStep(s, v).waiters[i].id == s.waiters[i].id
    ensures s.waiters[i].state.Pending? ==> SetStep(s, v).waiters[i].state == Resolved(v)
    ensures !s.waiters[i].state.Pending? ==> SetStep(s, v).waiters[i] == s.waiters[i]
  {
  }

  /** A waiter suspended before `set(v)` wakes with exactly `v`, and its
      resumption removes it from the waiters. */
  lemma {:induction false} SuspendedWaiterWakesWithValue(s: EventState, v: Value, id: nat)
    requires WellFormed(s) && !Truthy(s.value)
    requires BeginWaitStep(s).0 == Suspended(id)
    ensures FinishStep(SetStep(BeginWaitStep(s).1, v), id).0 == Woke(v)
    ensures FinishStep(SetStep(BeginWaitStep(s).1, v), id).1.waiters == ResolveAll(s.waiters, v)
  {
    var s1 := BeginWaitStep(s).1;
    var s2 := SetStep(s1, v);
    var n := |s.waiters|;
    assert s1.waiters[n] == Waiter(id, Pending);
    assert forall j | 0 <= j < n :: s1.waiters[j].id != id;
    assert forall j | 0 <= j < n :: s2.waiters[j].id != id;
    IndexOfAt(s2.waiters, id, n);
    assert s2.waiters[..n] == ResolveAll(s.waiters, v);
  }

  /** `wait()` on an event holding a falsy value registers exactly one new
      pending waiter; its resumption, woken or cancelled, removes exactly
      that waiter again. */
  lemma WaitRegistersThenRemoves(s: EventState)
    requires WellFormed(s) && !Truthy(s.value)
    ensures BeginWaitStep(s).0 == Suspended(s.nextId)
    ensures BeginWaitStep(s).1.waiters == s.waiters + [Waiter(s.nextId, Pending)]
    ensures var s2 := CancelStep(BeginWaitStep(s).1, s.nextId);
            FinishStep(s2, s.nextId) == (WaitCancelled, EventState(s.value, s.waiters, s.nextId + 1))
  {
    var s1 := BeginWaitStep(s).1;
    var s2 := CancelStep(s1, s.nextId);
    var n := |s.waiters|;
    assert forall j | 0 <= j < n :: s1.waiters[j].id != s.nextId;
    assert forall j | 0 <= j < n :: s2.waiters[j] == s.waiters[j];
    assert s2.waiters[n] == Waiter(s.nextId, Cancelled);
    IndexOfAt(s2.waiters, s.nextId, n);
    assert s2.waiters[..n] == s.waiters;
    assert Remove(s2.waiters, s.nextId) == s.waiters;
  }

  /** A cancellation that reaches the waiting task after `set(v)` has
      already resolved its future still wins: the wait raises CancelledError
      instead of returning `v`, and its `finally` removes the future. This
      is a `wait_for` timeout firing in the same step as the `set`. */
  lemma {:induction false} CancelAfterSetStillCancels(s: EventState, v: Value)
    requires WellFormed(s) && !Truthy(s.value)
    ensures var s1 := BeginWaitStep(s).1;
            var s3 := CancelStep(SetStep(s1, v), s.nextId);
            FinishStep(s3, s.nextId) == (WaitCancelled, EventState(v, ResolveAll(s.waiters, v), s.nextId + 1))
  {
    var s1 := BeginWaitStep(s).1;
    var s2 := SetStep(s1, v);
    var s3 := CancelStep(s2, s.nextId);
    var n := |s.waiters|;
    assert forall j | 0 <= j < n :: s2.waiters[j].id != s.nextId;
    assert forall j | 0 <= j < n :: s3.waiters[j] == s2.waiters[j];
    assert s3.waiters[n] == Waiter(s.nextId, Cancelled);
    IndexOfAt(s3.waiters, s.nextId, n);
    assert s2.waiters[..n] == ResolveAll(s.waiters, v);
    assert s3.waiters[..n] == ResolveAll(s.waiters, v);
    assert |s3.waiters| == n + 1 && s3.waiters[n + 1..] == [];
    assert Remove(s3.waiters, s.nextId) == ResolveAll(s.waiters, v);
    assert s3.value == v;
  }

  /** `set` with a falsy value (such as None) does not latch: the next
      `wait()` still suspends. */
  lemma FalsySetDoesNotLatch(s: EventState, v: Value)
    requires !Truthy(v)
    ensures BeginWaitStep(SetStep(s, v)).0 == (if Truthy(s.value) then Immediate(s.value) else Suspended(s.nextId))
  {
  }

  /** Without a `set`, no waiter is ever resolved: a waiter that is not
      resolved to begin with never wakes with a value. */
  lemma {:induction false} NoSetNoWake(s: EventState, ops: seq<EventOp>, id: nat)
    requires forall i | 0 <= i < |ops| :: !ops[i].SetOp?
    requires forall i | 0 <= i < |s.waiters| :: s.waiters[i].id == id ==> !s.waiters[i].state.Resolved?
    ensures forall i | 0 <= i < |Run(s, ops).waiters| ::
              Run(s, ops).waiters[i].id == id ==> !Run(s, ops).waiters[i].state.Resolved?
    decreases |ops|
  {
    if ops != [] {
      var s1 := Step(s, ops[0]);
      if ops[0].FinishOp? {
        var k := IndexOf(s.waiters, ops[0].id);
        if k < |s.waiters| && !s.waiters[k].state.Pending? {
          var r := Remove(s.waiters, ops[0].id);
          assert forall i | 0 <= i < |r| :: r[i] == (if i < k then s.waiters[i] else s.waiters[i + 1]);
        }
      }
      NoSetNoWake(s1, ops[1..], id);
    }
  }

  // ---------------------------------------------------------------------
  // The event as an object whose methods update its fields in place.

  class ValueEvent {
    var value: Value
    var waiters: seq<Waiter>
    var nextId: nat

    function State(): EventState
      reads this
    {
      EventState(value, waiters, nextId)
    }

    ghost predicate Valid()
      reads this
    {
      WellFormed(State())
    }

    constructor ()
      ensures Valid() && State() == INITIAL
    {
      value, waiters, nextId := PyBool(false), [], 0;
    }

    /** `set(value=True)` */
    method Set(v: Value := PyBool(true))
      requires Valid()
      modifies this
      ensures Valid() && State() == SetStep(old(State()), v)
      ensures Truthy(old(value)) ==> value == old(value) && waiters == old(waiters)
      ensures !Truthy(old(value)) ==> value == v && |waiters| == |old(waiters)|
      ensures !Truthy(old(value)) ==>
                forall i | 0 <= i < |waiters| :: waiters[i] == Resolve(old(waiters)[i], v)
    {
      if !Truthy(value) {
        value := v;
        var i := 0;
        while i < |waiters|
          invariant 0 <= i <= |waiters| == |old(waiters)|
          invariant value == v && nextId == old(nextId)
          invariant forall j | 0 <= j < i :: waiters[j] == Resolve(old(waiters)[j], v)
          invariant forall j | i <= j < |waiters| :: waiters[j] == old(waiters)[j]
        {
          if waiters[i].state.Pending? {
            waiters := waiters[i := Waiter(waiters[i].id, Resolved(v))];
          }
          i := i + 1;
        }
        assert waiters == ResolveAll(old(waiters), v);
      }
    }

    /** Entry to `wait()`. */
    method BeginWait() returns (r: WaitStart)
      requires Valid()
      modifies this
      ensures Valid() && (r, State()) == BeginWaitStep(old(State()))
      ensures Truthy(old(value)) ==> r == Immediate(old(value)) && waiters == old(waiters)
      ensures !Truthy(old(value)) ==>
                (r == Suspended(old(nextId)) && waiters == old(waiters) + [Waiter(old(nextId), Pending)])
    {
      if Truthy(value) {
        return Immediate(value);
      }
      r := Suspended(nextId);
      waiters := waiters + [Waiter(nextId, Pending)];
      nextId := nextId + 1;
    }

    /** The task suspended on future `id` is cancelled: its wait will end
        with CancelledError, whether or not the future was already resolved. */
    method CancelWaiter(id: nat)
      requires Valid()
      modifies this
      ensures Valid() && State() == CancelStep(old(State()), id)
    {
      var i := 0;
      while i < |waiters|
        invariant 0 <= i <= |waiters| == |old(waiters)|
        invariant value == old(value) && nextId == old(nextId)
        invariant forall j | 0 <= j < i :: waiters[j] == CancelOne(old(waiters)[j], id)
        invariant forall j | i <= j < |waiters| :: waiters[j] == old(waiters)[j]
      {
        if waiters[i].id == id {
          waiters := waiters[i := Waiter(id, Cancelled)];
        }
        i := i + 1;
      }
      assert waiters == CancelIn(old(waiters), id);
    }

    /** Resumption of `wait()` on future `id`; the scheduler resumes the task
        only once that future is done. */
    method FinishWait(id: nat) returns (r: WaitEnd)
      requires Valid()
      requires exists i | 0 <= i < |waiters| :: waiters[i].id == id && !waiters[i].state.Pending?
      modifies this
      ensures Valid() && (r, State()) == FinishStep(old(State()), id)
      ensures !r.NotResumed? && |waiters| + 1 == |old(waiters)|
    {
      var k := 0;
      while k < |waiters| && waiters[k].id != id
        invariant 0 <= k <= |waiters|
        invariant forall j | 0 <= j < k :: waiters[j].id != id
      {
        k := k + 1;
      }
      assert k == IndexOf(waiters, id);
      var fut := waiters[k];
      waiters := waiters[..k] + waiters[k + 1..];
      RemoveKeepsWellFormed(old(State()), id);
      if fut.state.Resolved? {
        r := Woke(fut.state.result);
      } else {
        r := WaitCancelled;
      }
    }
  }
}
