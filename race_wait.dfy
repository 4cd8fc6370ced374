/** The outcome reduction of `wait_if_not_done(coro, done)`: the work and a
    `done.wait()` watcher run as the two children of an `asyncio.TaskGroup`;
    whichever finishes first cancels the other, and the caller sees the
    work's result, an exception, or a cancellation. The race itself is an
    input: which side finished first and how the work ended. */
module RaceWait {
  import opened Py

  /** How a task or a future ends when awaited: it returns, raises an
      exception other than a cancellation, or raises `CancelledError(*args)`. */
  datatype End = Returned(v: Value) | Raised(e: Exc) | CancelledWith(args: seq<Value>)

  /** What `wait_if_not_done` (or the task group's exit) does in the end:
      return a value, raise one exception, raise an exception group whose
      members are `excs`, or raise `CancelledError(*args)`. */
  datatype Outcome =
    | Return(v: Value)
    | Raise(e: Exc)
    | RaiseGroup(excs: seq<Exc>)
    | RaiseCancelled(args: seq<Value>)

  /** Which child finished first. `WorkFinished(end)`: the work ended by
      itself, and its done callback cancels the watcher. `SignalFired(stored)`:
      `done` was set, the watcher returned, and its callback ran
      `coro_task.cancel(done._value)` with `stored` as `done._value`; the
      work honours the cancellation. A work that catches the cancellation and
      ends otherwise is `WorkFinished` with that ending. */
  datatype Race = WorkFinished(end: End) | SignalFired(stored: Value)

  /** SystemExit and KeyboardInterrupt: the task group re-raises these
      directly instead of wrapping them in a group. */
  predicate IsBaseError(e: Exc) {
    IsInstance(e, {"SystemExit", "KeyboardInterrupt"})
  }

  predicate AllExceptions(excs: seq<Exc>) {
    forall i | 0 <= i < |excs| :: IsException(excs[i])
  }

  /** The position of the first base error, if any. */
  function FirstBaseError(excs: seq<Exc>): (r: Option<nat>)
    ensures r.None? <==> forall i | 0 <= i < |excs| :: !IsBaseError(excs[i])
    ensures r.Some? ==> r.value < |excs| && IsBaseError(excs[r.value])
                        && forall i | 0 <= i < r.value :: !IsBaseError(excs[i])
  {
    if excs == [] then None
    else if IsBaseError(excs[0]) then Some(0)
    else match FirstBaseError(excs[1..])
         case None => None
         case Some(k) => Some(k + 1)
  }

  /** The arguments of the `CancelledError` raised by awaiting a task that
      was cancelled with message `msg` (no argument when the message is None). */
  function CancelArgs(msg: Value): (r: seq<Value>)
    ensures msg == PyNone <==> r == []
    ensures r != [] ==> r == [msg]
  {
    if msg == PyNone then [] else [msg]
  }

  /** `asyncio.TaskGroup.__aexit__`: the errors are the children's errors
      followed by the body's own exception when the body raised one that is
      not a cancellation. With no error the body's ending goes through (a
      cancellation of the body propagates); otherwise the first base error is
      raised as is, and failing that a group of all the errors. Cancelled
      children are not errors. */
  function TaskGroupExit(childErrors: seq<Exc>, body: End): (r: Outcome)
    ensures childErrors == [] && body.Returned? ==> r == Return(body.v)
    ensures childErrors == [] && body.Raised? && !IsBaseError(body.e) ==> r == RaiseGroup([body.e])
    ensures childErrors == [] && body.CancelledWith? ==> r == RaiseCancelled(body.args)
    ensures childErrors != [] ==> r.Raise? || r.RaiseGroup?
    ensures r.RaiseGroup? ==> r.excs != [] && r.excs == childErrors + (if body.Raised? then [body.e] else [])
                              && forall i | 0 <= i < |r.excs| :: !IsBaseError(r.excs[i])
    ensures r.Raise? ==> IsBaseError(r.e)
  {
    var errors := childErrors + (if body.Raised? then [body.e] else []);
    if errors == [] then
      (if body.Returned? then Return(body.v) else RaiseCancelled(body.args))
    else
      assert childErrors == [] && body.Raised? ==> errors == [body.e] && errors[0] == body.e;
      match FirstBaseError(errors)
      case Some(k) => Raise(errors[k])
      case None => RaiseGroup(errors)
  }

  /** `except ExceptionGroup as e: raise e.exceptions[0] from None`. A group
      whose members are all Exceptions is an ExceptionGroup; any other group
      is a BaseExceptionGroup and is not caught. */
  function ReduceGroup(o: Outcome): (r: Outcome)
    ensures o.RaiseGroup? && o.excs != [] && AllExceptions(o.excs) ==> r == Raise(o.excs[0])
    ensures !(o.RaiseGroup? && o.excs != [] && AllExceptions(o.excs)) ==> r == o
    ensures r.RaiseGroup? ==> r.excs == [] || !AllExceptions(r.excs)
    ensures r != o ==> o.RaiseGroup? && r.Raise? && r.e == o.excs[0] && IsException(r.e)
  {
    if o.RaiseGroup? && o.excs != [] && AllExceptions(o.excs) then Raise(o.excs[0]) else o
  }

  /** Nothing the reduction lets through would be caught by a second
      `except ExceptionGroup`: reducing twice is reducing once. */
  lemma ReduceGroupIdempotent(o: Outcome)
    ensures ReduceGroup(ReduceGroup(o)) == ReduceGroup(o)
  {
  }

  /** The message of the cancellation as the handler reads it back: both
      `e.args[0]` and `e.args[-1]` are the message given to `cancel(msg)`,
      so a stored Exception is seen first and a stored future last; a None
      message leaves no argument, and the handler sees an empty `e.args`. */
  lemma CancelArgsReadBack(msg: Value)
    ensures |CancelArgs(msg)| <= 1
    ensures msg != PyNone ==> CancelArgs(msg)[0] == msg && CancelArgs(msg)[|CancelArgs(msg)| - 1] == msg
    ensures msg == PyNone ==> OnCancelled(CancelArgs(msg), Returned(PyNone)) == CancelledWith([])
  {
  }

  /** The `except asyncio.CancelledError as e` handler around `await coro_task`:
      when the last argument is a future it is awaited first (`awaited` is how
      that future ends, and an exception from it escapes the handler); then an
      Exception instance as the first argument is raised in place of the
      cancellation; otherwise the cancellation is re-raised. */
  function OnCancelled(args: seq<Value>, awaited: End): (r: End)
    ensures args == [] ==> r == CancelledWith(args)
    ensures args != [] && !args[|args| - 1].PyFuture? && args[0].PyExc? && IsException(args[0].exc)
            ==> r == Raised(args[0].exc)
    ensures args != [] && args[|args| - 1].PyFuture? && !awaited.Returned? ==> r == awaited
    ensures r.Returned? ==> false
  {
    if args != [] && args[|args| - 1].PyFuture? && !awaited.Returned? then
      awaited
    else if args != [] && args[0].PyExc? && IsException(args[0].exc) then
      Raised(args[0].exc)
    else
      CancelledWith(args)
  }

  /** The errors the task group records from its children, and how the body
      of the `async with` ends, for each race. A work that raises makes the
      group record the error and cancel the waiting parent, so the body's
      `await coro_task` raises a bare `CancelledError`, which the handler
      re-raises and the group then absorbs. */
  function ChildErrors(race: Race): seq<Exc> {
    if race.WorkFinished? && race.end.Raised? then [race.end.e] else []
  }

  function BodyEnd(race: Race, awaited: End): End {
    match race
    case WorkFinished(Returned(v)) => Returned(v)
    case WorkFinished(Raised(_)) => CancelledWith([])
    case WorkFinished(CancelledWith(args)) => OnCancelled(args, awaited)
    case SignalFired(stored) => OnCancelled(CancelArgs(stored), awaited)
  }

  /** `wait_if_not_done(coro, done)`. */
  function WaitIfNotDone(race: Race, awaited: End): (r: Outcome)
    ensures race.WorkFinished? && race.end.Returned? ==> r == Return(race.end.v)
    ensures r.Return? ==> race.WorkFinished? && race.end.Returned?
  {
    ReduceGroup(TaskGroupExit(ChildErrors(race), BodyEnd(race, awaited)))
  }

  /** An ExceptionGroup formed at the group's exit is reduced to its first
      member: whenever the recorded errors are all Exceptions, the caller
      sees exactly the first of them. */
  lemma GroupReducedToFirst(childErrors: seq<Exc>, body: End)
    requires childErrors != [] || body.Raised?
    requires AllExceptions(childErrors) && (body.Raised? ==> IsException(body.e))
    requires forall i | 0 <= i < |childErrors| :: !IsBaseError(childErrors[i])
    requires body.Raised? ==> !IsBaseError(body.e)
    ensures ReduceGroup(TaskGroupExit(childErrors, body))
            == Raise(if childErrors != [] then childErrors[0] else body.e)
  {
    var errors := childErrors + (if body.Raised? then [body.e] else []);
    assert forall i | 0 <= i < |errors| :: !IsBaseError(errors[i]) && IsException(errors[i]);
    assert FirstBaseError(errors) == None;
  }

  /** A work that raises an Exception reaches the caller as that exception,
      not as a group; a base error also reaches it as itself. */
  lemma WorkRaisingIsReraised(e: Exc, awaited: End)
    requires IsException(e) || IsBaseError(e)
    ensures WaitIfNotDone(WorkFinished(Raised(e)), awaited) == Raise(e)
  {
    if !IsBaseError(e) {
      GroupReducedToFirst([e], CancelledWith([]));
    }
  }

  /** A cancellation whose first argument is an Exception re-raises that
      exception; this is how an exception stored in `done` replaces the
      work's result. */
  lemma ExceptionSignalIsRaised(e: Exc, awaited: End)
    requires IsException(e) && !IsBaseError(e)
    ensures WaitIfNotDone(SignalFired(PyExc(e)), awaited) == Raise(e)
  {
    GroupReducedToFirst([], Raised(e));
  }

  /** Any other signal value that is not a future propagates as a
      cancellation carrying `done._value`. */
  lemma PlainSignalCancels(stored: Value, awaited: End)
    requires !stored.PyFuture? && !(stored.PyExc? && IsException(stored.exc))
    ensures WaitIfNotDone(SignalFired(stored), awaited) == RaiseCancelled(CancelArgs(stored))
  {
  }

  /** A future as the signal value is awaited before anything else: if it
      fails, its exception (or cancellation) is what the caller sees;
      otherwise the cancellation propagates. */
  lemma FutureSignalIsAwaited(id: nat, awaited: End)
    requires awaited.Raised? ==> IsException(awaited.e) && !IsBaseError(awaited.e)
    ensures awaited.Returned? ==> WaitIfNotDone(SignalFired(PyFuture(id)), awaited) == RaiseCancelled([PyFuture(id)])
    ensures awaited.Raised? ==> WaitIfNotDone(SignalFired(PyFuture(id)), awaited) == Raise(awaited.e)
    ensures awaited.CancelledWith? ==> WaitIfNotDone(SignalFired(PyFuture(id)), awaited) == RaiseCancelled(awaited.args)
  {
    if awaited.Raised? {
      GroupReducedToFirst([], awaited);
    }
  }

  /** An exception group escapes `wait_if_not_done` only when some recorded
      error is neither an Exception nor a base error the group re-raises as
      is (a custom BaseException subclass, for instance). */
  lemma GroupEscapesOnlyForBaseExceptions(race: Race, awaited: End)
    ensures WaitIfNotDone(race, awaited).RaiseGroup? ==>
              var excs := WaitIfNotDone(race, awaited).excs;
              exists i | 0 <= i < |excs| :: !IsException(excs[i]) && !IsBaseError(excs[i])
  {
    var g := TaskGroupExit(ChildErrors(race), BodyEnd(race, awaited));
    if g.RaiseGroup? && WaitIfNotDone(race, awaited).RaiseGroup? {
      assert g.excs != [];
      assert !AllExceptions(g.excs);
    }
  }
}
