/** The failure path shared by the run handlers that create a run while a
    stream subscription is already being set up (`stream_run`,
    `stream_run_stateless`, `wait_run`, `wait_run_stateless`): when creating
    the run raises an Exception, the subscription is released before the
    exception is re-raised. The subscription task and the handle it returns
    are opaque; how they end is input. */
module RunsCreate {
  import opened Py

  /** How the subscription task `sub` stands when the handler looks at it:
      cancelled, or (once awaited) returning a handle or raising. */
  datatype Subscription = SubCancelled | SubReturns(handle: nat) | SubRaises(e: Exc)

  /** The observable steps of the cleanup. */
  datatype CleanupStep =
    | CheckCancelled        // `sub.cancelled()`
    | AwaitSub              // `handle = await sub`
    | ExitHandle(h: nat)    // `await handle.__aexit__(None, None, None)`

  /** How the `try` around `create_valid_run` ends: the handler goes on to
      build its response from the run, or an exception leaves the handler
      and no response is produced. */
  datatype Verdict = Respond(run: nat) | Propagate(e: Exc)

  /** The `try: ... create_valid_run(...) ... except Exception:` block.
      `created` is how the creation ends; `exitError` is what the handle's
      `__aexit__` raises, if anything. */
  function CreateGuard(created: Result<nat, Exc>, sub: Subscription, exitError: Option<Exc>)
    : (r: (seq<CleanupStep>, Verdict))
    ensures created.Ok? ==> r == ([], Respond(created.value))
    ensures created.Err? ==> r.1.Propagate?
    ensures created.Err? && !IsException(created.error) ==> r == ([], Propagate(created.error))
    ensures created.Err? && IsException(created.error) ==> |r.0| >= 1 && r.0[0] == CheckCancelled
  {
    match created
    case Ok(run) => ([], Respond(run))
    case Err(e) =>
      if !IsException(e) then ([], Propagate(e))
      else
        match sub
        case SubCancelled => ([CheckCancelled], Propagate(e))
        case SubRaises(e2) => ([CheckCancelled, AwaitSub], Propagate(e2))
        case SubReturns(h) =>
          ([CheckCancelled, AwaitSub, ExitHandle(h)],
           if exitError.Some? then Propagate(exitError.value) else Propagate(e))
  }

  /** The path the handlers are written for: a creation error is re-raised
      unchanged after the subscription's handle has been awaited and exited,
      in that order. */
  lemma ReleaseThenReraise(e: Exc, h: nat)
    requires IsException(e)
    ensures CreateGuard(Err(e), SubReturns(h), None)
            == ([CheckCancelled, AwaitSub, ExitHandle(h)], Propagate(e))
  {
  }

  /** The handle is exited iff the creation raised an Exception and the
      subscription was neither cancelled nor failed; a cancelled subscription
      is not awaited at all. */
  lemma HandleExitedIff(created: Result<nat, Exc>, sub: Subscription, exitError: Option<Exc>)
    ensures var steps := CreateGuard(created, sub, exitError).0;
            (exists i | 0 <= i < |steps| :: steps[i].ExitHandle?)
            <==> (created.Err? && IsException(created.error) && sub.SubReturns?)
    ensures var steps := CreateGuard(created, sub, exitError).0;
            sub.SubCancelled? ==> forall i | 0 <= i < |steps| :: steps[i] != AwaitSub
  {
    var steps := CreateGuard(created, sub, exitError).0;
    if created.Err? && IsException(created.error) && sub.SubReturns? {
      assert steps[2].ExitHandle?;
    }
  }

  /** The original exception is replaced only by an exception from the
      cleanup itself: the subscription's own failure, or the handle's exit. */
  lemma ReplacedOnlyByCleanupErrors(e: Exc, sub: Subscription, exitError: Option<Exc>)
    requires IsException(e)
    ensures var v := CreateGuard(Err(e), sub, exitError).1;
            v.e == e || (sub.SubRaises? && v.e == sub.e) || (exitError.Some? && v.e == exitError.value)
    ensures !sub.SubRaises? && exitError.None? ==> CreateGuard(Err(e), sub, exitError).1 == Propagate(e)
  {
  }
}
