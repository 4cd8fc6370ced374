# A Dafny model of the LangGraph API server's orchestration core

This project models the deterministic logic of three files of the
LangGraph API server and proves properties about it:

- `langgraph_api/asyncio.py`. It holds `ValueEvent` (an asyncio event whose
  `set` carries a value), the process-wide `PENDING_TASKS` registry with
  `create_task`, and `SimpleTaskGroup`. It also holds the outcome reduction
  of `wait_if_not_done`, plus `to_aiter`, `aclosing` and `aclosing_aiter`.
- `langgraph_api/api/runs.py`. The parts modelled are:
  - the `consume` folds of the two "wait" handlers, and their keep-alive
    `body`;
  - the cleanup that runs when creating a run fails while its stream
    subscription is being set up;
  - the query and payload flags of the cancel, join-stream and streaming
    handlers;
  - the feature-gated `runs_routes` table.
- `langgraph_api/api/__init__.py`. The parts modelled are the `meta_routes`
  table, the selection of `protected_routes` by `HTTP_CONFIG`,
  `load_custom_app` with its environment-variable bracket, and the
  `check_db` handling of `/ok`.

Scheduling is represented by abstract events, never by time:
- a task finishes with a given outcome;
- a wait times out;
- the body is cancelled;
- the first side of a race finishes.

What the surrounding system supplies is an input to the model: the run
stream, the subscription task, the modules an import finds, and which
paths are files.

The modules follow the source:

- `Py`: Python values, truthiness, exception instances known by their
  class's method resolution order, `isinstance`, `str.lower` on ASCII.
- `ValueEvents`: the event as pure step functions on its state
  (`_value`, `_waiters`), with properties of arbitrary operation
  sequences. It also has the class `ValueEvent`, whose methods update the
  fields in place and are proved equal to the step functions.
- `Tasks`: the classes `TaskRegistry` (`PENDING_TASKS`) and
  `SimpleTaskGroup`.
- `RaceWait`: `wait_if_not_done` as a function of the race's result,
  including the exit rules of `asyncio.TaskGroup` it relies on.
- `AsyncIter`: an async iterator as a class, plus `to_aiter`, `aclosing`
  and `aclosing_aiter`.
- `RunsWait`, `RunsCreate`, `RunsParams`, `RunsRoutes` (with the generic
  `Routing`): the run handlers.
- `Api`: the application's route assembly, app loading and `/ok`.

Behaviour of the code worth knowing:

- `ValueEvent.set`'s docstring (`langgraph_api/asyncio.py:23-25`) says it
  sets the flag to true, so that later `wait()` calls do not block. The
  flag is in fact the truthiness of the stored value (lines 27 and 41). A
  falsy value, such as None or an empty bytes chunk, is stored and wakes
  the current waiters, but it does not latch. A later `wait()` suspends
  again, and a later `set` still takes effect. In the "wait" handlers, a
  stream with no values chunk and no error chunk makes the consumer set
  None, and so does a last values chunk that is empty (it sets `b""`). A
  body suspended in `wait()` at that moment wakes and yields that value as
  its payload. If the `set` lands while the body is emitting a keep-alive,
  nothing latches, and the body keeps sending keep-alives. A consume that
  fails never reaches `set`. The stateful consume lets its exception end
  its task (`langgraph_api/api/runs.py:187-197`). The stateless one logs
  and swallows it (lines 257-275). Either way the body keeps sending
  keep-alives until it is cancelled.
- The cancel handler reads `wait` with the default `False` and calls
  `.lower()` on it (`langgraph_api/api/runs.py:400-401`). A request
  without `wait` therefore fails with AttributeError.
- After a failed creation, the guard releases the subscription and then
  re-raises with a bare `raise` (`langgraph_api/api/runs.py:99-103`). If
  awaiting the subscription or exiting its handle raises, that exception
  replaces the original. A BaseException that is not an Exception (a
  cancellation, say) skips the cleanup altogether.
- `wait_if_not_done` (`langgraph_api/asyncio.py:52-74`) catches only
  `ExceptionGroup` and raises its first member. The task group re-raises
  SystemExit and KeyboardInterrupt as themselves. A group holding any
  other BaseException escapes unreduced.

## Model

| member | source | states |
|---|---|---|
| ValueEvents.ValueEvent.constructor | langgraph_api/asyncio.py:21 | a new event holds the falsy `False` and has no waiters |
| ValueEvents.ValueEvent.Set | langgraph_api/asyncio.py:22-32 | with a truthy stored value nothing changes; otherwise `v` is stored (default `True`), every pending waiter is resolved with exactly `v`, done waiters are untouched, and the order and number of waiters are kept |
| ValueEvents.ValueEvent.BeginWait | langgraph_api/asyncio.py:41-45 | a truthy stored value is returned at once with the waiters unchanged; otherwise exactly one fresh pending waiter is appended and the caller suspends on it |
| ValueEvents.ValueEvent.CancelWaiter | langgraph_api/asyncio.py:46-47 | cancelling the suspended task makes its wait end with CancelledError, whether its future was pending or already resolved, and changes no other waiter |
| ValueEvents.CancelAfterSetStillCancels | langgraph_api/asyncio.py:44-49 | a cancellation that reaches the waiting task after `set(v)` resolved its future still wins: the wait raises CancelledError, not `v`, and its `finally` removes the future |
| ValueEvents.ValueEvent.FinishWait | langgraph_api/asyncio.py:46-49 | a resumed wait removes exactly its own future (one waiter fewer) and returns the future's value or raises its cancellation |
| ValueEvents.StoredValueAfterRun | langgraph_api/asyncio.py:27-28 | after any sequence of set, wait, cancel and resume operations the stored value is the reference value: it keeps a truthy initial value, else takes the first truthy argument of `set`, else the last falsy one |
| ValueEvents.LatchIsPermanent | langgraph_api/asyncio.py:41-42 | once a truthy value is stored, no sequence of operations changes it and every later `wait()` returns it without suspending |
| ValueEvents.LaterSetIsNoOp | langgraph_api/asyncio.py:27 | after `set(v)` with `v` truthy, `set(w)` leaves the whole state, stored value and waiter results alike, unchanged |
| ValueEvents.SetResolvesPendingWaiters | langgraph_api/asyncio.py:30-32 | `set(v)` on an unlatched event resolves each pending waiter with exactly `v`, keeps its identity and position, and leaves done waiters as they were |
| ValueEvents.SuspendedWaiterWakesWithValue | langgraph_api/asyncio.py:44-49 | a `wait()` suspended before `set(v)` wakes with exactly `v`, and its `finally` leaves the other waiters as `set` made them |
| ValueEvents.WaitRegistersThenRemoves | langgraph_api/asyncio.py:44-49 | a suspending `wait()` adds one pending waiter; when it is cancelled, its resumption removes exactly that waiter and raises the cancellation |
| ValueEvents.FalsySetDoesNotLatch | langgraph_api/asyncio.py:27-41 | after `set` with a falsy value on an unlatched event, the next `wait()` still suspends |
| ValueEvents.NoSetNoWake | langgraph_api/asyncio.py:30-32 | without a `set`, no waiter is ever resolved with a value |
| ValueEvents.StepPreservesWellFormed | langgraph_api/asyncio.py:44-49 | every operation keeps the waiters' future identities distinct and fresh |
| Tasks.IgnoreSetsCompose | langgraph_api/asyncio.py:82-87 | a task is logged under the union of two `ignore_exceptions` sets iff it is logged under each, so ignoring more classes never logs more; with nothing ignored a task is logged iff it raised, never when it completed or was cancelled |
| Tasks.TaskRegistry.constructor | langgraph_api/asyncio.py:75 | `PENDING_TASKS` starts empty |
| Tasks.TaskRegistry.CreateTask | langgraph_api/asyncio.py:90-97 | a fresh task is started and added to `PENDING_TASKS`, which stays exactly the started tasks that have not finished; its done callback is bound to `ignore_exceptions` |
| Tasks.TaskRegistry.OnDone | langgraph_api/asyncio.py:78-87 | the done callback removes the task from `PENDING_TASKS` and appends one failure entry iff the task is reported |
| Tasks.SimpleTaskGroup.constructor | langgraph_api/asyncio.py:109-116 | defaults `cancel=False, wait=True`; each initial coroutine is started as a member, in order, with no ignored exceptions |
| Tasks.SimpleTaskGroup.CreateTask | langgraph_api/asyncio.py:132-143 | before exit a fresh task becomes a member; after exit the task is still started but `create_task` raises AttributeError and the task is never tracked |
| Tasks.SimpleTaskGroup.OnDone | langgraph_api/asyncio.py:118-130 | a finished member leaves the member set; after exit the missing set is tolerated; one failure is logged iff the task is reported |
| Tasks.SimpleTaskGroup.CancelMembers | langgraph_api/asyncio.py:150-152 | `cancel()` is requested on exactly the detached members |
| Tasks.SimpleTaskGroup.AwaitMembers | langgraph_api/asyncio.py:154-155 | every detached member finishes, and the new log entries are exactly its reported failures |
| Tasks.SimpleTaskGroup.Exit | langgraph_api/asyncio.py:145-155 | the member set is detached, members are cancelled iff `cancel` and awaited iff `wait`; outcomes are collected, never raised; a second exit raises AttributeError and changes nothing |
| RaceWait.CancelArgsReadBack | langgraph_api/asyncio.py:59-70 | the cancellation made by `cancel(done._value)` has at most one argument, so the handler's `e.args[0]` and `e.args[-1]` both read back the stored value; a None value leaves `e.args` empty and the cancellation is re-raised |
| RaceWait.TaskGroupExit | langgraph_api/asyncio.py:55-61 | with no error at all the body's return or cancellation goes through; otherwise the errors are the children's followed by the body's own exception; a SystemExit or KeyboardInterrupt among them is raised as is, and otherwise a group of all of them is raised |
| RaceWait.OnCancelled | langgraph_api/asyncio.py:62-70 | a future as last argument is awaited first and its failure escapes; else an Exception as first argument is raised instead; else the cancellation is re-raised |
| RaceWait.ReduceGroup | langgraph_api/asyncio.py:71-72 | what leaves is never a non-empty group made only of Exceptions; an outcome is changed only by replacing such a group with its first member, an Exception |
| RaceWait.ReduceGroupIdempotent | langgraph_api/asyncio.py:71-72 | reducing twice is reducing once: nothing the reduction lets through would be caught by a second `except ExceptionGroup` |
| RaceWait.WaitIfNotDone | langgraph_api/asyncio.py:52-72 | a value is returned iff the work finished first and returned, and then it is the work's value |
| RaceWait.GroupReducedToFirst | langgraph_api/asyncio.py:71-72 | when all recorded errors are Exceptions, the caller sees exactly the first of them |
| RaceWait.WorkRaisingIsReraised | langgraph_api/asyncio.py:55-72 | a work that raises an Exception (or a base error) reaches the caller as that very exception, not wrapped |
| RaceWait.ExceptionSignalIsRaised | langgraph_api/asyncio.py:68-69 | an Exception stored in `done` is raised in place of the cancellation |
| RaceWait.PlainSignalCancels | langgraph_api/asyncio.py:59-70 | any other non-future signal value propagates as a cancellation carrying `done._value` |
| RaceWait.FutureSignalIsAwaited | langgraph_api/asyncio.py:63-67 | a future as signal value is awaited; its failure is what the caller sees, otherwise the cancellation propagates |
| RaceWait.GroupEscapesOnlyForBaseExceptions | langgraph_api/asyncio.py:71-72 | a group reaches the caller only when some recorded error is a BaseException other than SystemExit and KeyboardInterrupt |
| AsyncIter.ToAiter | langgraph_api/asyncio.py:158-163 | the generator will yield exactly the arguments, in order, and then stop without error |
| AsyncIter.ToAiterYieldsArgs | langgraph_api/asyncio.py:158-163 | iterating `to_aiter(*args)` to its end yields `args` and no error |
| AsyncIter.AClosing.constructor | langgraph_api/asyncio.py:188-189 | the wrapper holds `thing` |
| AsyncIter.AClosing.Enter | langgraph_api/asyncio.py:191-192 | entering gives back `thing` itself |
| AsyncIter.AClosing.Exit | langgraph_api/asyncio.py:194-195 | leaving awaits `thing.aclose()`: the iterator is closed and finished |
| AsyncIter.Pull | langgraph_api/asyncio.py:201-202 | one round of `async for` appends the next item and goes on, or stops with the iterator's pending failure |
| AsyncIter.Drain | langgraph_api/asyncio.py:201-202 | `async for` to the end yields exactly the remaining items and ends with exactly the iterator's pending failure |
| AsyncIter.AclosingAiter | langgraph_api/asyncio.py:198-206 | the items are re-yielded in order with the same failure; the iterator is released by its own `__aexit__` when it has `__aenter__`, by `aclose()` otherwise, also when iteration fails |
| RunsWait.ErrorEnvelope | langgraph_api/api/runs.py:196 | the envelope is `{"__error__":`, then the chunk verbatim, then `}` |
| RunsWait.OpenEnvelope | langgraph_api/api/runs.py:196 | the inverse of the envelope: it returns the chunk of an envelope, and None exactly for bytes that are no envelope |
| RunsWait.EnvelopeRoundTrip | langgraph_api/api/runs.py:196 | opening the envelope of a chunk gives back the chunk |
| RunsWait.EnvelopeInjective | langgraph_api/api/runs.py:196 | different error chunks give different envelopes |
| RunsWait.KeptIsLastRelevant | langgraph_api/api/runs.py:192-196 | the fold is None iff no chunk has mode `values` or `error`; otherwise it is the contribution of the last such chunk (values as is, errors wrapped) |
| RunsWait.IrrelevantSuffixIgnored | langgraph_api/api/runs.py:192-196 | chunks of other modes after the last relevant one do not change the result |
| RunsWait.FoldStep | langgraph_api/api/runs.py:192-196 | one loop round folds the next chunk into `vchunk`, or ends the loop with the stream's failure |
| RunsWait.Fold | langgraph_api/api/runs.py:186-196 | the loop drains the stream and returns the reference fold of all its chunks, with the stream's failure |
| RunsWait.ConsumeStateful | langgraph_api/api/runs.py:185-197 | on a clean stream `last_chunk.set` is called once with the fold (None when nothing was relevant); on a failure it is never called and the failure propagates; the stream is closed either way |
| RunsWait.ConsumeStateless | langgraph_api/api/runs.py:257-275 | as the stateful consume, but a failure that is an Exception is swallowed and leaves `last_chunk` unset; only other BaseExceptions escape |
| RunsWait.ConsumePublishesKept | langgraph_api/api/runs.py:197 | whatever the fold keeps, `b""` included, is what a fresh event then holds; a stream with no relevant chunk, or an empty last values chunk, leaves the event unlatched |
| RunsWait.NoRelevantChunkOutcomes | langgraph_api/api/runs.py:185-206 | a stream with no values and no error chunk makes the consumer set None; a body suspended in `wait()` then wakes with None, while a `set` that lands between two waits latches nothing and the next wait suspends again |
| RunsWait.HeartbeatBody | langgraph_api/api/runs.py:201-212 | the consumer is started and one `b"\n"` is emitted per leading timeout. Then exactly one payload is delivered, or the consumer is cancelled and awaited. In the second case, what leaves the body is the consumer's own exception if it had failed, its cancellation if the cancel took effect, and the body's re-raised cancellation if it had returned. The same loop is at api/runs.py:277-293 |
| RunsWait.DeliveredIsLast | langgraph_api/api/runs.py:205-206 | the payload is the last chunk emitted and every chunk before it is a keep-alive |
| RunsWait.CancelledBodyStopsConsumer | langgraph_api/api/runs.py:209-212 | after nothing but keep-alives, a cancelled body cancels the consumer and awaits it. The bare `raise` follows iff the consumer had returned; a failed consumer's exception is what leaves the body, and otherwise a cancellation leaves |
| RunsCreate.CreateGuard | langgraph_api/api/runs.py:90-103 | a successful creation touches nothing; a non-Exception propagates with no cleanup; an Exception first checks `sub.cancelled()`, and no response is produced |
| RunsCreate.ReleaseThenReraise | langgraph_api/api/runs.py:99-103 | when releasing succeeds, the handle is awaited and exited in that order and the original exception is re-raised unchanged |
| RunsCreate.HandleExitedIff | langgraph_api/api/runs.py:99-103 | the handle is exited iff creation raised an Exception and the subscription returned a handle; a cancelled subscription is never awaited |
| RunsCreate.ReplacedOnlyByCleanupErrors | langgraph_api/api/runs.py:99-103 | the exception that leaves is the original unless the cleanup itself raised |
| RunsParams.TrueFlagIgnoresCase | langgraph_api/api/runs.py:379 | a flag is true iff it spells `true`, `yes` or `1` in any letter case |
| RunsParams.WaitFlag | langgraph_api/api/runs.py:400-401 | an absent `wait` raises AttributeError; a given one is true iff its lower case is `true`, `yes` or `1` |
| RunsParams.CancelAction | langgraph_api/api/runs.py:402-403 | the action is the given one iff it is exactly `interrupt` or `rollback`, else `interrupt` |
| RunsParams.CancelRun | langgraph_api/api/runs.py:400-417 | the run is cancelled with that action and joined iff `wait`; the status is 204 iff `wait` and 202 otherwise; an absent `wait` fails before anything |
| RunsParams.CancelOnDisconnect | langgraph_api/api/runs.py:378-379 | false when absent; otherwise true iff its lower case is `true`, `yes` or `1` |
| RunsParams.StreamCancelsOnDisconnect | langgraph_api/api/runs.py:86-109 | the stream cancels on disconnect iff `on_disconnect` is exactly `cancel`; the default `continue` does not |
| RunsParams.FlagExamples | langgraph_api/api/runs.py:401 | `TRUE`, `Yes` and `1` are true; `false`, `on` and the empty string are not |
| RunsParams.CancelRunExamples | langgraph_api/api/runs.py:400-417 | `wait=True` joins with 204; `action=Rollback` is not recognised and becomes `interrupt` |
| Routing.FilterNone | langgraph_api/api/runs.py:549 | the result holds exactly the present entries' routes and is no longer than the table |
| Routing.FilterNoneAppend | langgraph_api/api/runs.py:549 | filtering distributes over concatenation, so the order of kept entries is preserved |
| Routing.FilterNoneAllPresent | langgraph_api/api/runs.py:549 | a table without None comes through unchanged |
| RunsRoutes.Declared | langgraph_api/api/runs.py:507-547 | the declared table has seventeen entries |
| RunsRoutes.RunsRoutesShape | langgraph_api/api/runs.py:507-549 | the final table is the always-present routes in declared order, with each cron route in its declared place iff `FF_CRONS_ENABLED and plus_features_enabled()` |
| RunsRoutes.CronsEnabled | langgraph_api/api/runs.py:512-546 | with crons enabled all seventeen routes are served, in declared order |
| RunsRoutes.CronsDisabled | langgraph_api/api/runs.py:507-549 | otherwise exactly the thirteen other routes remain, no cron endpoint among them, and the table is the full one with the cron routes removed |
| Api.MetaRoutes | langgraph_api/api/__init__.py:51-57 | the paths are `/ok`, `/openapi.json`, `/docs`, `/info`, `/metrics` in that order, all GET |
| Api.KeptGroups | langgraph_api/api/__init__.py:64-88 | a falsy config keeps all four groups; a truthy one keeps each group iff its `disable_*` key is absent or falsy |
| Api.ProtectedRoutes | langgraph_api/api/__init__.py:61-88 | the routes are the kept groups concatenated in the order assistants, runs, threads, store |
| Api.FalsyConfigMountsAll | langgraph_api/api/__init__.py:83-88 | with no config or an empty one the routes are assistants, runs, threads and store, concatenated |
| Api.TruthyConfigSelects | langgraph_api/api/__init__.py:64-81 | with a config, each group appears in its place iff not disabled; a config disabling nothing mounts all four |
| Api.LastColon | langgraph_api/api/__init__.py:97 | the position of the last `:` in the string, or None iff there is none |
| Api.SplitAppImport | langgraph_api/api/__init__.py:97 | a string without `:` raises ValueError; otherwise path, `:` and name rebuild the string and the name has no `:` |
| Api.SplitJoinRoundTrip | langgraph_api/api/__init__.py:97 | splitting `path:name` gives back `(path, name)` whenever the name has no colon, even when the path has colons |
| Api.LoadedApp | langgraph_api/api/__init__.py:102-124 | the load succeeds iff the module loads, has the attribute, and the attribute is a Starlette app, which is then the result |
| Api.LoadErrorsClassified | langgraph_api/api/__init__.py:104-124 | a missing spec and an ImportError become "Failed to import app module"; a missing attribute becomes "App not found"; a non-app becomes TypeError; other exceptions propagate unchanged |
| Api.Environ.constructor | langgraph_api/api/__init__.py:100 | the environment holds the given variables |
| Api.Environ.Set | langgraph_api/api/__init__.py:100 | assignment sets exactly one variable |
| Api.Environ.Pop | langgraph_api/api/__init__.py:126 | `pop(key, None)` removes the key, present or not, and nothing else |
| Api.LoadCustomApp | langgraph_api/api/__init__.py:95-128 | the loading code runs with the deferral variable set to `true`; afterwards it is removed whichever way loading ended; a malformed import string fails before the environment is touched |
| Api.ParseInt | langgraph_api/api/__init__.py:27 | `int()` accepts only strings that are non-empty after stripping and hold at most 4300 digits, the default of `sys.get_int_max_str_digits()` |
| Api.ParseShowRoundTrip | langgraph_api/api/__init__.py:27 | `int(str(i)) == i` for every integer of at most 4300 digits |
| Api.ParseZero | langgraph_api/api/__init__.py:27 | the default `"0"` parses to 0 |
| Api.OkEndpoint | langgraph_api/api/__init__.py:26-39 | `check_db` defaults to `"0"`; a value `int()` rejects raises ValueError; the database is checked iff the value is nonzero, the JS workers iff there are JS background tasks |
| Api.OkChecksDatabaseIffNonzero | langgraph_api/api/__init__.py:27-31 | for every integer `i` of at most 4300 digits, `check_db=i` checks the database iff `i != 0`; no parameter means no check |
| Api.OverlongCheckDbRejected | langgraph_api/api/__init__.py:27 | a `check_db` of more than 4300 digits makes `int()` raise ValueError, so `/ok` fails instead of checking the database |

## Left out

- Real asyncio scheduling is not modelled. This covers the timers, the `wait_for(..., timeout=5)` race, the done-callback wiring inside `wait_if_not_done`, and `sleep_if_not_done`. All of these are concurrency only. Timeouts, cancellations, completions and which side of a race finishes first are inputs.
- `asyncio.TaskGroup` itself is not in these files. `RaceWait.TaskGroupExit` states the exit rules of asyncio.TaskGroup that `wait_if_not_done` relies on.
- Persistence and storage are not part of this model: `connect`, `create_valid_run`, `Runs.*`, `Threads.*`, `Crons.*`, `fetchone`, `retry_db`, and the pipelined batch create. This also covers the handlers that only call them: create, batch create, list, get, join, delete, and the four cron handlers.
- `Runs.Stream.subscribe` and `Runs.Stream.join` are not part of this model. The subscription, its handle and the stream are opaque inputs.
- Starlette and SSE response objects, headers, `uuid6`, `validate_uuid` and orjson are left out. For orjson, only the byte shape of the error envelope is modelled.
- Logging is left out. So are importlib's loading, `os.path.isfile` (the set of file paths is an input), and `asyncio.to_thread` in `openapi`. The bodies of `openapi` and `docs` are left out too.
- The healthcheck calls of `/ok` are records of which checks run; their own failures are not modelled.
- The module-level app and router set-up from line 130 of `langgraph_api/api/__init__.py` on is not part of this model.
- `langgraph_api/lifespan.py` is process start-up and shutdown of external services and is not part of this model. Its one use of `SimpleTaskGroup(cancel=True)` is covered by the task-group model.
- `plus_features_enabled()` is given as one boolean. The model assumes the four gated entries see the same value.
- A query string is a map, holding the last value of a repeated parameter.
- `Py.Lower` lower-cases ASCII letters only, because Unicode case mapping is not modelled.
- `Api.ParseInt` accepts ASCII digits only and strips only the ASCII whitespace `int()` strips (space, tab, line feed, vertical tab, form feed, carriage return and the separators 0x1C to 0x1F), because Unicode digits and spaces are not modelled. The digit limit is taken at its default of 4300. A limit changed through `sys.set_int_max_str_digits` is not modelled.
- `AsyncIter.AclosingAiter` is drained to the end by its consumer. A consumer that stops early, which closes the generator, is not modelled. Of an iterator that is a context manager, `__aenter__` and `__aexit__` are taken only to close it.
- `RunsWait.ConsumeStateful` assumes `await sub` and `Runs.Stream.join` succeed. A failure there, before the loop starts, is not modelled.
- `RunsWait.ConsumeStateless` has the same restriction: a failure of `await sub` or `join` before the loop is not modelled.
- A client that disconnects while the body is suspended at a `yield` closes the generator, which raises GeneratorExit at that `yield`. `except asyncio.CancelledError` does not catch it, so the cleanup at `langgraph_api/api/runs.py:209-212` does not run and the consumer is never cancelled. The body model has no event for this.
- `RunsWait.HeartbeatBody` is driven by a finite list of wait results. A body that never stops shows up as ending in `StillWaiting` after the given events. How the consumer ends once it is cancelled is an input: the model does not derive it from the timing of the consumer's run.
- `RunsCreate.CreateGuard` leaves out errors raised by leaving `async with connect()`. It also leaves out the response that is built after a successful creation.
- `Tasks.SimpleTaskGroup.Exit` takes each member's outcome as an input. The model does not tie an outcome to whether `cancel()` was requested.
- `ValueEvents.ValueEvent.FinishWait` is called only for a future that is done, because the scheduler resumes a task only then.
- Api.ParseInt: its own contract states only that an accepted string is non-empty once stripped and within the digit limit. What `int()` accepts is pinned down by `Api.ParseShowRoundTrip`, `Api.OverlongCheckDbRejected` and `Api.ParseZero`. Signs, digit groups separated by single underscores, and surrounding whitespace are in its definition, but no lemma characterises all the rejected strings.
