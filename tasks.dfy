/** Supervised background tasks: the process-wide `PENDING_TASKS` registry
    with `create_task`, and `SimpleTaskGroup`. Tasks are abstract identities;
    the scheduler's completion of a task is an event carrying its outcome. */
module Tasks {
  import opened Py

  type TaskId = nat

  /** The coroutine a task runs, known only by its identity. */
  datatype Coro = Coro(name: string)

  /** How a task ended. */
  datatype TaskOutcome = Completed(result: Value) | Raised(exc: Exc) | Cancelled

  /** A started task: its coroutine and the exception classes its done
      callback ignores. */
  datatype Spawn = Spawn(coro: Coro, ignore: set<string>)

  /** A "Background task failed" log entry. */
  datatype Failure = Failure(task: TaskId, exc: Exc)

  /** Whether the done callback logs the task as failed: `task.exception()`
      raises CancelledError for a cancelled task (swallowed), is None for a
      completed one, and an exception is logged unless it is an instance of
      one of `ignore_exceptions`. */
  predicate Reported(o: TaskOutcome, ignore: set<string>) {
    o.Raised? && !IsInstance(o.exc, ignore)
  }

  function NewFailures(t: TaskId, o: TaskOutcome, ignore: set<string>): seq<Failure> {
    if Reported(o, ignore) then [Failure(t, o.exc)] else []
  }

  /** How `ignore_exceptions` filters the log: a task is logged under the
      union of two ignore sets iff it is logged under each of them, so
      ignoring more classes never logs more; and with nothing ignored, a
      task is logged iff it raised, never when it completed or was
      cancelled. */
  lemma IgnoreSetsCompose(o: TaskOutcome, a: set<string>, b: set<string>)
    ensures Reported(o, a + b) <==> Reported(o, a) && Reported(o, b)
    ensures a <= b && Reported(o, b) ==> Reported(o, a)
    ensures Reported(o, {}) <==> o.Raised?
  {
  }

  /** The identities `0 .. n-1`. */
  function FirstIds(n: nat): (r: set<TaskId>)
    ensures forall t: TaskId :: t in r <==> t < n
  {
    if n == 0 then {} else FirstIds(n - 1) + {n - 1}
  }

  predicate FailuresDistinct(log: seq<Failure>) {
    forall i, j | 0 <= i < j < |log| :: log[i].task != log[j].task
  }

  /** The module-level `PENDING_TASKS` set together with `create_task` and
      its done callback. */
  class TaskRegistry {
    var pending: set<TaskId>
    /** Every task started so far, with its coroutine and the
        `ignore_exceptions` bound into its done callback. */
    var spawned: map<TaskId, Spawn>
    var failures: seq<Failure>
    /** Supply of fresh task identities (`asyncio.create_task` makes a new object). */
    var nextId: TaskId
    ghost var finished: set<TaskId>

    ghost predicate Valid()
      reads this
    {
      && pending == spawned.Keys - finished
      && finished <= spawned.Keys
      && (forall t | t in spawned :: t < nextId)
      && (forall i | 0 <= i < |failures| :: failures[i].task in finished)
      && FailuresDistinct(failures)
    }

    constructor ()
      ensures Valid() && pending == {} && failures == [] && spawned == map[]
    {
      pending, spawned, failures, nextId := {}, map[], [], 0;
      finished := {};
    }

    /** `create_task(coro, ignore_exceptions=())` */
    method CreateTask(coro: Coro, ignore: set<string> := {}) returns (t: TaskId)
      requires Valid()
      modifies this`nextId, this`pending, this`spawned
      ensures Valid()
      ensures t !in old(spawned)
      ensures pending == old(pending) + {t}
      ensures spawned == old(spawned)[t := Spawn(coro, ignore)]
    {
      t := nextId;
      nextId := nextId + 1;
      pending := pending + {t};
      spawned := spawned[t := Spawn(coro, ignore)];
    }

    /** `_create_task_done_callback`, run once when task `t` ends with `outcome`. */
    method OnDone(t: TaskId, outcome: TaskOutcome)
      requires Valid() && t in pending
      modifies this`pending, this`finished, this`failures
      ensures Valid()
      ensures pending == old(pending) - {t}
      ensures finished == old(finished) + {t}
      ensures failures == old(failures) + NewFailures(t, outcome, spawned[t].ignore)
    {
      pending := pending - {t};
      finished := finished + {t};
      if Reported(outcome, spawned[t].ignore) {
        failures := failures + [Failure(t, outcome.exc)];
      }
    }
  }

  /** The members a group's exit cancelled and awaited, and the outcomes it
      collected from the awaited ones (`gather(..., return_exceptions=True)`). */
  datatype ExitReport = ExitReport(cancelled: set<TaskId>, awaited: set<TaskId>,
                                   collected: map<TaskId, TaskOutcome>)

  const NO_TASKS_ATTRIBUTE: Exc :=
    Builtin("AttributeError", "'SimpleTaskGroup' object has no attribute 'tasks'")

  /** `SimpleTaskGroup`: a member set with `cancel`/`wait` exit policy whose
      enter and exit may run in different tasks. */
  class SimpleTaskGroup {
    /** `self.tasks`; None once `__aexit__` has deleted the attribute. */
    var tasks: Option<set<TaskId>>
    var cancel: bool
    var wait: bool
    var spawned: map<TaskId, Spawn>
    var failures: seq<Failure>
    /** Members on which `task.cancel()` was called. */
    var cancelRequested: set<TaskId>
    var nextId: TaskId
    ghost var finished: set<TaskId>
    /** Tasks started by `create_task` after exit: running, but neither
        members nor given a done callback. */
    ghost var untracked: set<TaskId>

    ghost predicate Valid()
      reads this
    {
      && finished <= spawned.Keys && untracked <= spawned.Keys && finished !! untracked
      && (forall t | t in spawned :: t < nextId)
      && (tasks.Some? ==> tasks.value == spawned.Keys - finished && untracked == {})
      && cancelRequested <= spawned.Keys
      && (forall i | 0 <= i < |failures| :: failures[i].task in finished)
      && FailuresDistinct(failures)
    }

    /** `SimpleTaskGroup(*coros, cancel=False, wait=True)` */
    constructor (coros: seq<Coro>, cancel: bool := false, wait: bool := true)
      ensures Valid()
      ensures this.cancel == cancel && this.wait == wait
      ensures tasks == Some(FirstIds(|coros|))
      ensures forall i | 0 <= i < |coros| :: i in spawned && spawned[i] == Spawn(coros[i], {})
      ensures failures == [] && cancelRequested == {} && finished == {}
    {
      tasks := Some({});
      this.cancel := cancel;
      this.wait := wait;
      spawned, failures, cancelRequested, nextId := map[], [], {}, 0;
      finished, untracked := {}, {};
      new;
      var i := 0;
      while i < |coros|
        invariant 0 <= i <= |coros|
        invariant Valid() && nextId == i
        invariant tasks == Some(FirstIds(i)) && spawned.Keys == FirstIds(i)
        invariant forall j | 0 <= j < i :: spawned[j] == Spawn(coros[j], {})
        invariant this.cancel == cancel && this.wait == wait
        invariant failures == [] && cancelRequested == {} && finished == {}
      {
        var r := CreateTask(coros[i]);
        i := i + 1;
      }
    }

    /** `create_task(coro, ignore_exceptions=())`: after exit the task is
        still started, but adding it to the deleted `tasks` raises
        AttributeError. */
    method CreateTask(coro: Coro, ignore: set<string> := {}) returns (r: Result<TaskId, Exc>)
      requires Valid()
      modifies this`nextId, this`spawned, this`tasks, this`untracked
      ensures Valid()
      ensures nextId == old(nextId) + 1
      ensures old(nextId) !in old(spawned)
      ensures spawned == old(spawned)[old(nextId) := Spawn(coro, ignore)]
      ensures old(tasks).Some? ==>
                r == Ok(old(nextId)) && tasks == Some(old(tasks).value + {old(nextId)})
                && untracked == old(untracked)
      ensures old(tasks).None? ==>
                r == Err(NO_TASKS_ATTRIBUTE) && tasks == None
                && untracked == old(untracked) + {old(nextId)}
    {
      var t := nextId;
      nextId := nextId + 1;
      spawned := spawned[t := Spawn(coro, ignore)];
      if tasks.Some? {
        tasks := Some(tasks.value + {t});
        r := Ok(t);
      } else {
        untracked := untracked + {t};
        r := Err(NO_TASKS_ATTRIBUTE);
      }
    }

    /** The group's `_create_task_done_callback`, run once when a task it
        gave a callback ends; after exit the missing `tasks` is tolerated. */
    method OnDone(t: TaskId, outcome: TaskOutcome)
      requires Valid() && t in spawned.Keys - finished - untracked
      modifies this`tasks, this`finished, this`failures
      ensures Valid()
      ensures finished == old(finished) + {t}
      ensures tasks == if old(tasks).Some? then Some(old(tasks).value - {t}) else None
      ensures failures == old(failures) + NewFailures(t, outcome, spawned[t].ignore)
    {
      if tasks.Some? {
        tasks := Some(tasks.value - {t});
      }
      finished := finished + {t};
      if Reported(outcome, spawned[t].ignore) {
        failures := failures + [Failure(t, outcome.exc)];
      }
    }

    /** The exit's `task.cancel()` over every detached member. */
    method CancelMembers(members: set<TaskId>)
      requires Valid() && members <= spawned.Keys
      modifies this`cancelRequested
      ensures Valid()
      ensures cancelRequested == old(cancelRequested) + members
    {
      var rest := members;
      while rest != {}
        invariant rest <= members && Valid()
        invariant cancelRequested == old(cancelRequested) + (members - rest)
        decreases rest
      {
        var t :| t in rest;
        cancelRequested := cancelRequested + {t};
        rest := rest - {t};
      }
    }

    /** The exit's `gather(*tasks, return_exceptions=True)` over the detached
        members: each member ends with `outcomes[t]` and its done callback
        runs, logging exactly the reported failures. */
    method AwaitMembers(members: set<TaskId>, outcomes: map<TaskId, TaskOutcome>)
      requires Valid() && tasks == None
      requires members <= spawned.Keys - finished - untracked && members <= outcomes.Keys
      modifies this`tasks, this`finished, this`failures
      ensures Valid() && tasks == None
      ensures finished == old(finished) + members
      ensures |failures| >= |old(failures)| && failures[..|old(failures)|] == old(failures)
      ensures forall f :: f in failures[|old(failures)|..] <==>
                (f.task in members && Reported(outcomes[f.task], spawned[f.task].ignore)
                 && f.exc == outcomes[f.task].exc)
    {
      var rest := members;
      while rest != {}
        invariant rest <= members && Valid() && tasks == None
        invariant finished == old(finished) + (members - rest)
        invariant |failures| >= |old(failures)| && failures[..|old(failures)|] == old(failures)
        invariant forall f :: f in failures[|old(failures)|..] <==>
                    (f.task in members - rest && Reported(outcomes[f.task], spawned[f.task].ignore)
                     && f.exc == outcomes[f.task].exc)
        decreases rest
      {
        var t :| t in rest;
        ghost var before := failures;
        OnDone(t, outcomes[t]);
        assert failures[|old(failures)|..] == before[|old(failures)|..] + NewFailures(t, outcomes[t], spawned[t].ignore);
        rest := rest - {t};
      }
    }

    /** `__aexit__`: detach the member set, cancel every member iff `cancel`,
        then, iff `wait`, await all members; `outcomes` gives how each member
        ends, and its done callback runs before the gather returns. Member
        exceptions are collected, never raised. A second exit finds `tasks`
        deleted and raises AttributeError. */
    method Exit(outcomes: map<TaskId, TaskOutcome>) returns (r: Result<ExitReport, Exc>)
      requires Valid()
      requires tasks.Some? && wait ==> tasks.value <= outcomes.Keys
      modifies this`tasks, this`finished, this`failures, this`cancelRequested
      ensures Valid()
      ensures old(tasks).None? ==> r == Err(NO_TASKS_ATTRIBUTE) && unchanged(this)
      ensures old(tasks).Some? ==> tasks == None && r.Ok?
      ensures old(tasks).Some? ==>
                var members := old(tasks).value;
                && r.value.cancelled == (if cancel then members else {})
                && r.value.awaited == (if wait then members else {})
                && cancelRequested == old(cancelRequested) + r.value.cancelled
                && r.value.collected == (map t | t in r.value.awaited :: outcomes[t])
                && finished == old(finished) + r.value.awaited
      ensures old(tasks).Some? && !wait ==> failures == old(failures)
      ensures |failures| >= |old(failures)| && failures[..|old(failures)|] == old(failures)
      ensures old(tasks).Some? && wait ==>
                forall f :: f in failures[|old(failures)|..] <==>
                  (f.task in old(tasks).value && Reported(outcomes[f.task], spawned[f.task].ignore)
                   && f.exc == outcomes[f.task].exc)
    {
      if tasks.None? {
        return Err(NO_TASKS_ATTRIBUTE);
      }
      var members := tasks.value;
      tasks := None;
      var cancelled: set<TaskId> := {};
      if cancel {
        CancelMembers(members);
        cancelled := members;
      }
      var awaited: set<TaskId> := {};
      if wait {
        AwaitMembers(members, outcomes);
        awaited := members;
      }
      r := Ok(ExitReport(cancelled, awaited, map t | t in awaited :: outcomes[t]));
    }
  }
}
