/** Async iteration helpers: `to_aiter`, the `aclosing` context manager and
    `aclosing_aiter`. An async iterator is a finite supply of items that may
    end with an exception, and that can be closed. */
module AsyncIter {
  import opened Py

  /** The result of one `__anext__`: an item, the end of the iteration
      (StopAsyncIteration), or an exception raised by the iterator. */
  datatype Step<T> = Yield(item: T) | Stop | Fail(e: Exc)

  /** An async iterator: it yields `items` in order, then raises `failure`
      if there is one, and is finished from then on, or once closed. */
  class AsyncGen<T> {
    const items: seq<T>
    const failure: Option<Exc>
    /** Whether the iterator is also an async context manager (has `__aenter__`). */
    const hasAenter: bool
    var pos: nat
    var finished: bool
    /** `aclose()` was awaited. */
    var closed: bool
    /** `__aexit__` was awaited. */
    var exited: bool

    ghost predicate Valid()
      reads this
    {
      pos <= |items|
    }

    /** The items a full iteration from the current state still yields. */
    function Remaining(): seq<T>
      reads this
      requires Valid()
    {
      if finished then [] else items[pos..]
    }

    /** The exception a full iteration from the current state ends with. */
    function PendingFailure(): Option<Exc>
      reads this
    {
      if finished then None else failure
    }

    constructor (items: seq<T>, failure: Option<Exc>, hasAenter: bool)
      ensures Valid()
      ensures this.items == items && this.failure == failure && this.hasAenter == hasAenter
      ensures pos == 0 && !finished && !closed && !exited
    {
      this.items := items;
      this.failure := failure;
      this.hasAenter := hasAenter;
      pos, finished, closed, exited := 0, false, false, false;
    }

    /** `await it.__anext__()`. */
    method Next() returns (r: Step<T>)
      requires Valid()
      modifies this`pos, this`finished
      ensures Valid()
      ensures old(finished) ==> r == Stop && finished && pos == old(pos)
      ensures !old(finished) && old(pos) < |items| ==>
                r == Yield(items[old(pos)]) && pos == old(pos) + 1 && !finished
      ensures !old(finished) && old(pos) == |items| ==>
                finished && pos == old(pos)
                && r == (if failure.Some? then Fail(failure.value) else Stop)
    {
      if finished {
        r := Stop;
      } else if pos < |items| {
        r := Yield(items[pos]);
        pos := pos + 1;
      } else {
        finished := true;
        r := if failure.Some? then Fail(failure.value) else Stop;
      }
    }

    /** `await it.aclose()`: the iterator is finished from then on. */
    method Aclose()
      modifies this`finished, this`closed
      ensures finished && closed
    {
      finished := true;
      closed := true;
    }

    /** `await it.__aexit__(...)` of an iterator that is a context manager. */
    method Aexit()
      modifies this`exited
      ensures exited
    {
      exited := true;
    }
  }

  /** `to_aiter(*args)`: an async generator that yields the arguments in order. */
  method ToAiter<T>(args: seq<T>) returns (g: AsyncGen<T>)
    ensures fresh(g) && g.Valid()
    ensures g.Remaining() == args && g.PendingFailure() == None && !g.hasAenter
  {
    g := new AsyncGen(args, None, false);
  }

  /** `aclosing(thing)`: entering gives back `thing`, leaving awaits
      `thing.aclose()` however the block ended. */
  class AClosing<T> {
    const thing: AsyncGen<T>

    constructor (thing: AsyncGen<T>)
      ensures this.thing == thing
    {
      this.thing := thing;
    }

    method Enter() returns (g: AsyncGen<T>)
      ensures g == thing
    {
      g := thing;
    }

    method Exit()
      modifies thing`finished, thing`closed
      ensures thing.finished && thing.closed
    {
      thing.Aclose();
    }
  }

  /** One round of `async for x in it`: `__anext__` is awaited, and either
      the item is appended to `out` and the loop goes on, or the loop ends,
      with the exception that stopped it, if any. */
  method Pull<T>(it: AsyncGen<T>, out: seq<T>) returns (out': seq<T>, going: bool, err: Option<Exc>)
    requires it.Valid()
    modifies it`pos, it`finished
    ensures it.Valid()
    ensures going ==> !old(it.finished) && !it.finished && it.pos == old(it.pos) + 1
    ensures going ==> out' + it.Remaining() == out + old(it.Remaining())
                      && it.PendingFailure() == old(it.PendingFailure()) && err == None
    ensures !going ==> it.finished && out' == out + old(it.Remaining()) && err == old(it.PendingFailure())
  {
    var s := it.Next();
    match s {
      case Yield(x) =>
        assert it.items[it.pos - 1..] == [x] + it.items[it.pos..];
        out', going, err := out + [x], true, None;
      case Stop =>
        out', going, err := out, false, None;
      case Fail(e) =>
        out', going, err := out, false, Some(e);
    }
  }

  /** Iterate `it` to its end, as `async for` does: the items yielded, and
      the exception that stopped the iteration, if any. */
  method Drain<T>(it: AsyncGen<T>) returns (out: seq<T>, err: Option<Exc>)
    requires it.Valid()
    modifies it`pos, it`finished
    ensures it.Valid() && it.finished
    ensures out == old(it.Remaining()) && err == old(it.PendingFailure())
  {
    out := [];
    err := None;
    ghost var rest0, failure0 := it.Remaining(), it.PendingFailure();
    var going := true;
    while going
      invariant it.Valid()
      invariant going ==> out + it.Remaining() == rest0 && it.PendingFailure() == failure0 && err == None
      invariant !going ==> it.finished && out == rest0 && err == failure0
      decreases going, if it.finished then 0 else |it.items| - it.pos + 1
    {
      out, going, err := Pull(it, out);
    }
  }

  /** `aclosing_aiter(aiter)`, drained by its consumer: the items of `aiter`
      re-yielded in order, and the iterator released at the end, through its
      own `__aexit__` when it is a context manager and through `aclose()`
      otherwise, whether or not the iteration failed. */
  method AclosingAiter<T>(it: AsyncGen<T>) returns (out: seq<T>, err: Option<Exc>)
    requires it.Valid()
    modifies it
    ensures it.Valid() && it.finished
    ensures out == old(it.Remaining()) && err == old(it.PendingFailure())
    ensures it.hasAenter ==> it.exited && it.closed == old(it.closed)
    ensures !it.hasAenter ==> it.closed && it.exited == old(it.exited)
  {
    if it.hasAenter {
      out, err := Drain(it);
      it.Aexit();
    } else {
      var cm := new AClosing(it);
      var g := cm.Enter();
      out, err := Drain(g);
      cm.Exit();
    }
  }

  /** Draining `to_aiter(*args)` yields exactly `args`, with no error. */
  method ToAiterYieldsArgs<T>(args: seq<T>) returns (out: seq<T>, err: Option<Exc>)
    ensures out == args && err == None
  {
    var g := ToAiter(args);
    out, err := Drain(g);
  }
}
