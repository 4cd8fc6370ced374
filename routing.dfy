/** Route tables: a route is a path, its HTTP methods and the name of the
    endpoint that serves it. */
module Routing {
  import opened Py

  datatype Route = Route(path: string, methods: seq<string>, endpoint: string)

  function Paths(rs: seq<Route>): (r: seq<string>)
    ensures |r| == |rs| && forall i | 0 <= i < |rs| :: r[i] == rs[i].path
  {
    if rs == [] then [] else [rs[0].path] + Paths(rs[1..])
  }

  /** `[x for x in xs if x is not None]`. */
  function FilterNone<T(!new)>(xs: seq<Option<T>>): (r: seq<T>)
    ensures |r| <= |xs|
    ensures forall x :: x in r <==> Some(x) in xs
  {
    if xs == [] then []
    else
      var rest := FilterNone(xs[1..]);
      assert forall x :: Some(x) in xs <==> Some(x) == xs[0] || Some(x) in xs[1..];
      if xs[0].Some? then [xs[0].value] + rest else rest
  }

  /** Filtering distributes over concatenation, so it keeps the order of the
      entries it keeps. */
  lemma {:induction false} FilterNoneAppend<T(!new)>(xs: seq<Option<T>>, ys: seq<Option<T>>)
    ensures FilterNone(xs + ys) == FilterNone(xs) + FilterNone(ys)
  {
    if xs == [] {
      assert xs + ys == ys;
    } else {
      assert (xs + ys)[1..] == xs[1..] + ys;
      FilterNoneAppend(xs[1..], ys);
    }
  }

  /** A table without None entries comes through unchanged. */
  lemma {:induction false} FilterNoneAllPresent<T(!new)>(xs: seq<T>)
    ensures FilterNone(seq(|xs|, i requires 0 <= i < |xs| => Some(xs[i]))) == xs
  {
    if xs != [] {
      var wrapped := seq(|xs|, i requires 0 <= i < |xs| => Some(xs[i]));
      assert wrapped[1..] == seq(|xs| - 1, i requires 0 <= i < |xs| - 1 => Some(xs[1..][i]));
      FilterNoneAllPresent(xs[1..]);
    }
  }
}
