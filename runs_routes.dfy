/** `runs_routes`: the run endpoints, with the four cron endpoints present
    only when crons are enabled by the feature flag and by the licence. */
module RunsRoutes {
  import opened Py
  import opened Routing

  function Post(path: string, endpoint: string): Route { Route(path, ["POST"], endpoint) }
  function Get(path: string, endpoint: string): Route { Route(path, ["GET"], endpoint) }
  function Delete(path: string, endpoint: string): Route { Route(path, ["DELETE"], endpoint) }

  /** `route if crons else None` */
  function Gate(crons: bool, r: Route): Option<Route> {
    if crons then Some(r) else None
  }

  const CRON_ENDPOINTS: set<string> := {"create_cron", "search_crons", "create_thread_cron", "delete_cron"}

  const CREATE_CRON: Route := Post("/runs/crons", "create_cron")
  const SEARCH_CRONS: Route := Post("/runs/crons/search", "search_crons")
  const CREATE_THREAD_CRON: Route := Post("/threads/{thread_id}/runs/crons", "create_thread_cron")
  const DELETE_CRON: Route := Delete("/runs/crons/{cron_id}", "delete_cron")

  /** The always-present routes before the first cron route. */
  const STATELESS: seq<Route> := [
    Post("/runs/stream", "stream_run_stateless"),
    Post("/runs/wait", "wait_run_stateless"),
    Post("/runs", "create_stateless_run"),
    Post("/runs/batch", "create_stateless_run_batch")]

  /** The always-present routes between the second and third cron routes. */
  const THREAD_RUNS: seq<Route> := [
    Get("/threads/{thread_id}/runs/{run_id}/join", "join_run"),
    Get("/threads/{thread_id}/runs/{run_id}/stream", "join_run_stream_endpoint"),
    Post("/threads/{thread_id}/runs/{run_id}/cancel", "cancel_run"),
    Get("/threads/{thread_id}/runs/{run_id}", "get_run_http"),
    Delete("/threads/{thread_id}/runs/{run_id}", "delete_run"),
    Post("/threads/{thread_id}/runs/stream", "stream_run"),
    Post("/threads/{thread_id}/runs/wait", "wait_run"),
    Post("/threads/{thread_id}/runs", "create_run")]

  /** The always-present route between the third and fourth cron routes. */
  const LIST_RUNS: seq<Route> := [Get("/threads/{thread_id}/runs", "list_runs_http")]

  function Present(rs: seq<Route>): (r: seq<Option<Route>>)
    ensures |r| == |rs| && forall i | 0 <= i < |rs| :: r[i] == Some(rs[i])
  {
    seq(|rs|, i requires 0 <= i < |rs| => Some(rs[i]))
  }

  /** The declared list, in source order, before the None entries are
      dropped; `crons` is `config.FF_CRONS_ENABLED and plus_features_enabled()`. */
  function Declared(crons: bool): (r: seq<Option<Route>>)
    ensures |r| == 17
  {
    Present(STATELESS) + [Gate(crons, CREATE_CRON), Gate(crons, SEARCH_CRONS)]
    + Present(THREAD_RUNS) + [Gate(crons, CREATE_THREAD_CRON)]
    + Present(LIST_RUNS) + [Gate(crons, DELETE_CRON)]
  }

  /** The exported `runs_routes`. */
  function RunsRoutes(ffCronsEnabled: bool, plusFeaturesEnabled: bool): seq<Route> {
    FilterNone(Declared(ffCronsEnabled && plusFeaturesEnabled))
  }

  function If(c: bool, rs: seq<Route>): seq<Route> { if c then rs else [] }

  lemma FilterGate(c: bool, x: Route)
    ensures FilterNone([Gate(c, x)]) == If(c, [x])
  {
    assert [Gate(c, x)][1..] == [];
  }

  /** Dropping the None entries of a table made of always-present segments
      and gated entries. */
  lemma {:induction false} FilterSegments(c: bool, s1: seq<Route>, x1: Route, x2: Route, s2: seq<Route>,
                                          x3: Route, s3: seq<Route>, x4: Route)
    ensures FilterNone(Present(s1) + [Gate(c, x1), Gate(c, x2)] + Present(s2) + [Gate(c, x3)]
                       + Present(s3) + [Gate(c, x4)])
            == s1 + If(c, [x1, x2]) + s2 + If(c, [x3]) + s3 + If(c, [x4])
    ensures c ==> s1 + If(c, [x1, x2]) + s2 + If(c, [x3]) + s3 + If(c, [x4])
                  == s1 + [x1, x2] + s2 + [x3] + s3 + [x4]
    ensures !c ==> s1 + If(c, [x1, x2]) + s2 + If(c, [x3]) + s3 + If(c, [x4]) == s1 + s2 + s3
    ensures |s1 + s2 + s3| == |s1| + |s2| + |s3|
    ensures |s1 + [x1, x2] + s2 + [x3] + s3 + [x4]| == |s1| + |s2| + |s3| + 4
  {
    if !c {
      assert s1 + If(c, [x1, x2]) == s1;
      assert s1 + If(c, [x1, x2]) + s2 + If(c, [x3]) == s1 + s2;
      assert s1 + If(c, [x1, x2]) + s2 + If(c, [x3]) + s3 + If(c, [x4]) == s1 + s2 + s3;
    }
    var a, m, l := Present(s1), Present(s2), Present(s3);
    var b, d, e := [Gate(c, x1), Gate(c, x2)], [Gate(c, x3)], [Gate(c, x4)];
    FilterNoneAllPresent(s1);
    assert FilterNone(a) == s1;
    assert FilterNone(b) == If(c, [x1, x2]) by {
      assert b == [Gate(c, x1)] + [Gate(c, x2)];
      FilterNoneAppend([Gate(c, x1)], [Gate(c, x2)]);
      FilterGate(c, x1);
      FilterGate(c, x2);
    }
    FilterNoneAppend(a, b);
    var r1 := s1 + If(c, [x1, x2]);
    assert FilterNone(a + b) == r1;
    FilterNoneAllPresent(s2);
    FilterNoneAppend(a + b, m);
    var r2 := r1 + s2;
    assert FilterNone(a + b + m) == r2;
    FilterGate(c, x3);
    FilterNoneAppend(a + b + m, d);
    var r3 := r2 + If(c, [x3]);
    assert FilterNone(a + b + m + d) == r3;
    FilterNoneAllPresent(s3);
    FilterNoneAppend(a + b + m + d, l);
    var r4 := r3 + s3;
    assert FilterNone(a + b + m + d + l) == r4;
    FilterGate(c, x4);
    FilterNoneAppend(a + b + m + d + l, e);
  }

  /** With the None entries dropped, the table is the always-present
      routes in declared order, with each cron route in its declared place
      iff crons are enabled. */
  lemma RunsRoutesShape(ff: bool, plus: bool)
    ensures var c := ff && plus;
            RunsRoutes(ff, plus) == STATELESS + If(c, [CREATE_CRON, SEARCH_CRONS]) + THREAD_RUNS
                                    + If(c, [CREATE_THREAD_CRON]) + LIST_RUNS + If(c, [DELETE_CRON])
    ensures ff && plus ==> RunsRoutes(ff, plus) == STATELESS + [CREATE_CRON, SEARCH_CRONS] + THREAD_RUNS
                                                  + [CREATE_THREAD_CRON] + LIST_RUNS + [DELETE_CRON]
    ensures !(ff && plus) ==> RunsRoutes(ff, plus) == STATELESS + THREAD_RUNS + LIST_RUNS
    ensures |STATELESS + THREAD_RUNS + LIST_RUNS| == 13
    ensures |STATELESS + [CREATE_CRON, SEARCH_CRONS] + THREAD_RUNS + [CREATE_THREAD_CRON] + LIST_RUNS + [DELETE_CRON]| == 17
  {
    FilterSegments(ff && plus, STATELESS, CREATE_CRON, SEARCH_CRONS, THREAD_RUNS,
                   CREATE_THREAD_CRON, LIST_RUNS, DELETE_CRON);
  }

  /** The routes of `rs` that are not cron endpoints, in order. */
  function NonCron(rs: seq<Route>): (r: seq<Route>)
    ensures forall x :: x in r <==> x in rs && x.endpoint !in CRON_ENDPOINTS
  {
    if rs == [] then []
    else if rs[0].endpoint in CRON_ENDPOINTS then NonCron(rs[1..])
    else [rs[0]] + NonCron(rs[1..])
  }

  lemma {:induction false} NonCronAppend(xs: seq<Route>, ys: seq<Route>)
    ensures NonCron(xs + ys) == NonCron(xs) + NonCron(ys)
  {
    if xs == [] {
      assert xs + ys == ys;
    } else {
      assert (xs + ys)[1..] == xs[1..] + ys;
      NonCronAppend(xs[1..], ys);
    }
  }

  lemma {:induction false} NonCronKeepsOthers(rs: seq<Route>)
    requires forall i | 0 <= i < |rs| :: rs[i].endpoint !in CRON_ENDPOINTS
    ensures NonCron(rs) == rs
  {
    if rs != [] {
      NonCronKeepsOthers(rs[1..]);
    }
  }

  predicate NoCron(rs: seq<Route>) {
    forall i | 0 <= i < |rs| :: rs[i].endpoint !in CRON_ENDPOINTS
  }

  lemma NonCronDropsCron(x: Route)
    requires x.endpoint in CRON_ENDPOINTS
    ensures NonCron([x]) == []
  {
    assert [x][1..] == [];
  }

  lemma {:induction false} NonCronSegments(s1: seq<Route>, x1: Route, x2: Route, s2: seq<Route>,
                                           x3: Route, s3: seq<Route>, x4: Route)
    requires NoCron(s1) && NoCron(s2) && NoCron(s3)
    requires x1.endpoint in CRON_ENDPOINTS && x2.endpoint in CRON_ENDPOINTS
    requires x3.endpoint in CRON_ENDPOINTS && x4.endpoint in CRON_ENDPOINTS
    ensures NonCron(s1 + [x1, x2] + s2 + [x3] + s3 + [x4]) == s1 + s2 + s3
  {
    var b := [x1, x2];
    NonCronKeepsOthers(s1);
    assert NonCron(b) == [] by {
      assert b == [x1] + [x2];
      NonCronAppend([x1], [x2]);
      NonCronDropsCron(x1);
      NonCronDropsCron(x2);
    }
    NonCronAppend(s1, b);
    assert NonCron(s1 + b) == s1;
    NonCronKeepsOthers(s2);
    NonCronAppend(s1 + b, s2);
    assert NonCron(s1 + b + s2) == s1 + s2;
    NonCronDropsCron(x3);
    NonCronAppend(s1 + b + s2, [x3]);
    assert NonCron(s1 + b + s2 + [x3]) == s1 + s2;
    NonCronKeepsOthers(s3);
    NonCronAppend(s1 + b + s2 + [x3], s3);
    assert NonCron(s1 + b + s2 + [x3] + s3) == s1 + s2 + s3;
    NonCronDropsCron(x4);
    NonCronAppend(s1 + b + s2 + [x3] + s3, [x4]);
  }

  lemma SegmentsAreNotCron()
    ensures NoCron(STATELESS) && NoCron(THREAD_RUNS) && NoCron(LIST_RUNS)
    ensures CREATE_CRON.endpoint in CRON_ENDPOINTS && SEARCH_CRONS.endpoint in CRON_ENDPOINTS
    ensures CREATE_THREAD_CRON.endpoint in CRON_ENDPOINTS && DELETE_CRON.endpoint in CRON_ENDPOINTS
  {
  }

  /** With crons enabled all seventeen declared routes are served. */
  lemma CronsEnabled(ff: bool, plus: bool)
    requires ff && plus
    ensures RunsRoutes(ff, plus) == STATELESS + [CREATE_CRON, SEARCH_CRONS] + THREAD_RUNS
                                    + [CREATE_THREAD_CRON] + LIST_RUNS + [DELETE_CRON]
    ensures |RunsRoutes(ff, plus)| == 17
  {
    RunsRoutesShape(ff, plus);
  }

  /** With crons disabled exactly the thirteen other routes remain, in the
      same relative order, and no cron endpoint is served. */
  lemma CronsDisabled(ff: bool, plus: bool)
    requires !(ff && plus)
    ensures RunsRoutes(ff, plus) == STATELESS + THREAD_RUNS + LIST_RUNS
    ensures |RunsRoutes(ff, plus)| == 13
    ensures NoCron(RunsRoutes(ff, plus))
    ensures RunsRoutes(ff, plus) == NonCron(RunsRoutes(true, true))
  {
    RunsRoutesShape(ff, plus);
    CronsEnabled(true, true);
    SegmentsAreNotCron();
    NonCronSegments(STATELESS, CREATE_CRON, SEARCH_CRONS, THREAD_RUNS, CREATE_THREAD_CRON, LIST_RUNS, DELETE_CRON);
    NoCronAppend(STATELESS, THREAD_RUNS);
    NoCronAppend(STATELESS + THREAD_RUNS, LIST_RUNS);
  }

  lemma NoCronAppend(xs: seq<Route>, ys: seq<Route>)
    requires NoCron(xs) && NoCron(ys)
    ensures NoCron(xs + ys)
  {
    assert forall i | |xs| <= i < |xs + ys| :: (xs + ys)[i] == ys[i - |xs|];
  }
}
