/** Request-parameter normalisation of the run handlers: the boolean-like
    query flags, the cancel action, the cancel handler's status code, and the
    disconnect policy of the streaming handlers. A query string is a map
    from parameter name to its value (the last one given, as Starlette's
    `query_params.get` returns). */
module RunsParams {
  import opened Py

  type Query = map<string, string>

  /** The spellings that count as true: `{"true", "yes", "1"}`. */
  const TRUE_WORDS: set<string> := {"true", "yes", "1"}

  /** `s.lower() in {"true", "yes", "1"}`. */
  predicate IsTrueFlag(s: string) {
    Lower(s) in TRUE_WORDS
  }

  /** `t` spelled with any mix of upper and lower case letters. */
  predicate SameIgnoringCase(s: string, t: string) {
    |s| == |t| && forall i | 0 <= i < |s| :: LowerChar(s[i]) == LowerChar(t[i])
  }

  lemma LowerIdempotent(s: string)
    ensures Lower(Lower(s)) == Lower(s)
  {
    var l := Lower(s);
    assert forall i | 0 <= i < |l| :: LowerChar(l[i]) == l[i];
  }

  lemma LowerEqIffSameIgnoringCase(s: string, t: string)
    ensures Lower(s) == Lower(t) <==> SameIgnoringCase(s, t)
  {
    if SameIgnoringCase(s, t) {
      assert forall i | 0 <= i < |s| :: Lower(s)[i] == Lower(t)[i];
    }
  }

  /** The flag is true exactly for the three words in any letter case. */
  lemma TrueFlagIgnoresCase(s: string)
    ensures IsTrueFlag(s) <==>
              SameIgnoringCase(s, "true") || SameIgnoringCase(s, "yes") || SameIgnoringCase(s, "1")
  {
    LowerEqIffSameIgnoringCase(s, "true");
    LowerEqIffSameIgnoringCase(s, "yes");
    LowerEqIffSameIgnoringCase(s, "1");
    assert Lower("true") == "true";
    assert Lower("yes") == "yes";
    assert Lower("1") == "1";
  }

  /** `False.lower()`: what `query_params.get("wait", False).lower()` raises
      when the request has no `wait` parameter. */
  const NO_LOWER_ON_BOOL: Exc := Builtin("AttributeError", "'bool' object has no attribute 'lower'")

  /** `wait` of `cancel_run`. */
  function WaitFlag(q: Query): (r: Result<bool, Exc>)
    ensures "wait" !in q <==> r == Err(NO_LOWER_ON_BOOL)
    ensures "wait" in q ==> r.Ok? && (r.value <==> Lower(q["wait"]) in TRUE_WORDS)
  {
    if "wait" in q then Ok(IsTrueFlag(q["wait"])) else Err(NO_LOWER_ON_BOOL)
  }

  /** `action` of `cancel_run`: kept only when it is exactly one of the two
      known actions (case-sensitive), otherwise the default. */
  function CancelAction(q: Query): (r: string)
    ensures r == "interrupt" || r == "rollback"
    ensures "action" in q && (q["action"] == "interrupt" || q["action"] == "rollback") ==> r == q["action"]
    ensures !("action" in q && q["action"] == "rollback") ==> r == "interrupt"
  {
    var a := if "action" in q then q["action"] else "interrupt";
    if a in {"interrupt", "rollback"} then a else "interrupt"
  }

  /** What `cancel_run` does once the identifiers are valid: cancel the run
      with `action`, join it iff `join`, and answer with `status`. */
  datatype CancelPlan = CancelPlan(action: string, join: bool, status: int)

  function CancelRun(q: Query): (r: Result<CancelPlan, Exc>)
    ensures r.Err? <==> "wait" !in q
    ensures r.Err? ==> r.error == NO_LOWER_ON_BOOL
    ensures r.Ok? ==> r.value.action == CancelAction(q)
    ensures r.Ok? ==> (r.value.join <==> IsTrueFlag(q["wait"]))
    ensures r.Ok? ==> (r.value.status == 204 <==> r.value.join)
                      && (r.value.status == 202 <==> !r.value.join)
  {
    match WaitFlag(q)
    case Err(e) => Err(e)
    case Ok(wait) => Ok(CancelPlan(CancelAction(q), wait, if wait then 204 else 202))
  }

  /** `cancel_on_disconnect` of `join_run_stream_endpoint`, defaulting to
      `"false"`. */
  function CancelOnDisconnect(q: Query): (r: bool)
    ensures "cancel_on_disconnect" !in q ==> !r
    ensures "cancel_on_disconnect" in q ==> (r <==> Lower(q["cancel_on_disconnect"]) in TRUE_WORDS)
  {
    IsTrueFlag(if "cancel_on_disconnect" in q then q["cancel_on_disconnect"] else "false")
  }

  /** `on_disconnect` of the streaming creation handlers, read from the
      request payload with default `"continue"`; the stream is cancelled on
      disconnect iff it is exactly `"cancel"`. */
  function StreamCancelsOnDisconnect(payload: map<string, string>): (r: bool)
    ensures r <==> "on_disconnect" in payload && payload["on_disconnect"] == "cancel"
  {
    var onDisconnect := if "on_disconnect" in payload then payload["on_disconnect"] else "continue";
    onDisconnect == "cancel"
  }

  /** A few spellings of the flag. */
  lemma FlagExamples()
    ensures IsTrueFlag("TRUE") && IsTrueFlag("Yes") && IsTrueFlag("1")
    ensures !IsTrueFlag("false") && !IsTrueFlag("on") && !IsTrueFlag("")
  {
    assert Lower("TRUE") == "true";
    assert Lower("Yes") == "yes";
    assert Lower("1") == "1";
    assert Lower("false") == "false";
    assert Lower("on") == "on";
  }

  /** `wait` is read case-insensitively, `action` is not. */
  lemma CancelRunExamples()
    ensures CancelRun(map["wait" := "True"]) == Ok(CancelPlan("interrupt", true, 204))
    ensures CancelRun(map["wait" := "no", "action" := "Rollback"]) == Ok(CancelPlan("interrupt", false, 202))
  {
    assert Lower("True") == "true";
    assert Lower("no") == "no";
  }
}
