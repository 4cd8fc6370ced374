/** The application's route assembly and helpers: the meta routes, the
    protected route groups selected by the HTTP configuration, loading a
    user-supplied Starlette app, and the `/ok` health endpoint. */
module Api {
  import opened Py
  import opened Routing

  // ---------------------------------------------------------------------
  // Meta routes

  /** `meta_routes`: the unauthenticated endpoints, all GET. */
  function MetaRoutes(): (r: seq<Route>)
    ensures Paths(r) == ["/ok", "/openapi.json", "/docs", "/info", "/metrics"]
    ensures forall i | 0 <= i < |r| :: r[i].methods == ["GET"]
  {
    [ Route("/ok", ["GET"], "ok"),
      Route("/openapi.json", ["GET"], "openapi"),
      Route("/docs", ["GET"], "docs"),
      Route("/info", ["GET"], "meta_info"),
      Route("/metrics", ["GET"], "meta_metrics") ]
  }

  // ---------------------------------------------------------------------
  // Protected routes

  /** `HTTP_CONFIG`: None, or a JSON object. */
  type HttpConfig = Option<map<string, Value>>

  /** `if HTTP_CONFIG:` -- None and the empty object are falsy. */
  predicate ConfigTruthy(config: HttpConfig) {
    config.Some? && |config.value| > 0
  }

  /** `not HTTP_CONFIG.get(key)`: the group is kept when the key is absent
      or its value is falsy. */
  predicate Keeps(config: map<string, Value>, key: string) {
    !(key in config && Truthy(config[key]))
  }

  const GROUP_KEYS: seq<string> := ["disable_assistants", "disable_runs", "disable_threads", "disable_store"]

  /** Which of the four groups are mounted, in the fixed order assistants,
      runs, threads, store. */
  function KeptGroups(config: HttpConfig): (r: seq<bool>)
    ensures |r| == 4
    ensures !ConfigTruthy(config) ==> r == [true, true, true, true]
    ensures ConfigTruthy(config) ==> forall i | 0 <= i < 4 :: r[i] == Keeps(config.value, GROUP_KEYS[i])
  {
    if ConfigTruthy(config) then
      [Keeps(config.value, "disable_assistants"), Keeps(config.value, "disable_runs"),
       Keeps(config.value, "disable_threads"), Keeps(config.value, "disable_store")]
    else [true, true, true, true]
  }

  /** The concatenation, in order, of the groups whose flag is set. */
  function Selected(groups: seq<seq<Route>>, keep: seq<bool>): (r: seq<Route>)
    requires |groups| == |keep|
  {
    if groups == [] then []
    else (if keep[0] then groups[0] else []) + Selected(groups[1..], keep[1..])
  }

  /** `protected_routes`, built by extending an empty list group by group. */
  method ProtectedRoutes(config: HttpConfig, assistants: seq<Route>, runs: seq<Route>,
                         threads: seq<Route>, store: seq<Route>) returns (routes: seq<Route>)
    ensures routes == Selected([assistants, runs, threads, store], KeptGroups(config))
  {
    routes := [];
    if ConfigTruthy(config) {
      var c := config.value;
      var ka, kr, kt, ks := Keeps(c, "disable_assistants"), Keeps(c, "disable_runs"),
                            Keeps(c, "disable_threads"), Keeps(c, "disable_store");
      routes := MountIf(routes, ka, assistants);
      routes := MountIf(routes, kr, runs);
      routes := MountIf(routes, kt, threads);
      routes := MountIf(routes, ks, store);
      SelectedFour(assistants, runs, threads, store, ka, kr, kt, ks);
    } else {
      routes := routes + assistants;
      routes := routes + runs;
      routes := routes + threads;
      routes := routes + store;
      assert routes == assistants + runs + threads + store;
      assert KeptGroups(config) == [true, true, true, true];
      SelectedFour(assistants, runs, threads, store, true, true, true, true);
    }
  }

  /** `if <flag not set>: routes.extend(group)`. */
  method MountIf(routes: seq<Route>, keep: bool, group: seq<Route>) returns (r: seq<Route>)
    ensures r == routes + (if keep then group else [])
  {
    r := routes;
    if keep {
      r := r + group;
    } else {
      assert r == routes + [];
    }
  }

  lemma SelectedFour(a: seq<Route>, r: seq<Route>, t: seq<Route>, s: seq<Route>,
                     ka: bool, kr: bool, kt: bool, ks: bool)
    ensures Selected([a, r, t, s], [ka, kr, kt, ks])
            == (if ka then a else []) + (if kr then r else []) + (if kt then t else []) + (if ks then s else [])
  {
    assert [a, r, t, s][1..] == [r, t, s] && [ka, kr, kt, ks][1..] == [kr, kt, ks];
    assert [r, t, s][1..] == [t, s] && [kr, kt, ks][1..] == [kt, ks];
    assert [t, s][1..] == [s] && [kt, ks][1..] == [ks];
    var pa, pr, pt, ps := if ka then a else [], if kr then r else [], if kt then t else [], if ks then s else [];
    assert Selected([s], [ks]) == ps + Selected([], []) == ps;
    assert Selected([t, s], [kt, ks]) == pt + ps;
    assert Selected([r, t, s], [kr, kt, ks]) == pr + (pt + ps);
    assert Selected([a, r, t, s], [ka, kr, kt, ks]) == pa + (pr + (pt + ps));
  }

  /** Without a (non-empty) configuration every group is mounted, in order. */
  lemma FalsyConfigMountsAll(config: HttpConfig, a: seq<Route>, r: seq<Route>, t: seq<Route>, s: seq<Route>)
    requires !ConfigTruthy(config)
    ensures Selected([a, r, t, s], KeptGroups(config)) == a + r + t + s
  {
    SelectedFour(a, r, t, s, true, true, true, true);
  }

  /** With a configuration, a group is mounted iff its `disable_*` key is
      absent or falsy; a configuration that disables nothing mounts all. */
  lemma TruthyConfigSelects(c: map<string, Value>, a: seq<Route>, r: seq<Route>, t: seq<Route>, s: seq<Route>)
    requires |c| > 0
    ensures Selected([a, r, t, s], KeptGroups(Some(c)))
            == (if Keeps(c, "disable_assistants") then a else []) + (if Keeps(c, "disable_runs") then r else [])
               + (if Keeps(c, "disable_threads") then t else []) + (if Keeps(c, "disable_store") then s else [])
    ensures (forall k | k in GROUP_KEYS :: Keeps(c, k)) ==> Selected([a, r, t, s], KeptGroups(Some(c))) == a + r + t + s
  {
    SelectedFour(a, r, t, s, Keeps(c, "disable_assistants"), Keeps(c, "disable_runs"),
                 Keeps(c, "disable_threads"), Keeps(c, "disable_store"));
    assert KeptGroups(Some(c))[0] == Keeps(c, GROUP_KEYS[0]);
  }

  // ---------------------------------------------------------------------
  // The app import string

  /** The position of the last `:` in `s`, if any. */
  function LastColon(s: string): (r: Option<nat>)
    ensures r.None? <==> forall i | 0 <= i < |s| :: s[i] != ':'
    ensures r.Some? ==> r.value < |s| && s[r.value] == ':' && forall j | r.value < j < |s| :: s[j] != ':'
  {
    if s == [] then None
    else if s[|s| - 1] == ':' then Some(|s| - 1)
    else LastColon(s[..|s| - 1])
  }

  /** What unpacking a one-element result of `rsplit` raises. */
  const NO_COLON: Exc := Builtin("ValueError", "not enough values to unpack (expected 2, got 1)")

  /** `path, name = app_import.rsplit(":", 1)` */
  function SplitAppImport(s: string): (r: Result<(string, string), Exc>)
    ensures r.Err? <==> forall i | 0 <= i < |s| :: s[i] != ':'
    ensures r.Err? ==> r.error == NO_COLON
    ensures r.Ok? ==> r.value.0 + ":" + r.value.1 == s && forall i | 0 <= i < |r.value.1| :: r.value.1[i] != ':'
  {
    match LastColon(s)
    case None => Err(NO_COLON)
    case Some(k) =>
      assert s == s[..k] + ":" + s[k + 1..];
      Ok((s[..k], s[k + 1..]))
  }

  /** Splitting undoes joining with `:` whenever the name has no colon; the
      path may contain colons of its own. */
  lemma SplitJoinRoundTrip(path: string, name: string)
    requires forall i | 0 <= i < |name| :: name[i] != ':'
    ensures SplitAppImport(path + ":" + name) == Ok((path, name))
  {
    var s := path + ":" + name;
    assert s[|path|] == ':';
    assert forall j | |path| < j < |s| :: s[j] == name[j - |path| - 1];
    var k := LastColon(s).value;
    assert k == |path|;
    assert s[..k] == path && s[k + 1..] == name;
  }

  // ---------------------------------------------------------------------
  // Loading a custom app

  /** A Python object, known by the method resolution order of its class. */
  datatype Obj = Obj(mro: seq<string>, id: nat)

  /** `isinstance(o, Starlette)`; a FastAPI app is one too. */
  predicate IsStarlette(o: Obj) {
    exists i | 0 <= i < |o.mro| :: o.mro[i] == "Starlette"
  }

  /** What loading the module yields: its attributes, no loader spec (file
      loading only), or an exception raised while importing or executing it. */
  datatype ModuleLoad = Loaded(attrs: map<string, Obj>) | NoSpec | LoadRaises(e: Exc)

  function ImportFailed(path: string): Exc {
    Builtin("ImportError", "Failed to import app module '" + path + "'")
  }

  function AppNotFound(path: string, name: string): Exc {
    Builtin("AttributeError", "App '" + name + "' not found in module '" + path + "'")
  }

  function NotAnApp(path: string, name: string): Exc {
    Builtin("TypeError", "Object '" + name + "' in module '" + path + "' is not a Starlette or FastAPI application.")
  }

  /** The `except ImportError` and `except AttributeError` clauses, in
      that order; anything else propagates unchanged. */
  function Rewrap(path: string, name: string, e: Exc): Exc {
    if IsInstance(e, {"ImportError"}) then ImportFailed(path)
    else if IsInstance(e, {"AttributeError"}) then AppNotFound(path, name)
    else e
  }

  /** `os.path.isfile(path) or path.endswith(".py")`: load from a file
      rather than import by module name. `files` are the paths that are files. */
  predicate LoadsFromFile(path: string, files: set<string>) {
    path in files || (|path| >= 3 && path[|path| - 3..] == ".py")
  }

  /** The result of the `try` block of `load_custom_app`. */
  function LoadedApp(path: string, name: string, load: ModuleLoad): (r: Result<Obj, Exc>)
    ensures r.Ok? <==> load.Loaded? && name in load.attrs && IsStarlette(load.attrs[name])
    ensures r.Ok? ==> r.value == load.attrs[name]
  {
    match load
    case NoSpec => Err(Rewrap(path, name, Builtin("ImportError", "Cannot load spec from " + path)))
    case LoadRaises(e) => Err(Rewrap(path, name, e))
    case Loaded(attrs) =>
      if name !in attrs then Err(Rewrap(path, name, Builtin("AttributeError", "module has no attribute '" + name + "'")))
      else if !IsStarlette(attrs[name]) then Err(NotAnApp(path, name))
      else Ok(attrs[name])
  }

  /** No raw ImportError or AttributeError escapes: the module's own are
      replaced by the two messages naming the path and the app; a loaded
      object that is not an app is a TypeError. */
  lemma LoadErrorsClassified(path: string, name: string, load: ModuleLoad)
    ensures var r := LoadedApp(path, name, load);
            r.Err? && IsInstance(r.error, {"ImportError"}) && !IsInstance(r.error, {"AttributeError"})
            ==> r.error == ImportFailed(path) || (load.LoadRaises? && r.error == load.e)
    ensures load.NoSpec? ==> LoadedApp(path, name, load) == Err(ImportFailed(path))
    ensures load.Loaded? && name !in load.attrs ==> LoadedApp(path, name, load) == Err(AppNotFound(path, name))
    ensures load.Loaded? && name in load.attrs && !IsStarlette(load.attrs[name])
            ==> LoadedApp(path, name, load) == Err(NotAnApp(path, name))
    ensures load.LoadRaises? && IsInstance(load.e, {"ImportError"})
            ==> LoadedApp(path, name, load) == Err(ImportFailed(path))
    ensures load.LoadRaises? && !IsInstance(load.e, {"ImportError"}) && IsInstance(load.e, {"AttributeError"})
            ==> LoadedApp(path, name, load) == Err(AppNotFound(path, name))
    ensures load.LoadRaises? && !IsInstance(load.e, {"ImportError", "AttributeError"})
            ==> LoadedApp(path, name, load) == Err(load.e)
  {
    var ie := Builtin("ImportError", "Cannot load spec from " + path);
    assert ie.mro[0] == "ImportError";
    var ae := Builtin("AttributeError", "module has no attribute '" + name + "'");
    assert ae.mro[0] == "AttributeError";
    if load.LoadRaises? && !IsInstance(load.e, {"ImportError", "AttributeError"}) {
      assert !IsInstance(load.e, {"ImportError"});
      assert !IsInstance(load.e, {"AttributeError"});
    }
  }

  /** The name of the variable that defers the loopback transport while the
      user's app is imported. */
  const DEFER_LOOPBACK: string := "__LANGGRAPH_DEFER_LOOPBACK_TRANSPORT"

  /** The process environment. */
  class Environ {
    var vars: map<string, string>

    constructor (vars: map<string, string>)
      ensures this.vars == vars
    {
      this.vars := vars;
    }

    /** `os.environ[key] = value` */
    method Set(key: string, value: string)
      modifies this`vars
      ensures vars == old(vars)[key := value]
    {
      vars := vars[key := value];
    }

    /** `os.environ.pop(key, None)` */
    method Pop(key: string)
      modifies this`vars
      ensures vars == old(vars) - {key}
    {
      vars := vars - {key};
    }
  }

  /** `load_custom_app(app_import)`: `fromFile` and `fromModule` are what
      loading the path as a file, or importing it as a module, yields;
      `importEnv` is the environment the loading code runs in. The variable
      is set just before loading and removed afterwards whichever way the
      loading ends; a malformed import string fails before the environment
      is touched. */
  method LoadCustomApp(appImport: string, env: Environ, files: set<string>,
                       fromFile: ModuleLoad, fromModule: ModuleLoad)
    returns (r: Result<Obj, Exc>, importEnv: Option<map<string, string>>)
    modifies env`vars
    ensures SplitAppImport(appImport).Err? ==>
              r == Err(NO_COLON) && importEnv == None && env.vars == old(env.vars)
    ensures SplitAppImport(appImport).Ok? ==>
              var (path, name) := SplitAppImport(appImport).value;
              && r == LoadedApp(path, name, if LoadsFromFile(path, files) then fromFile else fromModule)
              && importEnv == Some(old(env.vars)[DEFER_LOOPBACK := "true"])
              && env.vars == old(env.vars) - {DEFER_LOOPBACK}
  {
    var split := SplitAppImport(appImport);
    if split.Err? {
      return Err(split.error), None;
    }
    var (path, name) := split.value;
    env.Set(DEFER_LOOPBACK, "true");
    importEnv := Some(env.vars);
    var load := if LoadsFromFile(path, files) then fromFile else fromModule;
    r := LoadedApp(path, name, load);
    env.Pop(DEFER_LOOPBACK);
  }

  // ---------------------------------------------------------------------
  // The /ok endpoint

  /** The ASCII characters `int()` strips around its argument: space, tab,
      line feed, vertical tab, form feed, carriage return, and the file,
      group, record and unit separators. */
  predicate IsSpace(c: char) {
    c == ' ' || c == '\t' || c == '\n' || c == '\r' || c == '\U{0B}' || c == '\U{0C}'
    || ('\U{1C}' <= c <= '\U{1F}')
  }

  function LStrip(s: string): (r: string)
    ensures |r| <= |s| && r == s[|s| - |r|..]
    ensures r == [] || !IsSpace(r[0])
  {
    if s != [] && IsSpace(s[0]) then LStrip(s[1..]) else s
  }

  function RStrip(s: string): (r: string)
    ensures |r| <= |s| && r == s[..|r|]
    ensures r == [] || !IsSpace(r[|r| - 1])
  {
    if s != [] && IsSpace(s[|s| - 1]) then RStrip(s[..|s| - 1]) else s
  }

  function Strip(s: string): string {
    RStrip(LStrip(s))
  }

  predicate IsDigit(c: char) {
    '0' <= c <= '9'
  }

  /** A decimal literal as `int()` accepts it: digits, with single
      underscores allowed between digits. */
  predicate DigitGroups(s: string) {
    && |s| > 0 && IsDigit(s[0]) && IsDigit(s[|s| - 1])
    && (forall i | 0 <= i < |s| :: IsDigit(s[i]) || s[i] == '_')
    && (forall i | 0 <= i < |s| - 1 :: !(s[i] == '_' && s[i + 1] == '_'))
  }

  /** The value of a digit string, underscores skipped. */
  function DigitsValue(s: string): nat {
    if s == [] then 0
    else if IsDigit(s[|s| - 1]) then DigitsValue(s[..|s| - 1]) * 10 + (s[|s| - 1] as int - '0' as int)
    else DigitsValue(s[..|s| - 1])
  }

  /** The number of digits in a string, underscores and signs not counted. */
  function DigitCount(s: string): nat {
    if s == [] then 0
    else DigitCount(s[..|s| - 1]) + (if IsDigit(s[|s| - 1]) then 1 else 0)
  }

  /** `sys.get_int_max_str_digits()` at its default: `int()` of a decimal
      string with more digits raises ValueError. */
  const INT_MAX_STR_DIGITS: nat := 4300

  /** `int(s)` for a base-10 string; None where Python raises ValueError. */
  function ParseInt(s: string): (r: Option<int>)
    ensures r.Some? ==> var t := Strip(s); |t| > 0 && DigitCount(t) <= INT_MAX_STR_DIGITS
  {
    ParseStripped(Strip(s))
  }

  /** The sign and digit groups left after stripping, with the digit limit. */
  function ParseStripped(t: string): (r: Option<int>)
    ensures r.Some? ==> |t| > 0 && DigitCount(t) <= INT_MAX_STR_DIGITS
  {
    if |t| > 0 && (t[0] == '-' || t[0] == '+') then
      var v: int := DigitsValue(t[1..]);
      assert t == [t[0]] + t[1..];
      DigitCountAppend([t[0]], t[1..]);
      if DigitGroups(t[1..]) && DigitCount(t[1..]) <= INT_MAX_STR_DIGITS then
        Some(if t[0] == '-' then -v else v)
      else None
    else if DigitGroups(t) && DigitCount(t) <= INT_MAX_STR_DIGITS then Some(DigitsValue(t))
    else None
  }

  lemma {:induction false} DigitCountAppend(a: string, b: string)
    ensures DigitCount(a + b) == DigitCount(a) + DigitCount(b)
    decreases |b|
  {
    if b != [] {
      assert (a + b)[..|a + b| - 1] == a + b[..|b| - 1];
      DigitCountAppend(a, b[..|b| - 1]);
    } else {
      assert a + b == a;
    }
  }

  lemma {:induction false} AllDigitsCount(s: string)
    requires forall i | 0 <= i < |s| :: IsDigit(s[i])
    ensures DigitCount(s) == |s|
    decreases |s|
  {
    if s != [] {
      AllDigitsCount(s[..|s| - 1]);
    }
  }

  function DigitChar(d: nat): (c: char)
    requires d < 10
    ensures IsDigit(c) && c as int - '0' as int == d
  {
    ('0' as int + d) as char
  }

  /** `str(n)` for a natural number. */
  function Decimal(n: nat): (r: string)
    ensures |r| > 0 && forall i | 0 <= i < |r| :: IsDigit(r[i])
    decreases n
  {
    if n < 10 then [DigitChar(n)] else Decimal(n / 10) + [DigitChar(n % 10)]
  }

  /** `str(i)` */
  function ShowInt(i: int): string {
    if i < 0 then "-" + Decimal(-i) else Decimal(i)
  }

  lemma {:induction false} DecimalValue(n: nat)
    ensures DigitsValue(Decimal(n)) == n
    decreases n
  {
    if n >= 10 {
      var d := Decimal(n);
      assert d[..|d| - 1] == Decimal(n / 10);
      DecimalValue(n / 10);
    }
  }

  lemma StripKeeps(s: string)
    requires |s| > 0 && !IsSpace(s[0]) && !IsSpace(s[|s| - 1])
    ensures Strip(s) == s
  {
  }

  lemma ParseUnstripped(s: string)
    requires Strip(s) == s
    ensures ParseInt(s) == ParseStripped(s)
  {
  }

  lemma UnsignedBranch(t: string)
    requires |t| > 0 && IsDigit(t[0])
    requires DigitGroups(t) && DigitCount(t) <= INT_MAX_STR_DIGITS
    ensures ParseStripped(t) == Some(DigitsValue(t) as int)
  {
  }

  lemma NegativeBranch(d: string)
    requires DigitGroups(d) && DigitCount(d) <= INT_MAX_STR_DIGITS
    ensures ParseStripped("-" + d) == Some(-(DigitsValue(d) as int))
  {
    var t := "-" + d;
    assert t[0] == '-' && t[1..] == d;
  }

  /** A run of at most 4300 plain digits is what `int()` reads as its
      digit value. */
  lemma ParseDigits(d: string)
    requires |d| > 0 && |d| <= INT_MAX_STR_DIGITS
    requires forall i | 0 <= i < |d| :: IsDigit(d[i])
    ensures ParseInt(d) == Some(DigitsValue(d) as int)
  {
    StripKeeps(d);
    AllDigitsCount(d);
    ParseUnstripped(d);
    UnsignedBranch(d);
  }

  /** The same run after a minus sign reads as the negated value. */
  lemma ParseNegativeDigits(d: string)
    requires |d| > 0 && |d| <= INT_MAX_STR_DIGITS
    requires forall i | 0 <= i < |d| :: IsDigit(d[i])
    ensures ParseInt("-" + d) == Some(-(DigitsValue(d) as int))
  {
    var m := "-" + d;
    assert m[0] == '-' && m[|m| - 1] == d[|d| - 1];
    StripKeeps(m);
    ParseUnstripped(m);
    AllDigitsCount(d);
    assert DigitGroups(d);
    NegativeBranch(d);
  }

  /** `int(str(i)) == i` for every integer of at most 4300 digits. */
  lemma ParseShowRoundTrip(i: int)
    requires |Decimal(if i < 0 then -i else i)| <= INT_MAX_STR_DIGITS
    ensures ParseInt(ShowInt(i)) == Some(i)
  {
    var n: nat := if i < 0 then -i else i;
    var d := Decimal(n);
    DecimalValue(n);
    if i < 0 {
      ParseNegativeDigits(d);
      assert ShowInt(i) == "-" + d;
    } else {
      ParseDigits(d);
      assert ShowInt(i) == d;
    }
  }

  lemma ParseZero()
    ensures ParseInt("0") == Some(0)
  {
    ParseShowRoundTrip(0);
    assert ShowInt(0) == "0";
  }

  /** What `/ok` checks beyond answering `{"ok": true}`. */
  datatype OkChecks = OkChecks(database: bool, jsWorkers: bool)

  /** The ValueError `/ok` raises when `int()` rejects `check_db`. Its text is
      a label only: `int()` words the message differently for a malformed
      literal and for one past the digit limit, and the model does not
      distinguish the two. */
  const BAD_CHECK_DB: Exc := Builtin("ValueError", "invalid literal for int() with base 10")

  /** `ok(request)`: `check_db` defaults to `"0"` and must parse as an
      integer; the database is checked iff it is nonzero, the JS workers iff
      there are JS background tasks. */
  function OkEndpoint(q: map<string, string>, jsBackgroundTasks: bool): (r: Result<OkChecks, Exc>)
    ensures "check_db" !in q ==> r == Ok(OkChecks(false, jsBackgroundTasks))
    ensures "check_db" in q && ParseInt(q["check_db"]).None? ==> r == Err(BAD_CHECK_DB)
    ensures "check_db" in q && ParseInt(q["check_db"]).Some? ==>
              r == Ok(OkChecks(ParseInt(q["check_db"]).value != 0, jsBackgroundTasks))
  {
    var raw := if "check_db" in q then q["check_db"] else "0";
    ParseZero();
    match ParseInt(raw)
    case None => Err(BAD_CHECK_DB)
    case Some(n) => Ok(OkChecks(n != 0, jsBackgroundTasks))
  }

  /** The database is checked iff `check_db` is given as a nonzero integer:
      the decimal spelling of any integer of at most 4300 digits is
      accepted, and `check_db=i` checks the database iff `i != 0`. */
  lemma OkChecksDatabaseIffNonzero(i: int, js: bool)
    requires |Decimal(if i < 0 then -i else i)| <= INT_MAX_STR_DIGITS
    ensures OkEndpoint(map["check_db" := ShowInt(i)], js) == Ok(OkChecks(i != 0, js))
    ensures OkEndpoint(map[], js) == Ok(OkChecks(false, js))
  {
    ParseShowRoundTrip(i);
  }

  /** Past the digit limit `int()` raises ValueError, so `/ok` fails for an
      over-long `check_db` instead of checking the database. */
  lemma OverlongCheckDbRejected(n: nat, js: bool)
    requires |Decimal(n)| > INT_MAX_STR_DIGITS
    ensures ParseInt(Decimal(n)) == None
    ensures OkEndpoint(map["check_db" := Decimal(n)], js) == Err(BAD_CHECK_DB)
  {
    var d := Decimal(n);
    StripKeeps(d);
    AllDigitsCount(d);
    assert d[0] != '-' && d[0] != '+';
  }
}
