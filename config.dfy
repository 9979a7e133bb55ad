/**
 * lib/config.ts: the API base URL and the route builders. Each builder is
 * checked against `ParseRoute`, an independent reading of a URL back into its
 * path segments and query parameters.
 */
module Config {
  import opened Wrappers
  import opened Text
  import opened FormQuery

  const DefaultBaseUrl: string := "http://localhost:8000"

  /** `process.env.NEXT_PUBLIC_API_BASE_URL || 'http://localhost:8000'`; `env` is the variable. */
  function ApiBaseUrl(env: Option<string>): (base: string)
    ensures base != ""
    ensures env.Some? && env.value != "" ==> base == env.value
    ensures env.None? || env.value == "" ==> base == DefaultBaseUrl
  {
    if env.Some? && env.value != "" then env.value else DefaultBaseUrl
  }

  /** `jobs({ scheduledOnly })`; `None` is an omitted option. */
  function Jobs(base: string, scheduledOnly: Option<bool>): string {
    base + "/api/jobs" + (if scheduledOnly == Some(true) then "?scheduled_only=true" else "")
  }

  function Scripts(base: string): string {
    base + "/api/scripts"
  }

  function Warehouses(base: string): string {
    base + "/api/warehouses"
  }

  function WarehouseScripts(base: string, warehouseId: int): string {
    base + "/api/warehouses/" + IntToString(warehouseId) + "/scripts"
  }

  function RunScript(base: string, scriptId: string): string {
    base + "/api/run_now/" + scriptId
  }

  function ScriptExecutionStatus(base: string, executionId: string): string {
    base + "/api/jobs/execution/" + executionId + "/status"
  }

  function ToggleJob(base: string, jobId: string): string {
    base + "/api/jobs/" + jobId + "/toggle"
  }

  function JobLogs(base: string, executionId: string): string {
    base + "/api/jobs/executions/" + executionId + "/logs"
  }

  function ScriptLastExecution(base: string, scriptId: int): string {
    base + "/api/jobs/scripts/" + IntToString(scriptId) + "/logs?skip=0&limit=1"
  }

  /** The parameters `scriptLogs` appends: `skip` first, each only when given. */
  function ScriptLogsParams(skip: Option<int>, limit: Option<int>): seq<Param> {
    (if skip.Some? then [("skip", IntToString(skip.value))] else [])
    + (if limit.Some? then [("limit", IntToString(limit.value))] else [])
  }

  /** `scriptLogs(scriptId, { skip, limit })` */
  function ScriptLogs(base: string, scriptId: int, skip: Option<int>, limit: Option<int>): string {
    var queryString := Serialize(ScriptLogsParams(skip, limit));
    base + "/api/jobs/scripts/" + IntToString(scriptId) + "/logs"
    + (if queryString != "" then "?" + queryString else "")
  }

  // ------------------------------------------------------- reading URLs back

  /** A URL under the base, read back: its path segments and its query parameters. */
  datatype Route = Route(path: seq<string>, query: seq<Param>)

  /** Cuts a string at its first `?`: the part before and the part after. */
  function CutQuery(rest: string): (string, string) {
    if '?' in rest then (rest[..FirstIndex(rest, '?')], rest[FirstIndex(rest, '?') + 1..])
    else (rest, "")
  }

  /** Reads `/seg/.../seg?query`; `None` without the leading `/` or with a malformed query. */
  function ParsePath(rest: string): Option<Route> {
    var (pathPart, queryPart) := CutQuery(rest);
    var pieces := Split(pathPart, '/');
    if |pieces| < 2 || pieces[0] != "" then None
    else
      match Parse(queryPart)
      case Some(q) => Some(Route(pieces[1..], q))
      case None => None
  }

  /** Strips `base` from a URL and reads the rest; `None` when the URL is not under `base`. */
  function ParseRoute(base: string, url: string): Option<Route> {
    if !StartsWith(url, base) then None else ParsePath(url[|base|..])
  }

  /** A string that stays one path segment: no `/` and no `?`. */
  predicate IsSegment(s: string) {
    '/' !in s && '?' !in s
  }

  function PathOf(segments: seq<string>): string {
    "/" + Join(segments, "/")
  }

  function QuerySuffix(ps: seq<Param>): string {
    if ps == [] then "" else "?" + Serialize(ps)
  }

  lemma {:induction false} JoinNoChar(xs: seq<string>, sep: string, c: char)
    requires c !in sep
    requires forall i :: 0 <= i < |xs| ==> c !in xs[i]
    ensures c !in Join(xs, sep)
  {
    if |xs| > 1 {
      JoinNoChar(xs[1..], sep, c);
    }
  }

  lemma CutQueryAt(path: string, q: string)
    requires '?' !in path
    ensures CutQuery(path + "?" + q) == (path, q)
  {
    FirstIndexConcat(path, '?', q);
    var rest := path + ['?'] + q;
    assert path + "?" + q == rest;
    assert rest[..|path|] == path;
    assert rest[|path| + 1..] == q;
  }

  lemma SerializeNil()
    ensures Serialize([]) == ""
  {
    assert EncodePairs([]) == [];
  }

  lemma CutQuerySuffix(path: string, ps: seq<Param>)
    requires '?' !in path
    ensures CutQuery(path + QuerySuffix(ps)) == (path, Serialize(ps))
  {
    if ps == [] {
      SerializeNil();
      assert QuerySuffix(ps) == "";
      assert path + "" == path;
    } else {
      assert QuerySuffix(ps) == "?" + Serialize(ps);
      CutQueryAt(path, Serialize(ps));
      assert path + QuerySuffix(ps) == path + "?" + Serialize(ps);
    }
  }

  lemma SplitPath(segments: seq<string>)
    requires forall i :: 0 <= i < |segments| ==> IsSegment(segments[i])
    ensures Split(PathOf(segments), '/') == [""] + Split(Join(segments, "/"), '/')
  {
    SplitConcat("", '/', Join(segments, "/"));
    assert "" + ['/'] + Join(segments, "/") == PathOf(segments);
  }

  lemma ParsePathBuilt(segments: seq<string>, ps: seq<Param>)
    requires |segments| >= 1
    requires forall i :: 0 <= i < |segments| ==> IsSegment(segments[i])
    ensures ParsePath(PathOf(segments) + QuerySuffix(ps)) == Some(Route(segments, ps))
  {
    JoinNoChar(segments, "/", '?');
    assert '?' !in PathOf(segments);
    CutQuerySuffix(PathOf(segments), ps);
    SplitPath(segments);
    SplitJoin(segments, '/');
    ParseSerialize(ps);
  }

  /** The reading of a URL built from segments and parameters gives them back. */
  lemma ParseBuiltRoute(base: string, segments: seq<string>, ps: seq<Param>)
    requires |segments| >= 1
    requires forall i :: 0 <= i < |segments| ==> IsSegment(segments[i])
    ensures ParseRoute(base, base + PathOf(segments) + QuerySuffix(ps)) == Some(Route(segments, ps))
  {
    var rest := PathOf(segments) + QuerySuffix(ps);
    assert base + PathOf(segments) + QuerySuffix(ps) == base + rest;
    StartsWithConcat(base, rest);
    assert (base + rest)[|base|..] == rest;
    ParsePathBuilt(segments, ps);
  }

  /** The path after an embedded id: nothing, or `/` and the remaining segments. */
  function Tail(segments: seq<string>): string {
    if segments == [] then "" else "/" + Join(segments, "/")
  }

  /** The path of `pre`, one more segment `x`, then `post`. */
  lemma MidPath(pre: seq<string>, x: string, post: seq<string>)
    requires |pre| >= 1
    ensures PathOf(pre + [x] + post) == PathOf(pre) + "/" + x + Tail(post)
  {
    var rest := [x] + post;
    assert pre + rest == pre + [x] + post;
    JoinAppend(pre, rest, "/");
    var j := Join(rest, "/");
    assert j == x + Tail(post) by {
      if post != [] {
        JoinCons(x, post, "/");
      } else {
        assert rest == [x];
      }
    }
    var p := Join(pre, "/");
    Assoc3("/", p, "/", j);
    Assoc2("/" + p + "/", x, Tail(post));
  }

  lemma Assoc3(a: string, b: string, c: string, d: string)
    ensures a + (b + c + d) == a + b + c + d
  {
  }

  lemma Assoc2(a: string, b: string, c: string)
    ensures a + (b + c) == a + b + c
  {
  }

  /** Appending two strings one after the other is appending their concatenation. */
  lemma AppendParts(x: string, a: string, b: string, ab: string)
    requires ab == a + b
    ensures x + ab == x + a + b
  {
  }

  lemma MidSegments(pre: seq<string>, x: string, post: seq<string>)
    requires forall i :: 0 <= i < |pre| ==> IsSegment(pre[i])
    requires IsSegment(x)
    requires forall i :: 0 <= i < |post| ==> IsSegment(post[i])
    ensures forall i :: 0 <= i < |pre + [x] + post| ==> IsSegment((pre + [x] + post)[i])
  {
    var segs := pre + [x] + post;
    forall i | 0 <= i < |segs|
      ensures IsSegment(segs[i])
    {
      if i < |pre| {
        assert segs[i] == pre[i];
      } else if i > |pre| {
        assert segs[i] == post[i - |pre| - 1];
      }
    }
  }

  /**
   * A URL with one variable segment `x` between two fixed stretches of path
   * reads back segment by segment. The fixed stretches are passed as text.
   */
  lemma MidRoute(base: string, pre: seq<string>, x: string, post: seq<string>, ps: seq<Param>,
                 preText: string, postText: string)
    requires |pre| >= 1
    requires forall i :: 0 <= i < |pre| ==> IsSegment(pre[i])
    requires IsSegment(x)
    requires forall i :: 0 <= i < |post| ==> IsSegment(post[i])
    requires preText == PathOf(pre) + "/"
    requires postText == Tail(post)
    ensures ParseRoute(base, base + preText + x + postText + QuerySuffix(ps)) == Some(Route(pre + [x] + post, ps))
  {
    MidPath(pre, x, post);
    MidSegments(pre, x, post);
    assert base + preText + x + postText == base + PathOf(pre + [x] + post);
    ParseBuiltRoute(base, pre + [x] + post, ps);
  }

  /** `MidRoute` without a query. */
  lemma MidRouteNoQuery(base: string, pre: seq<string>, x: string, post: seq<string>,
                        preText: string, postText: string)
    requires |pre| >= 1
    requires forall i :: 0 <= i < |pre| ==> IsSegment(pre[i])
    requires IsSegment(x)
    requires forall i :: 0 <= i < |post| ==> IsSegment(post[i])
    requires preText == PathOf(pre) + "/"
    requires postText == Tail(post)
    ensures ParseRoute(base, base + preText + x + postText) == Some(Route(pre + [x] + post, []))
  {
    MidRoute(base, pre, x, post, [], preText, postText);
    assert QuerySuffix([]) == "";
    assert base + preText + x + postText + "" == base + preText + x + postText;
  }

  lemma {:induction false} JoinAppend(a: seq<string>, b: seq<string>, sep: string)
    requires a != [] && b != []
    ensures Join(a + b, sep) == Join(a, sep) + sep + Join(b, sep)
  {
    if |a| == 1 {
      JoinCons(a[0], b, sep);
      assert a + b == [a[0]] + b;
    } else {
      JoinAppend(a[1..], b, sep);
      JoinCons(a[0], a[1..] + b, sep);
      assert a + b == [a[0]] + (a[1..] + b);
      assert a == [a[0]] + a[1..];
      JoinCons(a[0], a[1..], sep);
    }
  }

  lemma IntSegment(i: int)
    ensures IsSegment(IntToString(i))
  {
    IntToStringChars(i);
  }

  lemma SerializeTwo(p: Param, q: Param)
    ensures Serialize([p, q]) == EncodePair(p) + "&" + EncodePair(q)
  {
    assert [p, q][1..] == [q];
    assert [q][1..] == [];
    assert EncodePairs([p, q]) == [EncodePair(p)] + [EncodePair(q)];
    JoinCons(EncodePair(p), [EncodePair(q)], "&");
  }

  /** A parameter of safe characters is written `name=value`. */
  lemma SafeParam(name: string, value: string)
    requires forall i :: 0 <= i < |name| ==> IsSafeChar(name[i])
    requires forall i :: 0 <= i < |value| ==> IsSafeChar(value[i])
    ensures EncodePair((name, value)) == name + "=" + value
  {
    FormEncodeSafe(name);
    FormEncodeSafe(value);
  }

  // The fixed parameter names and values are passed as parameters so that the
  // solver does not evaluate the encoder on literal strings.

  lemma OneSafeQuery(k: string, v: string)
    requires forall i :: 0 <= i < |k| ==> IsSafeChar(k[i])
    requires forall i :: 0 <= i < |v| ==> IsSafeChar(v[i])
    ensures QuerySuffix([(k, v)]) == "?" + k + "=" + v
  {
    SafeParam(k, v);
    assert [(k, v)][1..] == [];
    assert EncodePairs([(k, v)]) == [EncodePair((k, v))];
  }

  lemma TwoSafeQuery(k1: string, v1: string, k2: string, v2: string)
    requires forall i :: 0 <= i < |k1| ==> IsSafeChar(k1[i])
    requires forall i :: 0 <= i < |v1| ==> IsSafeChar(v1[i])
    requires forall i :: 0 <= i < |k2| ==> IsSafeChar(k2[i])
    requires forall i :: 0 <= i < |v2| ==> IsSafeChar(v2[i])
    ensures QuerySuffix([(k1, v1), (k2, v2)]) == "?" + ((k1 + "=" + v1) + "&" + (k2 + "=" + v2))
  {
    SafeParam(k1, v1);
    SafeParam(k2, v2);
    SerializeTwo((k1, v1), (k2, v2));
  }

  lemma ScheduledOnlyText(k: string, v: string)
    requires k == "scheduled_only" && v == "true"
    ensures "?" + k + "=" + v == "?scheduled_only=true"
  {
  }

  lemma ScheduledOnlyQuery(k: string, v: string)
    requires k == "scheduled_only" && v == "true"
    ensures QuerySuffix([(k, v)]) == "?scheduled_only=true"
  {
    OneSafeQuery(k, v);
    ScheduledOnlyText(k, v);
  }

  lemma LastExecutionText(k1: string, v1: string, k2: string, v2: string)
    requires k1 == "skip" && v1 == "0" && k2 == "limit" && v2 == "1"
    ensures "?" + ((k1 + "=" + v1) + "&" + (k2 + "=" + v2)) == "?skip=0&limit=1"
  {
  }

  lemma LastExecutionQuery(k1: string, v1: string, k2: string, v2: string)
    requires k1 == "skip" && v1 == "0" && k2 == "limit" && v2 == "1"
    ensures QuerySuffix([(k1, v1), (k2, v2)]) == "?skip=0&limit=1"
  {
    TwoSafeQuery(k1, v1, k2, v2);
    LastExecutionText(k1, v1, k2, v2);
  }

  lemma Join3(a: string, b: string, c: string)
    ensures PathOf([a, b, c]) == "/" + (a + "/" + (b + "/" + c))
  {
    JoinCons(a, [b, c], "/");
    JoinCons(b, [c], "/");
    assert [a, b, c] == [a] + [b, c];
    assert [b, c] == [b] + [c];
  }

  /** A URL with a fixed path reads back as that path. The fixed stretches are passed as text. */
  lemma FixedRoute(base: string, segments: seq<string>, ps: seq<Param>, pathText: string, queryText: string)
    requires |segments| >= 1
    requires forall i :: 0 <= i < |segments| ==> IsSegment(segments[i])
    requires pathText == PathOf(segments)
    requires queryText == QuerySuffix(ps)
    ensures ParseRoute(base, base + pathText + queryText) == Some(Route(segments, ps))
  {
    ParseBuiltRoute(base, segments, ps);
  }

  lemma ScheduledJobsRoute(base: string, k: string, v: string)
    requires k == "scheduled_only" && v == "true"
    ensures ParseRoute(base, Jobs(base, Some(true))) == Some(Route(["api", "jobs"], [(k, v)]))
  {
    ScheduledOnlyQuery(k, v);
    FixedRoute(base, ["api", "jobs"], [(k, v)], "/api/jobs", "?scheduled_only=true");
  }

  lemma AllJobsRoute(base: string, scheduledOnly: Option<bool>)
    requires scheduledOnly != Some(true)
    ensures ParseRoute(base, Jobs(base, scheduledOnly)) == Some(Route(["api", "jobs"], []))
  {
    FixedRoute(base, ["api", "jobs"], [], "/api/jobs", "");
  }

  /** A two-segment path without a query reads back as its two segments. */
  lemma TwoSegmentRoute(base: string, a: string, b: string, pathText: string)
    requires IsSegment(a) && IsSegment(b)
    requires pathText == "/" + a + "/" + b
    ensures ParseRoute(base, base + pathText) == Some(Route([a, b], []))
  {
    JoinCons(a, [b], "/");
    assert [a, b] == [a] + [b];
    assert PathOf([a, b]) == pathText;
    NoQuery(base + pathText);
    FixedRoute(base, [a, b], [], pathText, QuerySuffix([]));
  }

  /** `scripts()` is `/api/scripts`, `warehouses()` is `/api/warehouses`. */
  lemma StaticRoutes(base: string)
    ensures ParseRoute(base, Scripts(base)) == Some(Route(["api", "scripts"], []))
    ensures ParseRoute(base, Warehouses(base)) == Some(Route(["api", "warehouses"], []))
  {
    StaticTexts();
    TwoSegmentRoute(base, "api", "scripts", "/api/scripts");
    TwoSegmentRoute(base, "api", "warehouses", "/api/warehouses");
  }

  lemma StaticTexts()
    ensures IsSegment("api") && IsSegment("scripts") && IsSegment("warehouses")
    ensures "/api/scripts" == "/" + "api" + "/" + "scripts"
    ensures "/api/warehouses" == "/" + "api" + "/" + "warehouses"
  {
  }

  /** `jobs()` is `/api/jobs`, with the one parameter `scheduled_only=true` exactly when asked for. */
  lemma JobsRoute(base: string, scheduledOnly: Option<bool>)
    ensures ParseRoute(base, Jobs(base, scheduledOnly)) ==
      Some(Route(["api", "jobs"],
                 if scheduledOnly == Some(true) then [("scheduled_only", "true")] else []))
    ensures EndsWith(Jobs(base, scheduledOnly), "?scheduled_only=true") <==> scheduledOnly == Some(true)
  {
    var url := Jobs(base, scheduledOnly);
    if scheduledOnly == Some(true) {
      ScheduledJobsRoute(base, "scheduled_only", "true");
      EndsWithConcat(base + "/api/jobs", "?scheduled_only=true");
    } else {
      AllJobsRoute(base, scheduledOnly);
      assert url[|url| - 1] == 's';
    }
  }

  /**
   * `MidRoute` with two fixed segments before the variable one, given as
   * variables so that their text is compared only once, at the call.
   */
  lemma MidRoute2(base: string, a: string, b: string, x: string, post: seq<string>, ps: seq<Param>,
                  preText: string, postText: string)
    requires IsSegment(a) && IsSegment(b) && IsSegment(x)
    requires forall i :: 0 <= i < |post| ==> IsSegment(post[i])
    requires preText == "/" + a + "/" + b + "/"
    requires postText == Tail(post)
    ensures ParseRoute(base, base + preText + x + postText + QuerySuffix(ps)) == Some(Route([a, b, x] + post, ps))
  {
    JoinCons(a, [b], "/");
    assert [a, b] == [a] + [b];
    assert PathOf([a, b]) + "/" == preText;
    MidRoute(base, [a, b], x, post, ps, preText, postText);
    assert [a, b] + [x] + post == [a, b, x] + post;
  }

  /** `MidRoute` with three fixed segments before the variable one. */
  lemma MidRoute3(base: string, a: string, b: string, c: string, x: string, post: seq<string>, ps: seq<Param>,
                  preText: string, postText: string)
    requires IsSegment(a) && IsSegment(b) && IsSegment(c) && IsSegment(x)
    requires forall i :: 0 <= i < |post| ==> IsSegment(post[i])
    requires preText == "/" + a + "/" + b + "/" + c + "/"
    requires postText == Tail(post)
    ensures ParseRoute(base, base + preText + x + postText + QuerySuffix(ps)) == Some(Route([a, b, c, x] + post, ps))
  {
    Join3(a, b, c);
    assert PathOf([a, b, c]) + "/" == preText;
    MidRoute(base, [a, b, c], x, post, ps, preText, postText);
    assert [a, b, c] + [x] + post == [a, b, c, x] + post;
  }

  /** A one-segment tail with its text. */
  lemma OneTail(d: string, text: string)
    requires text == "/" + d
    ensures Tail([d]) == text
  {
    assert Join([d], "/") == d;
  }

  /** Appending the empty query changes nothing. */
  lemma NoQuery(url: string)
    ensures url + QuerySuffix([]) == url
  {
    assert QuerySuffix([]) == "";
  }

  // The fixed text of each route, split into its segments, one lemma per route.

  lemma ApiJobsSegments()
    ensures IsSegment("api") && IsSegment("jobs")
  {
  }

  lemma WarehouseScriptsTexts()
    ensures IsSegment("api") && IsSegment("warehouses") && IsSegment("scripts")
    ensures "/api/warehouses/" == "/" + "api" + "/" + "warehouses" + "/"
    ensures Tail(["scripts"]) == "/scripts"
  {
    OneTail("scripts", "/scripts");
  }

  lemma RunScriptTexts()
    ensures IsSegment("api") && IsSegment("run_now")
    ensures "/api/run_now/" == "/" + "api" + "/" + "run_now" + "/"
    ensures Tail([]) == ""
  {
  }

  lemma StatusTexts()
    ensures IsSegment("execution") && IsSegment("status")
    ensures "/api/jobs/execution/" == "/" + "api" + "/" + "jobs" + "/" + "execution" + "/"
    ensures Tail(["status"]) == "/status"
  {
    OneTail("status", "/status");
  }

  lemma ToggleTexts()
    ensures IsSegment("toggle")
    ensures "/api/jobs/" == "/" + "api" + "/" + "jobs" + "/"
    ensures Tail(["toggle"]) == "/toggle"
  {
    OneTail("toggle", "/toggle");
  }

  lemma JobLogsTexts()
    ensures IsSegment("executions") && IsSegment("logs")
    ensures "/api/jobs/executions/" == "/" + "api" + "/" + "jobs" + "/" + "executions" + "/"
    ensures Tail(["logs"]) == "/logs"
  {
    OneTail("logs", "/logs");
  }

  lemma ScriptLogsTexts()
    ensures IsSegment("scripts") && IsSegment("logs")
    ensures "/api/jobs/scripts/" == "/" + "api" + "/" + "jobs" + "/" + "scripts" + "/"
    ensures Tail(["logs"]) == "/logs"
  {
    OneTail("logs", "/logs");
  }

  /** The warehouse id is the third path segment. */
  lemma WarehouseScriptsRoute(base: string, warehouseId: int)
    ensures ParseRoute(base, WarehouseScripts(base, warehouseId)) ==
      Some(Route(["api", "warehouses", IntToString(warehouseId), "scripts"], []))
  {
    var id := IntToString(warehouseId);
    IntSegment(warehouseId);
    WarehouseScriptsTexts();
    MidRoute2(base, "api", "warehouses", id, ["scripts"], [], "/api/warehouses/", "/scripts");
    NoQuery(base + "/api/warehouses/" + id + "/scripts");
    assert ["api", "warehouses", id] + ["scripts"] == ["api", "warehouses", id, "scripts"];
  }

  /** A script id that is one segment is the third segment of `run_now`. */
  lemma RunScriptRoute(base: string, scriptId: string)
    requires IsSegment(scriptId)
    ensures ParseRoute(base, RunScript(base, scriptId)) == Some(Route(["api", "run_now", scriptId], []))
  {
    RunScriptTexts();
    MidRoute2(base, "api", "run_now", scriptId, [], [], "/api/run_now/", "");
    NoQuery(base + "/api/run_now/" + scriptId + "");
    assert ["api", "run_now", scriptId] + [] == ["api", "run_now", scriptId];
    assert base + "/api/run_now/" + scriptId + "" == RunScript(base, scriptId);
  }

  lemma ScriptExecutionStatusRoute(base: string, executionId: string)
    requires IsSegment(executionId)
    ensures ParseRoute(base, ScriptExecutionStatus(base, executionId)) ==
      Some(Route(["api", "jobs", "execution", executionId, "status"], []))
  {
    ApiJobsSegments();
    StatusTexts();
    MidRoute3(base, "api", "jobs", "execution", executionId, ["status"], [], "/api/jobs/execution/", "/status");
    NoQuery(base + "/api/jobs/execution/" + executionId + "/status");
    assert ["api", "jobs", "execution", executionId] + ["status"] == ["api", "jobs", "execution", executionId, "status"];
  }

  lemma ToggleJobRoute(base: string, jobId: string)
    requires IsSegment(jobId)
    ensures ParseRoute(base, ToggleJob(base, jobId)) == Some(Route(["api", "jobs", jobId, "toggle"], []))
  {
    ApiJobsSegments();
    ToggleTexts();
    MidRoute2(base, "api", "jobs", jobId, ["toggle"], [], "/api/jobs/", "/toggle");
    NoQuery(base + "/api/jobs/" + jobId + "/toggle");
    assert ["api", "jobs", jobId] + ["toggle"] == ["api", "jobs", jobId, "toggle"];
  }

  lemma JobLogsRoute(base: string, executionId: string)
    requires IsSegment(executionId)
    ensures ParseRoute(base, JobLogs(base, executionId)) ==
      Some(Route(["api", "jobs", "executions", executionId, "logs"], []))
  {
    ApiJobsSegments();
    JobLogsTexts();
    MidRoute3(base, "api", "jobs", "executions", executionId, ["logs"], [], "/api/jobs/executions/", "/logs");
    NoQuery(base + "/api/jobs/executions/" + executionId + "/logs");
    assert ["api", "jobs", "executions", executionId] + ["logs"] == ["api", "jobs", "executions", executionId, "logs"];
  }

  lemma LogsQueryText()
    ensures "/logs?skip=0&limit=1" == "/logs" + "?skip=0&limit=1"
  {
  }

  lemma LastExecutionShape(base: string, scriptId: int, k1: string, v1: string, k2: string, v2: string)
    requires k1 == "skip" && v1 == "0" && k2 == "limit" && v2 == "1"
    ensures ScriptLastExecution(base, scriptId) ==
      base + "/api/jobs/scripts/" + IntToString(scriptId) + "/logs" + QuerySuffix([(k1, v1), (k2, v2)])
  {
    LastExecutionQuery(k1, v1, k2, v2);
    LogsQueryText();
    AppendParts(base + "/api/jobs/scripts/" + IntToString(scriptId), "/logs", "?skip=0&limit=1",
                "/logs?skip=0&limit=1");
  }

  lemma LastExecutionRouteWith(base: string, scriptId: int, k1: string, v1: string, k2: string, v2: string)
    requires k1 == "skip" && v1 == "0" && k2 == "limit" && v2 == "1"
    ensures ParseRoute(base, ScriptLastExecution(base, scriptId)) ==
      Some(Route(["api", "jobs", "scripts", IntToString(scriptId), "logs"], [(k1, v1), (k2, v2)]))
  {
    IntSegment(scriptId);
    LastExecutionShape(base, scriptId, k1, v1, k2, v2);
    LogsRoute(base, IntToString(scriptId), [(k1, v1), (k2, v2)]);
  }

  /** The last-execution route asks for the first log entry only, always. */
  lemma ScriptLastExecutionRoute(base: string, scriptId: int)
    ensures ParseRoute(base, ScriptLastExecution(base, scriptId)) ==
      Some(Route(["api", "jobs", "scripts", IntToString(scriptId), "logs"], [("skip", "0"), ("limit", "1")]))
  {
    LastExecutionRouteWith(base, scriptId, "skip", "0", "limit", "1");
  }

  /** The log route of a script, for any id that is one segment and any parameters. */
  lemma LogsRoute(base: string, id: string, ps: seq<Param>)
    requires IsSegment(id)
    ensures ParseRoute(base, base + "/api/jobs/scripts/" + id + "/logs" + QuerySuffix(ps)) ==
      Some(Route(["api", "jobs", "scripts", id, "logs"], ps))
  {
    ApiJobsSegments();
    ScriptLogsTexts();
    MidRoute3(base, "api", "jobs", "scripts", id, ["logs"], ps, "/api/jobs/scripts/", "/logs");
    assert ["api", "jobs", "scripts", id] + ["logs"] == ["api", "jobs", "scripts", id, "logs"];
  }

  lemma ScriptLogsShape(base: string, scriptId: int, skip: Option<int>, limit: Option<int>)
    ensures ScriptLogs(base, scriptId, skip, limit) ==
      base + "/api/jobs/scripts/" + IntToString(scriptId) + "/logs" + QuerySuffix(ScriptLogsParams(skip, limit))
  {
    SerializeEmpty(ScriptLogsParams(skip, limit));
  }

  /** Each parameter of `scriptLogs` reads back as the number given for it. */
  lemma ScriptLogsValues(skip: Option<int>, limit: Option<int>)
    ensures forall i :: 0 <= i < |ScriptLogsParams(skip, limit)| ==>
      ParseInt(ScriptLogsParams(skip, limit)[i].1) ==
        Some(if ScriptLogsParams(skip, limit)[i].0 == "skip" then skip.GetOr(0) else limit.GetOr(0))
  {
    IntToStringRoundTrip(skip.GetOr(0));
    IntToStringRoundTrip(limit.GetOr(0));
  }

  /**
   * `scriptLogs` carries `skip` and then `limit`, each exactly when given and
   * reading back as the same number.
   */
  lemma ScriptLogsRoute(base: string, scriptId: int, skip: Option<int>, limit: Option<int>)
    ensures ParseRoute(base, ScriptLogs(base, scriptId, skip, limit)) ==
      Some(Route(["api", "jobs", "scripts", IntToString(scriptId), "logs"], ScriptLogsParams(skip, limit)))
    ensures forall i :: 0 <= i < |ScriptLogsParams(skip, limit)| ==>
      ParseInt(ScriptLogsParams(skip, limit)[i].1) ==
        Some(if ScriptLogsParams(skip, limit)[i].0 == "skip" then skip.GetOr(0) else limit.GetOr(0))
  {
    IntSegment(scriptId);
    ScriptLogsShape(base, scriptId, skip, limit);
    LogsRoute(base, IntToString(scriptId), ScriptLogsParams(skip, limit));
    ScriptLogsValues(skip, limit);
  }

  /** `scriptLogs` has a `?` exactly when `skip` or `limit` is given (for a base without one). */
  lemma ScriptLogsQueryMark(base: string, scriptId: int, skip: Option<int>, limit: Option<int>)
    requires '?' !in base
    ensures '?' in ScriptLogs(base, scriptId, skip, limit) <==> (skip.Some? || limit.Some?)
  {
    IntSegment(scriptId);
    ScriptLogsShape(base, scriptId, skip, limit);
    QueryMark(base, IntToString(scriptId), ScriptLogsParams(skip, limit));
  }

  lemma QueryMark(base: string, id: string, ps: seq<Param>)
    requires '?' !in base && IsSegment(id)
    ensures '?' in base + "/api/jobs/scripts/" + id + "/logs" + QuerySuffix(ps) <==> ps != []
  {
    var x := base + "/api/jobs/scripts/" + id + "/logs";
    assert '?' !in x;
    if ps != [] {
      assert (x + QuerySuffix(ps))[|x|] == '?';
    } else {
      assert x + QuerySuffix(ps) == x;
    }
  }
}
