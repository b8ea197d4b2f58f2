/**
 * `apiFetch` and the `api` endpoint table (js/api.js:11-53). The network is not
 * modelled: what `fetch` answers is an input (`Response`), and a request is the
 * URL plus the init object that would be handed to `fetch`. The deployment
 * constant `API_BASE` is the parameter `base`.
 */
module Api {
  import opened Prelude
  import opened Text

  /** A value as `JSON.parse` produces it (numbers are integers here). */
  datatype Json =
    | JNull
    | JBool(b: bool)
    | JNum(n: int)
    | JStr(s: string)
    | JArr(items: seq<Json>)
    | JObj(fields: map<string, Json>)

  /** JavaScript truthiness of a parsed value. */
  predicate Truthy(v: Json) {
    match v
    case JNull => false
    case JBool(b) => b
    case JNum(n) => n != 0
    case JStr(s) => s != ""
    case JArr(_) => true
    case JObj(_) => true
  }

  /** `String(v)`, as `new Error(v)` applies it to its argument. */
  function JsString(v: Json): string
    decreases v
  {
    match v
    case JNull => "null"
    case JBool(b) => if b then "true" else "false"
    case JNum(n) => Decimal(n)
    case JStr(s) => s
    case JArr(items) =>
      Join(seq(|items|, i requires 0 <= i < |items| =>
        if items[i].JNull? then "" else JsString(items[i])), ",")
    case JObj(_) => "[object Object]"
  }

  /** `v.key` on a parsed value that is not `null`: only objects carry named fields. */
  function Field(v: Json, key: string): (r: Option<Json>)
    ensures r.Some? <==> v.JObj? && key in v.fields
    ensures r.Some? ==> r.value == v.fields[key]
  {
    if v.JObj? && key in v.fields then Some(v.fields[key]) else None
  }

  type Headers = map<string, string>

  const ContentType: string := "Content-Type"
  const JsonMediaType: string := "application/json"

  /** The headers `apiFetch` puts in front of the caller's. */
  const JsonHeaders: Headers := map[ContentType := JsonMediaType]

  /** The `options` argument of `apiFetch`; a key the caller leaves out is `None`. */
  datatype Options = Options(
    httpMethod: Option<string>,
    headers: Option<Headers>,
    credentials: Option<string>,
    body: Option<Json>)

  const NoOptions: Options := Options(None, None, None, None)

  /**
   * What `fetch` is called with; `httpMethod` is its `method` key, and `None` is
   * fetch's default (GET);
   * `body: Some(v)` stands for the text `JSON.stringify(v)`.
   */
  datatype Request = Request(
    url: string,
    httpMethod: Option<string>,
    credentials: string,
    headers: Headers,
    body: Option<Json>)

  /** A key of `options` spread over an earlier key of the same name: present wins. */
  function Spread<T>(earlier: T, later: Option<T>): T {
    if later.Some? then later.value else earlier
  }

  /** `options.body ? options.body : undefined`. */
  function SentBody(body: Option<Json>): (r: Option<Json>)
    ensures r.Some? <==> body.Some? && Truthy(body.value)
    ensures r.Some? ==> r == body
  {
    if body.Some? && Truthy(body.value) then body else None
  }

  /**
   * The init object of js/api.js:12-17 as written: `credentials` and the merged
   * `headers` come first, then every key of `options` is spread over them, then
   * `body` is set last.
   */
  function RequestAsWritten(base: string, path: string, opts: Options): (r: Request)
    ensures |base| <= |r.url| && r.url[..|base|] == base && r.url[|base|..] == path
    ensures r.httpMethod == opts.httpMethod
    ensures opts.credentials.None? ==> r.credentials == "include"
    ensures opts.credentials.Some? ==> r.credentials == opts.credentials.value
    ensures opts.headers.None? ==> r.headers == JsonHeaders
    ensures opts.headers.Some? ==> r.headers == opts.headers.value
    ensures r.body == SentBody(opts.body)
  {
    Request(
      base + path,
      opts.httpMethod,
      Spread("include", opts.credentials),
      Spread(JsonHeaders + opts.headers.GetOr(map[]), opts.headers),
      SentBody(opts.body))
  }

  /**
   * As written, a caller that passes any `headers` loses the JSON content type
   * the merge on js/api.js:14 was meant to keep.
   */
  lemma HeadersDropContentType()
    ensures var opts := NoOptions.(headers := Some(map["X-Requested-With" := "fetch"]));
      ContentType !in RequestAsWritten("", "/api/websites", opts).headers
  {
    var h := map["X-Requested-With" := "fetch"];
    assert ContentType != "X-Requested-With";
    assert h.Keys == {"X-Requested-With"};
  }

  /** The init object with the caller's headers merged over the JSON content type. */
  function BuildRequest(base: string, path: string, opts: Options): (r: Request)
    ensures |base| <= |r.url| && r.url[..|base|] == base && r.url[|base|..] == path
    ensures r.httpMethod == opts.httpMethod
    ensures opts.credentials.None? ==> r.credentials == "include"
    ensures opts.credentials.Some? ==> r.credentials == opts.credentials.value
    ensures ContentType in r.headers
    ensures opts.headers.Some? ==> forall k :: k in opts.headers.value ==> k in r.headers && r.headers[k] == opts.headers.value[k]
    ensures forall k :: k in r.headers ==> k == ContentType || (opts.headers.Some? && k in opts.headers.value)
    ensures (opts.headers.None? || ContentType !in opts.headers.value) ==> r.headers[ContentType] == JsonMediaType
    ensures r.body == SentBody(opts.body)
  {
    Request(
      base + path,
      opts.httpMethod,
      Spread("include", opts.credentials),
      JsonHeaders + opts.headers.GetOr(map[]),
      SentBody(opts.body))
  }

  /** When the caller passes no headers the corrected request is the one written. */
  lemma BuildRequestAsWritten(base: string, path: string, opts: Options)
    requires opts.headers.None?
    ensures BuildRequest(base, path, opts) == RequestAsWritten(base, path, opts)
  {
    assert JsonHeaders + map[] == JsonHeaders;
  }

  /** What `fetch` answered: a rejected promise, or a status and the body as `res.json()` parsed it. */
  datatype Response =
    | NetworkFailure(reason: string)
    | Http(status: int, parsed: Option<Json>)

  /** The `Error` that `apiFetch` throws: its `message` and, when set, its `status`. */
  datatype ApiError = ApiError(message: string, status: Option<int>)

  /** `res.ok`. */
  predicate IsOk(status: int) {
    200 <= status <= 299
  }

  /** `await res.json().catch(() => ({}))`: a body that does not parse is an empty object. */
  function Data(parsed: Option<Json>): Json {
    parsed.GetOr(JObj(map[]))
  }

  function GenericMessage(status: int): string {
    "Request failed (" + Decimal(status) + ")"
  }

  /** `data.error || \`Request failed (${res.status})\`` for a `data` that is not `null`. */
  function ErrorMessage(data: Json, status: int): (m: string)
    ensures Field(data, "error").Some? && Truthy(Field(data, "error").value) ==> m == JsString(Field(data, "error").value)
    ensures (Field(data, "error").None? || !Truthy(Field(data, "error").value)) ==> m == GenericMessage(status)
  {
    var e := Field(data, "error");
    if e.Some? && Truthy(e.value) then JsString(e.value) else GenericMessage(status)
  }

  /** What reading `error` of `null` throws (the wording is V8's). */
  const NullReadMessage: string := "Cannot read properties of null (reading 'error')"

  /**
   * js/api.js:19-26 as written. A failing response whose body is the JSON text
   * `null` makes `data.error` throw a `TypeError`, which has no `status`.
   */
  function ClassifyAsWritten(resp: Response): Result<Json, ApiError> {
    match resp
    case NetworkFailure(reason) => Err(ApiError(reason, None))
    case Http(status, parsed) =>
      var data := Data(parsed);
      if IsOk(status) then Ok(data)
      else if data.JNull? then Err(ApiError(NullReadMessage, None))
      else Err(ApiError(ErrorMessage(data, status), Some(status)))
  }

  /** As written, a 500 answered with the body `null` rejects without a status. */
  lemma NullBodyLosesStatus()
    ensures ClassifyAsWritten(Http(500, Some(JNull))) == Err(ApiError(NullReadMessage, None))
  {
  }

  /**
   * The classification the catch handlers rely on: every failing response
   * carries its status, and its message falls back to the generic one.
   */
  function Classify(resp: Response): (r: Result<Json, ApiError>)
    ensures r.Ok? <==> resp.Http? && IsOk(resp.status)
    ensures r.Ok? ==> r.value == Data(resp.parsed)
    ensures resp.Http? && !IsOk(resp.status) ==> r.Err? && r.error.status == Some(resp.status)
    ensures resp.Http? && !IsOk(resp.status) ==> r.error.message == ErrorMessage(Data(resp.parsed), resp.status)
    ensures resp.Http? && !IsOk(resp.status) && resp.parsed.None? ==> r.error.message == GenericMessage(resp.status)
    ensures resp.Http? && !IsOk(resp.status) && resp.parsed == Some(JNull) ==> r.error.message == GenericMessage(resp.status)
    ensures resp.NetworkFailure? ==> r == Err(ApiError(resp.reason, None))
  {
    match resp
    case NetworkFailure(reason) => Err(ApiError(reason, None))
    case Http(status, parsed) =>
      var data := Data(parsed);
      if IsOk(status) then Ok(data) else Err(ApiError(ErrorMessage(data, status), Some(status)))
  }

  /** Both classifications agree on everything but a failing `null` body. */
  lemma ClassifyAsWrittenAgrees(resp: Response)
    requires !(resp.Http? && !IsOk(resp.status) && Data(resp.parsed) == JNull)
    ensures ClassifyAsWritten(resp) == Classify(resp)
  {
  }

  /** The calls of the `api` object that go through `apiFetch`. */
  datatype Call =
    | Register(body: Json)
    | Login(body: Json)
    | Logout
    | Me
    | GetWebsites
    | AddWebsite(body: Json)
    | DeleteWebsite(id: string)
    | Realtime(siteId: string)
    | Overview(siteId: string, startDate: string, endDate: string)
    | Audience(siteId: string)
    | Acquisition(siteId: string)
    | Behavior(siteId: string)

  predicate IsAnalytics(c: Call) {
    c.Realtime? || c.Overview? || c.Audience? || c.Acquisition? || c.Behavior?
  }

  const Post: Option<string> := Some("POST")
  const Delete: Option<string> := Some("DELETE")

  /** The path and options each call passes to `apiFetch`; values are interpolated unencoded. */
  function Route(c: Call): (r: (string, Options))
    ensures r.1.httpMethod == Post <==> c.Register? || c.Login? || c.Logout? || c.AddWebsite?
    ensures r.1.httpMethod == Delete <==> c.DeleteWebsite?
    ensures r.1.httpMethod.None? <==> c.Me? || c.GetWebsites? || IsAnalytics(c)
    ensures r.1.body.Some? <==> c.Register? || c.Login? || c.AddWebsite?
    ensures r.1.body.Some? ==> r.1.body.value == c.body
    ensures r.1.headers.None? && r.1.credentials.None?
  {
    match c
    case Register(body) => ("/api/auth/register", NoOptions.(httpMethod := Post, body := Some(body)))
    case Login(body) => ("/api/auth/login", NoOptions.(httpMethod := Post, body := Some(body)))
    case Logout => ("/api/auth/logout", NoOptions.(httpMethod := Post))
    case Me => ("/api/auth/me", NoOptions)
    case GetWebsites => ("/api/websites", NoOptions)
    case AddWebsite(body) => ("/api/websites", NoOptions.(httpMethod := Post, body := Some(body)))
    case DeleteWebsite(id) => ("/api/websites/" + id, NoOptions.(httpMethod := Delete))
    case Realtime(siteId) => ("/api/analytics/realtime?siteId=" + siteId, NoOptions)
    case Overview(siteId, startDate, endDate) =>
      ("/api/analytics/overview?siteId=" + siteId + "&startDate=" + startDate + "&endDate=" + endDate, NoOptions)
    case Audience(siteId) => ("/api/analytics/audience?siteId=" + siteId, NoOptions)
    case Acquisition(siteId) => ("/api/analytics/acquisition?siteId=" + siteId, NoOptions)
    case Behavior(siteId) => ("/api/analytics/behavior?siteId=" + siteId, NoOptions)
  }

  /** The request a call sends. */
  function Send(base: string, c: Call): Request {
    BuildRequest(base, Route(c).0, Route(c).1)
  }

  /**
   * No endpoint passes headers, so every request the dashboard sends is the
   * one js/api.js:12-17 builds, and it is sent as JSON with cookies.
   */
  lemma SendAsWritten(base: string, c: Call)
    ensures Send(base, c) == RequestAsWritten(base, Route(c).0, Route(c).1)
    ensures Send(base, c).credentials == "include"
    ensures Send(base, c).headers == JsonHeaders
  {
    BuildRequestAsWritten(base, Route(c).0, Route(c).1);
  }

  /** The text after the last `/` of a path (`path.split('/').pop()`). */
  function LastSegment(path: string): string
    decreases |path|
  {
    if path == [] || path[|path| - 1] == '/' then []
    else LastSegment(path[..|path| - 1]) + [path[|path| - 1]]
  }

  lemma {:induction false} LastSegmentAfter(a: string, b: string)
    requires '/' !in b
    ensures LastSegment(a + "/" + b) == b
    decreases |b|
  {
    var t := a + "/" + b;
    if b == [] {
      assert t[|t| - 1] == '/';
    } else {
      var b' := b[..|b| - 1];
      assert t[..|t| - 1] == a + "/" + b';
      assert t[|t| - 1] == b[|b| - 1];
      LastSegmentAfter(a, b');
      assert b' + [b[|b| - 1]] == b;
    }
  }

  /** `deleteWebsite(id)` sends DELETE to a path whose last segment is the id. */
  lemma DeleteWebsiteTarget(base: string, id: string)
    requires '/' !in id
    ensures Send(base, DeleteWebsite(id)).httpMethod == Delete
    ensures LastSegment(Route(DeleteWebsite(id)).0) == id
  {
    LastSegmentAfter("/api/websites", id);
    assert "/api/websites/" + id == "/api/websites" + "/" + id;
  }

  /** One `name=value` pair of a query, cut at the first `=`. */
  function NameValue(part: string): (string, string) {
    var (name, value) := SplitFirst(part, '=');
    (name, value.GetOr(""))
  }

  /**
   * The query of a URL as a server reads it: the text after the first `?`, cut at
   * every `&` into pairs (the splitting of the application/x-www-form-urlencoded
   * parser, section 5.1 of the WHATWG URL Standard, without percent-decoding).
   */
  function QueryParams(url: string): seq<(string, string)> {
    var (_, query) := SplitFirst(url, '?');
    if query.None? then []
    else
      var parts := Split(query.value, '&');
      seq(|parts|, i requires 0 <= i < |parts| => NameValue(parts[i]))
  }

  lemma PairOf(name: string, v: string)
    requires '=' !in name
    ensures NameValue(name + "=" + v) == (name, v)
  {
    SplitFirstAt(name, '=', v);
  }

  /** A path with one parameter whose value holds no `&` reads back as that one pair. */
  lemma SingleParam(a: string, name: string, v: string)
    requires '?' !in a && '&' !in name && '=' !in name && '&' !in v
    ensures QueryParams(a + "?" + name + "=" + v) == [(name, v)]
  {
    var q := name + "=" + v;
    assert a + "?" + name + "=" + v == a + ['?'] + q;
    SplitFirstAt(a, '?', q);
    assert '&' !in q;
    SplitWhole(q, '&');
    PairOf(name, v);
  }

  /** Three parameters whose values hold no `&` read back as three pairs, in order. */
  lemma ThreeParams(a: string, n1: string, v1: string, n2: string, v2: string, n3: string, v3: string)
    requires '?' !in a
    requires '&' !in n1 && '=' !in n1 && '&' !in v1
    requires '&' !in n2 && '=' !in n2 && '&' !in v2
    requires '&' !in n3 && '=' !in n3 && '&' !in v3
    ensures QueryParams(a + "?" + n1 + "=" + v1 + "&" + n2 + "=" + v2 + "&" + n3 + "=" + v3)
      == [(n1, v1), (n2, v2), (n3, v3)]
  {
    var p1, p2, p3 := n1 + "=" + v1, n2 + "=" + v2, n3 + "=" + v3;
    var q := p1 + ['&'] + p2 + ['&'] + p3;
    assert a + "?" + n1 + "=" + v1 + "&" + n2 + "=" + v2 + "&" + n3 + "=" + v3 == a + ['?'] + q;
    SplitFirstAt(a, '?', q);
    assert '&' !in p1 && '&' !in p2 && '&' !in p3;
    SplitAt(p1, '&', p2 + ['&'] + p3);
    assert p1 + ['&'] + (p2 + ['&'] + p3) == q;
    SplitAt(p2, '&', p3);
    SplitWhole(p3, '&');
    PairOf(n1, v1);
    PairOf(n2, v2);
    PairOf(n3, v3);
  }

  lemma AnalyticsPrefixes()
    ensures '?' !in "/api/analytics/realtime" && '?' !in "/api/analytics/overview"
    ensures '?' !in "/api/analytics/audience" && '?' !in "/api/analytics/acquisition"
    ensures '?' !in "/api/analytics/behavior"
    ensures '&' !in "siteId" && '=' !in "siteId"
    ensures '&' !in "startDate" && '=' !in "startDate" && '&' !in "endDate" && '=' !in "endDate"
  {
  }

  /** Every analytics path carries exactly `siteId` as its query when the id holds no `&`. */
  lemma AnalyticsQuery(c: Call)
    requires IsAnalytics(c) && !c.Overview? && '&' !in c.siteId
    ensures QueryParams(Route(c).0) == [("siteId", c.siteId)]
  {
    AnalyticsPrefixes();
    var prefix := match c
      case Realtime(_) => "/api/analytics/realtime"
      case Audience(_) => "/api/analytics/audience"
      case Acquisition(_) => "/api/analytics/acquisition"
      case _ => "/api/analytics/behavior";
    assert Route(c).0 == prefix + "?" + "siteId" + "=" + c.siteId;
    SingleParam(prefix, "siteId", c.siteId);
  }

  /** The overview path carries `siteId`, `startDate` and `endDate`, in that order. */
  lemma OverviewQuery(siteId: string, startDate: string, endDate: string)
    requires '&' !in siteId && '&' !in startDate && '&' !in endDate
    ensures QueryParams(Route(Overview(siteId, startDate, endDate)).0)
      == [("siteId", siteId), ("startDate", startDate), ("endDate", endDate)]
  {
    AnalyticsPrefixes();
    assert Route(Overview(siteId, startDate, endDate)).0
      == "/api/analytics/overview" + "?" + "siteId" + "=" + siteId + "&" + "startDate" + "=" + startDate
        + "&" + "endDate" + "=" + endDate;
    ThreeParams("/api/analytics/overview", "siteId", siteId, "startDate", startDate, "endDate", endDate);
  }

  /** Two parameters whose values hold no `&` read back as two pairs, in order. */
  lemma TwoParams(a: string, n1: string, v1: string, n2: string, v2: string)
    requires '?' !in a
    requires '&' !in n1 && '=' !in n1 && '&' !in v1
    requires '&' !in n2 && '=' !in n2 && '&' !in v2
    ensures QueryParams(a + "?" + n1 + "=" + v1 + "&" + n2 + "=" + v2) == [(n1, v1), (n2, v2)]
  {
    var p1, p2 := n1 + "=" + v1, n2 + "=" + v2;
    var q := p1 + ['&'] + p2;
    assert a + "?" + n1 + "=" + v1 + "&" + n2 + "=" + v2 == a + ['?'] + q;
    SplitFirstAt(a, '?', q);
    assert '&' !in p1 && '&' !in p2;
    SplitAt(p1, '&', p2);
    SplitWhole(p2, '&');
    PairOf(n1, v1);
    PairOf(n2, v2);
  }

  /**
   * Because values are not encoded, a site id of the form `v1&siteId=v2` reaches
   * the server as two `siteId` parameters.
   */
  lemma SiteIdInjectsParameter(v1: string, v2: string)
    requires '&' !in v1 && '&' !in v2
    ensures QueryParams(Route(Realtime(v1 + "&siteId=" + v2)).0) == [("siteId", v1), ("siteId", v2)]
  {
    AnalyticsPrefixes();
    assert Route(Realtime(v1 + "&siteId=" + v2)).0
      == "/api/analytics/realtime" + "?" + "siteId" + "=" + v1 + "&" + "siteId" + "=" + v2;
    TwoParams("/api/analytics/realtime", "siteId", v1, "siteId", v2);
  }
}
