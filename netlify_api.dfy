/** lib/netlify-api.ts: the authenticated upstream call `fetchNetlify`, the
    response normalisations, the last-deploy enrichment, the deploy query,
    site creation with its environment variables, and the active-build
    aggregation. Every upstream exchange is an input value: `Transport` is
    what the HTTP call produced, and the aggregators receive the outcomes of
    `fetchNetlify` for the list call and, as a function of the site, for each
    per-site call. */
module NetlifyApi {
  import opened Wrappers
  import opened Json

  const NETLIFY_API_URL: string := "https://api.netlify.com/api/v1"

  const MISSING_TOKEN: string := "Netlify token is not available"
  const CONNECTIVITY: string :=
    "Unable to connect to Netlify API. Please check your internet connection and ensure you can access " + NETLIFY_API_URL
  const CONNECTION_FAILED: string :=
    "Connection to Netlify API failed. Please check your internet connection and proxy settings."
  const HTTP_FAILED: string := "Netlify API request failed"
  const UNEXPECTED: string := "Unexpected error when calling Netlify API: "

  // ---------------------------------------------------------------------------
  // fetchNetlify

  datatype RequestOptions = RequestOptions(verb: Option<string>, headers: map<string, string>, body: Option<string>)

  const NoOptions: RequestOptions := RequestOptions(None, map[], None)

  datatype Request = Request(url: string, verb: Option<string>, headers: map<string, string>, body: Option<string>)

  datatype ErrorKind = PlainError | TypeError | SyntaxError | OtherError

  /** A thrown JavaScript error: its class, its `message` and its `code` property. */
  datatype JsError = JsError(kind: ErrorKind, message: string, code: Json)

  /** What the HTTP call produced: a response (status, status text, header
      entries and the result of parsing its body as JSON) or a thrown error. */
  datatype Transport =
    | Responded(status: int, statusText: string, headers: seq<(string, string)>, body: Result<Json, string>)
    | Threw(error: JsError)

  /** The value `fetchNetlify` resolves to: `{success: true}`,
      `{success: true, message}` or `{data, headers}`. */
  datatype Reply = NoContent | Deleted(message: Json) | Payload(data: Json, headers: seq<(string, string)>)

  /** `!token` is false: a token is configured and non-empty. */
  predicate Present(setting: Option<string>) {
    setting.Some? && setting.value != ""
  }

  /** `{Authorization, "Content-Type", ...options.headers}`. */
  function RequestHeaders(token: string, extra: map<string, string>): map<string, string> {
    map["Authorization" := "Bearer " + token, "Content-Type" := "application/json"] + extra
  }

  /** The request `fetchNetlify` issues, or the error it throws before issuing any. */
  function PrepareRequest(token: Option<string>, endpoint: string, options: RequestOptions): (r: Result<Request, string>)
    ensures r.Failure? <==> !Present(token)
    ensures r.Failure? ==> r.error == MISSING_TOKEN
    ensures r.Success? ==> r.value.url == NETLIFY_API_URL + endpoint
  {
    if !Present(token) then Failure(MISSING_TOKEN)
    else Success(Request(NETLIFY_API_URL + endpoint, options.verb,
                         RequestHeaders(token.value, options.headers), options.body))
  }

  predicate IsOk(status: int) {
    200 <= status <= 299
  }

  /** The error thrown for a non-ok response: `errorData.message ||
      JSON.stringify(errorData) || <status line>`, where an unparsable body
      reads as `{}` and a `null` body makes `errorData.message` throw. */
  function HttpError(status: int, statusText: string, body: Result<Json, string>, stringify: Json -> string): JsError {
    var errorData := if body.Success? then body.value else Obj([]);
    if Nullish(errorData) then JsError(TypeError, ReadError(errorData, "message"), Undefined)
    else
      var m := Get(errorData, "message");
      var text :=
        if Truthy(m) then JsString(m)
        else if stringify(errorData) != "" then stringify(errorData)
        else HTTP_FAILED + ": " + IntToString(status) + " " + statusText;
      JsError(PlainError, text, Undefined)
  }

  /** The value of an ok response, or the error reading its body throws. */
  function OkReply(status: int, headers: seq<(string, string)>, body: Result<Json, string>, options: RequestOptions): Result<Reply, JsError> {
    if status == 204 then Success(NoContent)
    else match body
      case Failure(m) => Failure(JsError(SyntaxError, m, Undefined))
      case Success(data) =>
        if options.verb == Some("DELETE") then
          if Nullish(data) then Failure(JsError(TypeError, ReadError(data, "code"), Undefined))
          else if Get(data, "code") == Num(0) then Success(Deleted(Get(data, "message")))
          else Success(Payload(data, headers))
        else Success(Payload(data, headers))
  }

  predicate ConnectivityText(message: string) {
    Contains(message, "fetch failed") || Contains(message, "network") || Contains(message, "Failed to fetch")
  }

  /** The message the `catch` block rethrows for an error caught inside `fetchNetlify`. */
  function Classify(e: JsError): string {
    if e.kind == TypeError && ConnectivityText(e.message) then CONNECTIVITY
    else if e.code == Str("ENOTFOUND") || e.code == Str("ECONNREFUSED") then CONNECTION_FAILED
    else if Contains(e.message, HTTP_FAILED) then e.message
    else UNEXPECTED + e.message
  }

  /** `fetchNetlify(endpoint, options)` when the call produced `transport`;
      `stringify` is `JSON.stringify`. A failure carries the thrown message. */
  function FetchNetlify(token: Option<string>, endpoint: string, options: RequestOptions,
                        transport: Transport, stringify: Json -> string): Result<Reply, string>
  {
    if !Present(token) then Failure(MISSING_TOKEN)
    else match transport
      case Threw(e) => Failure(Classify(e))
      case Responded(status, statusText, headers, body) =>
        if !IsOk(status) then Failure(Classify(HttpError(status, statusText, body, stringify)))
        else match OkReply(status, headers, body, options)
          case Success(r) => Success(r)
          case Failure(e) => Failure(Classify(e))
  }

  /** Without a token `fetchNetlify` throws before any request, whatever the network would do. */
  lemma MissingTokenFailsFirst(token: Option<string>, endpoint: string, options: RequestOptions,
                               t1: Transport, t2: Transport, stringify: Json -> string)
    requires !Present(token)
    ensures PrepareRequest(token, endpoint, options) == Failure(MISSING_TOKEN)
    ensures FetchNetlify(token, endpoint, options, t1, stringify) == Failure(MISSING_TOKEN)
    ensures FetchNetlify(token, endpoint, options, t1, stringify) == FetchNetlify(token, endpoint, options, t2, stringify)
  {
  }

  /** The default headers are sent unless the caller gives a header of the
      same name, which then wins; every caller header is sent as given. */
  lemma HeaderMerge(token: string, extra: map<string, string>)
    ensures var h := RequestHeaders(token, extra);
      && h.Keys == extra.Keys + {"Authorization", "Content-Type"}
      && (forall k :: k in extra ==> h[k] == extra[k])
      && ("Authorization" !in extra ==> h["Authorization"] == "Bearer " + token)
      && ("Content-Type" !in extra ==> h["Content-Type"] == "application/json")
  {
  }

  /** The three success shapes of an ok response. */
  lemma SuccessShapes(token: Option<string>, endpoint: string, options: RequestOptions,
                      status: int, statusText: string, headers: seq<(string, string)>, data: Json, stringify: Json -> string)
    requires Present(token) && IsOk(status)
    ensures status == 204 ==>
      FetchNetlify(token, endpoint, options, Responded(status, statusText, headers, Success(data)), stringify) == Success(NoContent)
    ensures status != 204 && options.verb == Some("DELETE") && data.Obj? && Get(data, "code") == Num(0) ==>
      FetchNetlify(token, endpoint, options, Responded(status, statusText, headers, Success(data)), stringify)
        == Success(Deleted(Get(data, "message")))
    ensures status != 204 && options.verb != Some("DELETE") ==>
      FetchNetlify(token, endpoint, options, Responded(status, statusText, headers, Success(data)), stringify)
        == Success(Payload(data, headers))
    ensures status != 204 && options.verb == Some("DELETE") && !Nullish(data) && Get(data, "code") != Num(0) ==>
      FetchNetlify(token, endpoint, options, Responded(status, statusText, headers, Success(data)), stringify)
        == Success(Payload(data, headers))
  {
  }

  /** The message a non-ok response yields: the body's `message`, else the
      serialised body (never empty, so the status-line fallback is never
      reached), rewrapped as an unexpected error unless it already contains
      "Netlify API request failed". */
  lemma NonOkMessage(token: Option<string>, endpoint: string, options: RequestOptions,
                     status: int, statusText: string, headers: seq<(string, string)>, body: Result<Json, string>,
                     stringify: Json -> string)
    requires Present(token) && !IsOk(status)
    requires forall j :: stringify(j) != ""
    requires body.Success? ==> !Nullish(body.value)
    ensures var errorData := if body.Success? then body.value else Obj([]);
      var m := Get(errorData, "message");
      var text := if Truthy(m) then JsString(m) else stringify(errorData);
      FetchNetlify(token, endpoint, options, Responded(status, statusText, headers, body), stringify)
        == Failure(if Contains(text, HTTP_FAILED) then text else UNEXPECTED + text)
  {
  }

  /** Thrown transport errors: a TypeError mentioning a failed fetch or the
      network gives the connectivity message; otherwise an ENOTFOUND or
      ECONNREFUSED code gives the connection message. */
  lemma NetworkErrors(token: Option<string>, endpoint: string, options: RequestOptions, e: JsError, stringify: Json -> string)
    requires Present(token)
    ensures e.kind == TypeError && ConnectivityText(e.message) ==>
      FetchNetlify(token, endpoint, options, Threw(e), stringify) == Failure(CONNECTIVITY)
    ensures !(e.kind == TypeError && ConnectivityText(e.message)) && e.code in {Str("ENOTFOUND"), Str("ECONNREFUSED")} ==>
      FetchNetlify(token, endpoint, options, Threw(e), stringify) == Failure(CONNECTION_FAILED)
  {
  }

  /** `Object.fromEntries(response.headers.entries())`: a repeated name keeps
      its first position and its last value. */
  function FromEntries(h: seq<(string, string)>): seq<(string, Json)> {
    if h == [] then [] else With(FromEntries(h[..|h| - 1]), h[|h| - 1].0, Str(h[|h| - 1].1))
  }

  /** A header name reads as absent exactly when no entry has it, and
      otherwise as the value of its last entry. */
  lemma {:induction false} FromEntriesLookup(h: seq<(string, string)>, name: string, i: int)
    requires 0 <= i < |h| && h[i].0 == name
    requires forall j :: i < j < |h| ==> h[j].0 != name
    ensures Lookup(FromEntries(h), name) == Some(Str(h[i].1))
    decreases |h|
  {
    var p := h[..|h| - 1];
    if i == |h| - 1 {
      LookupWithSame(FromEntries(p), name, Str(h[i].1));
    } else {
      LookupWithOther(FromEntries(p), h[|h| - 1].0, Str(h[|h| - 1].1), name);
      FromEntriesLookup(p, name, i);
    }
  }

  lemma {:induction false} FromEntriesAbsent(h: seq<(string, string)>, name: string)
    requires forall j :: 0 <= j < |h| ==> h[j].0 != name
    ensures Lookup(FromEntries(h), name) == None
    decreases |h|
  {
    if h != [] {
      var p := h[..|h| - 1];
      LookupWithOther(FromEntries(p), h[|h| - 1].0, Str(h[|h| - 1].1), name);
      FromEntriesAbsent(p, name);
    }
  }

  /** The `headers` object of a resolved `{data, headers}` value. */
  function HeadersObject(h: seq<(string, string)>): Json {
    Obj(FromEntries(h))
  }

  // ---------------------------------------------------------------------------
  // Response normalisation and the last-deploy enrichment

  /** `response.data`: the payload, or `undefined` for the success markers. */
  function ReplyData(r: Reply): Json {
    if r.Payload? then r.data else Undefined
  }

  /** An array is kept, a non-null object with an `id` becomes a one-element
      list, anything else the empty list. */
  function AsList(v: Json): (r: seq<Json>)
    ensures !v.Arr? ==> |r| <= 1
  {
    if v.Arr? then v.items
    else if Truthy(v) && IsObjectType(v) && Has(v, "id") then [v]
    else []
  }

  /** The three cases of the normalisation: an array is kept as it is, a
      non-null object with an `id` becomes a one-element list, and anything
      else becomes the empty list. */
  lemma AsListRules(v: Json)
    ensures v.Arr? ==> AsList(v) == v.items
    ensures !v.Arr? && v.Obj? && Has(v, "id") ==> AsList(v) == [v]
    ensures !v.Arr? && !(v.Obj? && Has(v, "id")) ==> AsList(v) == []
  {
  }

  /** Normalising an already normalised list changes nothing. */
  lemma AsListIdempotent(v: Json)
    ensures AsList(Arr(AsList(v))) == AsList(v)
  {
  }

  /** `Promise.all` over settled per-item results: all values in order, or the
      first rejection. */
  function All<T>(rs: seq<Result<T, string>>): (r: Result<seq<T>, string>)
    ensures r.Success? <==> forall i :: 0 <= i < |rs| ==> rs[i].Success?
    ensures r.Success? ==> |r.value| == |rs| && forall i :: 0 <= i < |rs| ==> r.value[i] == rs[i].value
    ensures r.Failure? ==> exists i :: 0 <= i < |rs| && rs[i] == Failure(r.error)
  {
    if rs == [] then Success([])
    else match rs[0]
      case Failure(e) => Failure(e)
      case Success(x) =>
        match All(rs[1..])
        case Failure(e) => Failure(e)
        case Success(xs) => Success([x] + xs)
  }

  /** `{...site, lastDeploy, last_deploy_time}`. */
  function Enriched(site: Json, lastDeploy: Json, time: Json): Json {
    Obj(With(With(Spread(site), "lastDeploy", lastDeploy), "last_deploy_time", time))
  }

  /** The enriched site carries the two new fields and otherwise reads as the site. */
  lemma EnrichedFields(site: Json, lastDeploy: Json, time: Json, key: string)
    ensures Get(Enriched(site, lastDeploy, time), "lastDeploy") == lastDeploy
    ensures Get(Enriched(site, lastDeploy, time), "last_deploy_time") == time
    ensures key != "lastDeploy" && key != "last_deploy_time" ==> Get(Enriched(site, lastDeploy, time), key) == Get(site, key)
  {
    var inner := With(Spread(site), "lastDeploy", lastDeploy);
    LookupWithSame(inner, "last_deploy_time", time);
    LookupWithOther(inner, "last_deploy_time", time, "lastDeploy");
    LookupWithSame(Spread(site), "lastDeploy", lastDeploy);
    if key != "lastDeploy" && key != "last_deploy_time" {
      LookupWithOther(inner, "last_deploy_time", time, key);
      LookupWithOther(Spread(site), "lastDeploy", lastDeploy, key);
    }
  }

  /** `lastDeploy` and `last_deploy_time` for one site, from its deploy lookup. */
  function LastDeployOf(lookup: Result<Reply, string>): (Json, Json) {
    match lookup
    case Failure(_) => (Null, Null)
    case Success(r) =>
      var deploys := AsList(ReplyData(r));
      var last := if |deploys| > 0 then deploys[0] else Null;
      (last, if Truthy(last) then Get(last, "created_at") else Null)
  }

  /** The per-site step; a nullish site throws on `site.id` in both the `try`
      and the `catch`, so its promise rejects. */
  function EnrichSite(site: Json, lookup: Json -> Result<Reply, string>): Result<Json, string> {
    if Nullish(site) then Failure(ReadError(site, "id"))
    else
      var (last, time) := LastDeployOf(lookup(site));
      Success(Enriched(site, last, time))
  }

  /** `getSitesWithLastDeploy()`. */
  function GetSitesWithLastDeploy(sitesReply: Result<Reply, string>, lookup: Json -> Result<Reply, string>): Result<seq<Json>, string> {
    match sitesReply
    case Failure(m) => Failure(m)
    case Success(r) =>
      var sites := AsList(ReplyData(r));
      if |sites| == 0 then Success([])
      else All(seq(|sites|, i requires 0 <= i < |sites| => EnrichSite(sites[i], lookup)))
  }

  /** The enrichment keeps the length and order of the site list, gives each
      site its first deploy (or null) and that deploy's `created_at`, turns a
      failed lookup into null/null, and fails only when a site is nullish. */
  lemma {:induction false} SitesWithLastDeploy(r: Reply, lookup: Json -> Result<Reply, string>)
    ensures var sites := AsList(ReplyData(r));
      var out := GetSitesWithLastDeploy(Success(r), lookup);
      && (out.Success? <==> forall i :: 0 <= i < |sites| ==> !Nullish(sites[i]))
      && (out.Success? ==> |out.value| == |sites|)
      && (out.Success? ==> forall i :: 0 <= i < |sites| ==>
            out.value[i] == Enriched(sites[i], LastDeployOf(lookup(sites[i])).0, LastDeployOf(lookup(sites[i])).1))
  {
    var sites := AsList(ReplyData(r));
    if |sites| > 0 {
      var rs := seq(|sites|, i requires 0 <= i < |sites| => EnrichSite(sites[i], lookup));
      forall i | 0 <= i < |sites|
        ensures rs[i].Success? <==> !Nullish(sites[i])
        ensures rs[i].Success? ==>
          rs[i].value == Enriched(sites[i], LastDeployOf(lookup(sites[i])).0, LastDeployOf(lookup(sites[i])).1)
      {
        assert rs[i] == EnrichSite(sites[i], lookup);
      }
    }
  }

  /** A failed lookup gives null in both fields; a successful one gives the
      first deploy of the normalised list, or null when there is none. */
  lemma LastDeployRules(lookup: Result<Reply, string>)
    ensures lookup.Failure? ==> LastDeployOf(lookup) == (Null, Null)
    ensures lookup.Success? && |AsList(ReplyData(lookup.value))| > 0 ==>
      LastDeployOf(lookup).0 == AsList(ReplyData(lookup.value))[0]
    ensures lookup.Success? && AsList(ReplyData(lookup.value)) == [] ==> LastDeployOf(lookup) == (Null, Null)
    ensures !Truthy(LastDeployOf(lookup).0) ==> LastDeployOf(lookup).1 == Null
    ensures Truthy(LastDeployOf(lookup).0) ==> LastDeployOf(lookup).1 == Get(LastDeployOf(lookup).0, "created_at")
  {
  }

  /** The example of two sites `a` and `b`, where the deploy lookup of `b` fails. */
  lemma TwoSiteExample(t1: string, lookup: Json -> Result<Reply, string>)
    requires lookup(Obj([("id", Str("a"))])) == Success(Payload(Arr([Obj([("state", Str("ready")), ("created_at", Str(t1))])]), []))
    requires lookup(Obj([("id", Str("b"))])).Failure?
    ensures GetSitesWithLastDeploy(Success(Payload(Arr([Obj([("id", Str("a"))]), Obj([("id", Str("b"))])]), [])), lookup)
        == Success([Obj([("id", Str("a")), ("lastDeploy", Obj([("state", Str("ready")), ("created_at", Str(t1))])),
                         ("last_deploy_time", Str(t1))]),
                    Obj([("id", Str("b")), ("lastDeploy", Null), ("last_deploy_time", Null)])])
  {
    var a := Obj([("id", Str("a"))]);
    var b := Obj([("id", Str("b"))]);
    var deploy := Obj([("state", Str("ready")), ("created_at", Str(t1))]);
    var r := Payload(Arr([a, b]), []);
    SitesWithLastDeploy(r, lookup);
    LookupFirst(deploy.fields, "created_at", 1);
    assert LastDeployOf(lookup(a)) == (deploy, Str(t1));
    assert LastDeployOf(lookup(b)) == (Null, Null);
    WithAbsent(a.fields, "lastDeploy", deploy);
    WithAbsent(a.fields + [("lastDeploy", deploy)], "last_deploy_time", Str(t1));
    WithAbsent(b.fields, "lastDeploy", Null);
    WithAbsent(b.fields + [("lastDeploy", Null)], "last_deploy_time", Null);
    assert AsList(ReplyData(r)) == [a, b];
    var out := GetSitesWithLastDeploy(Success(r), lookup);
    assert out.Success?;
    assert out.value[0] == Enriched(a, deploy, Str(t1));
    assert out.value[1] == Enriched(b, Null, Null);
    assert Enriched(a, deploy, Str(t1)) == Obj([("id", Str("a")), ("lastDeploy", deploy), ("last_deploy_time", Str(t1))]);
    assert Enriched(b, Null, Null) == Obj([("id", Str("b")), ("lastDeploy", Null), ("last_deploy_time", Null)]);
    assert |out.value| == 2;
    assert out.value == [Obj([("id", Str("a")), ("lastDeploy", deploy), ("last_deploy_time", Str(t1))]),
                         Obj([("id", Str("b")), ("lastDeploy", Null), ("last_deploy_time", Null)])];
  }

  // ---------------------------------------------------------------------------
  // getSiteDeploys

  datatype DeployFilters = DeployFilters(production: Option<bool>, state: Option<string>, branch: Option<string>)

  const NoFilters: DeployFilters := DeployFilters(None, None, None)

  /** The first value of a query parameter, as `URLSearchParams.get` returns it. */
  function Param(query: seq<(string, string)>, key: string): Option<string> {
    if query == [] then None
    else if query[0].0 == key then Some(query[0].1)
    else Param(query[1..], key)
  }

  /** A parameter reads as the value of its first occurrence. */
  lemma {:induction false} ParamFirst(query: seq<(string, string)>, key: string, i: int)
    requires 0 <= i < |query| && query[i].0 == key
    requires forall j :: 0 <= j < i ==> query[j].0 != key
    ensures Param(query, key) == Some(query[i].1)
  {
    if i > 0 {
      ParamFirst(query[1..], key, i - 1);
    }
  }

  lemma {:induction false} ParamAbsent(query: seq<(string, string)>, key: string)
    requires forall j :: 0 <= j < |query| ==> query[j].0 != key
    ensures Param(query, key) == None
  {
    if query != [] {
      ParamAbsent(query[1..], key);
    }
  }

  /** A parameter is read from the first part that has it. */
  lemma {:induction false} ParamAppend(a: seq<(string, string)>, b: seq<(string, string)>, key: string)
    ensures Param(a + b, key) == if Param(a, key).Some? then Param(a, key) else Param(b, key)
  {
    if a != [] {
      assert (a + b)[1..] == a[1..] + b;
      ParamAppend(a[1..], b, key);
    } else {
      assert a + b == b;
    }
  }

  /** The text of a `URLSearchParams` (values are not percent-encoded here):
      empty exactly when there are no parameters, and led by the first pair. */
  function QueryString(query: seq<(string, string)>): (r: string)
    ensures r == "" <==> query == []
    ensures query != [] ==> StartsWith(r, query[0].0 + "=" + query[0].1)
  {
    var parts := seq(|query|, i requires 0 <= i < |query| => query[i].0 + "=" + query[i].1);
    if query == [] then ""
    else
      JoinStartsWith(parts, "&");
      assert parts[0] == query[0].0 + "=" + query[0].1;
      Join(parts, "&")
  }

  lemma JoinStartsWith(parts: seq<string>, sep: string)
    requires parts != []
    ensures StartsWith(Join(parts, sep), parts[0])
  {
  }

  /** Pairs are written in order, `key=value`, separated by `&`. */
  lemma QueryStringCons(query: seq<(string, string)>)
    requires query != []
    ensures |query| == 1 ==> QueryString(query) == query[0].0 + "=" + query[0].1
    ensures |query| > 1 ==> QueryString(query) == query[0].0 + "=" + query[0].1 + "&" + QueryString(query[1..])
  {
    var parts := seq(|query|, i requires 0 <= i < |query| => query[i].0 + "=" + query[i].1);
    var rest := seq(|query| - 1, i requires 0 <= i < |query| - 1 => query[1..][i].0 + "=" + query[1..][i].1);
    assert parts[1..] == rest;
  }

  function BoolText(b: bool): string {
    if b then "true" else "false"
  }

  /** The query of `getSiteDeploys(siteId, page, per_page, options)`. */
  function DeploysQuery(page: int := 1, perPage: int := 5, options: DeployFilters := NoFilters): seq<(string, string)> {
    [("page", IntToString(page)), ("per_page", IntToString(perPage))]
    + (if options.production.Some? then [("production", BoolText(options.production.value))] else [])
    + (if options.state.Some? && options.state.value != "" then [("state", options.state.value)] else [])
    + (if options.branch.Some? && options.branch.value != "" then [("branch", options.branch.value)] else [])
  }

  /** `page` and `per_page` are always sent; `production` exactly when it is
      defined; `state` and `branch` exactly when they are non-empty. */
  lemma DeploysQueryParams(page: int, perPage: int, options: DeployFilters)
    ensures var q := DeploysQuery(page, perPage, options);
      && Param(q, "page") == Some(IntToString(page))
      && Param(q, "per_page") == Some(IntToString(perPage))
      && Param(q, "production") == (if options.production.Some? then Some(BoolText(options.production.value)) else None)
      && Param(q, "state") == (if options.state.Some? && options.state.value != "" then options.state else None)
      && Param(q, "branch") == (if options.branch.Some? && options.branch.value != "" then options.branch else None)
  {
    var pg := [("page", IntToString(page))];
    var pp := [("per_page", IntToString(perPage))];
    var prod := if options.production.Some? then [("production", BoolText(options.production.value))] else [];
    var st := if options.state.Some? && options.state.value != "" then [("state", options.state.value)] else [];
    var br := if options.branch.Some? && options.branch.value != "" then [("branch", options.branch.value)] else [];
    assert DeploysQuery(page, perPage, options) == (((pg + pp) + prod) + st) + br;
    ParamsOf(pg, pp, prod, st, br, "page");
    ParamsOf(pg, pp, prod, st, br, "per_page");
    ParamsOf(pg, pp, prod, st, br, "production");
    ParamsOf(pg, pp, prod, st, br, "state");
    ParamsOf(pg, pp, prod, st, br, "branch");
  }

  lemma ParamsOf(a: seq<(string, string)>, b: seq<(string, string)>, c: seq<(string, string)>,
                 d: seq<(string, string)>, e: seq<(string, string)>, key: string)
    ensures Param((((a + b) + c) + d) + e, key) ==
      if Param(a, key).Some? then Param(a, key)
      else if Param(b, key).Some? then Param(b, key)
      else if Param(c, key).Some? then Param(c, key)
      else if Param(d, key).Some? then Param(d, key)
      else Param(e, key)
  {
    ParamAppend(a, b, key);
    ParamAppend(a + b, c, key);
    ParamAppend((a + b) + c, d, key);
    ParamAppend(((a + b) + c) + d, e, key);
  }

  /** Called with no arguments the query asks for page 1 of 5 deploys and nothing else. */
  lemma DeploysQueryDefaults()
    ensures DeploysQuery() == [("page", "1"), ("per_page", "5")]
  {
  }

  /** The endpoint `getSiteDeploys(siteId, page, per_page, options)` requests. */
  function SiteDeploysEndpoint(siteId: string, page: int := 1, perPage: int := 5, options: DeployFilters := NoFilters): (r: string)
    ensures StartsWith(r, "/sites/" + siteId + "/deploys?page=" + IntToString(page))
  {
    var q := DeploysQuery(page, perPage, options);
    assert q[0] == ("page", IntToString(page));
    "/sites/" + siteId + "/deploys?" + QueryString(q)
  }

  /** With no arguments beyond the site, the first five deploys of page 1 are requested. */
  lemma DefaultDeploysEndpoint(siteId: string)
    ensures SiteDeploysEndpoint(siteId) == "/sites/" + siteId + "/deploys?page=1&per_page=5"
  {
    DeploysQueryDefaults();
    var q := DeploysQuery();
    QueryStringCons(q);
    QueryStringCons(q[1..]);
  }

  /** `getSiteDeploys` resolves to `response.data`: the parsed body of an
      ordinary answer, `undefined` for a 204 or a DELETE acknowledgement, and
      it rejects with the request's own error. */
  function SiteDeploys(reply: Result<Reply, string>): (r: Result<Json, string>)
    ensures reply.Failure? ==> r == Failure(reply.error)
    ensures reply.Success? && reply.value.Payload? ==> r == Success(reply.value.data)
    ensures reply.Success? && (reply.value.NoContent? || reply.value.Deleted?) ==> r == Success(Undefined)
  {
    match reply
    case Failure(m) => Failure(m)
    case Success(r) => Success(ReplyData(r))
  }

  // ---------------------------------------------------------------------------
  // createSite

  const SITE_ID_MISSING: string := "Failed to create site or site ID is missing in the response"
  const SLUG_MISSING: string := "NETLIFY_ACCOUNT_SLUG environment variable is not set"
  const NULL_TO_OBJECT: string := "Cannot convert undefined or null to object"

  /** The body of the site-creation POST. */
  function SiteData(name: Json): Json {
    Obj([("name", name),
         ("build_image", Str("noble")),
         ("build_settings", Obj([("branch", Str("main")), ("allowed_branches", Arr([])), ("skip_prs", Bool(true)),
                                 ("installation_id", Num(12392279)), ("stop_builds", Bool(true))])),
         ("repo", Obj([("branch", Str("main")), ("cmd", Str("gatsby build")), ("dir", Str("/")),
                       ("private", Bool(false)), ("provider", Str("github")),
                       ("repo", Str("eab-agency/iwc-default-proof")), ("repo_id", Num(310384845)),
                       ("installation_id", Num(12392279)), ("stop_builds", Bool(true))]))])
  }

  /** The site is created under the name it was given, with the fixed build image. */
  lemma SiteDataName(name: Json)
    ensures Get(SiteData(name), "name") == name && Get(SiteData(name), "build_image") == Str("noble")
  {
    LookupFirst(SiteData(name).fields, "name", 0);
    LookupFirst(SiteData(name).fields, "build_image", 1);
  }

  const EnvScopes: Json := Arr([Str("builds"), Str("runtime"), Str("post-processing")])

  /** One environment variable in the upstream format. */
  function EnvEntry(key: string, value: Json): Json {
    Obj([("key", Str(key)), ("values", Arr([Obj([("value", value), ("context", Str("all"))])])), ("scopes", EnvScopes)])
  }

  /** `Object.entries(envVars).map(...)`: one entry per variable, in entry order. */
  function EnvVarArray(entries: seq<(string, Json)>): (r: seq<Json>)
    ensures |r| == |entries|
    ensures forall i :: 0 <= i < |entries| ==>
      && Get(r[i], "key") == Str(entries[i].0)
      && Get(r[i], "values") == Arr([Obj([("value", entries[i].1), ("context", Str("all"))])])
      && Get(r[i], "scopes") == EnvScopes
  {
    EnvEntriesFields(entries);
    seq(|entries|, i requires 0 <= i < |entries| => EnvEntry(entries[i].0, entries[i].1))
  }

  lemma EnvEntriesFields(entries: seq<(string, Json)>)
    ensures forall i :: 0 <= i < |entries| ==>
      && Get(EnvEntry(entries[i].0, entries[i].1), "key") == Str(entries[i].0)
      && Get(EnvEntry(entries[i].0, entries[i].1), "values") == Arr([Obj([("value", entries[i].1), ("context", Str("all"))])])
      && Get(EnvEntry(entries[i].0, entries[i].1), "scopes") == EnvScopes
  {
    forall i | 0 <= i < |entries| {
      EnvEntryFields(entries[i].0, entries[i].1);
    }
  }

  /** Each formatted entry carries its key, its single all-context value and the three scopes. */
  lemma EnvEntryFields(key: string, value: Json)
    ensures Get(EnvEntry(key, value), "key") == Str(key)
    ensures Get(EnvEntry(key, value), "values") == Arr([Obj([("value", value), ("context", Str("all"))])])
    ensures Get(EnvEntry(key, value), "scopes") == EnvScopes
  {
    LookupFirst(EnvEntry(key, value).fields, "key", 0);
    LookupFirst(EnvEntry(key, value).fields, "values", 1);
    LookupFirst(EnvEntry(key, value).fields, "scopes", 2);
  }

  /** `Object.entries(envVars)`, with `undefined` replaced by the default `{}`. */
  function Entries(v: Json): Result<seq<(string, Json)>, string> {
    match v
    case Undefined => Success([])
    case Null => Failure(NULL_TO_OBJECT)
    case _ => Success(Spread(v))
  }

  /** What `createSite` resolves to, and the environment POST it issued
      (endpoint and body), if any. */
  datatype CreateOutcome = CreateOutcome(result: Result<Json, string>, envPost: Option<(string, seq<Json>)>)

  /** `createSite(name, envVars)` given the outcomes of its two upstream calls. */
  function CreateSite(name: Json, envVars: Json, accountSlug: Option<string>,
                      siteReply: Result<Reply, string>, envReply: Result<Reply, string>): CreateOutcome {
    match siteReply
    case Failure(m) => CreateOutcome(Failure(m), None)
    case Success(r) =>
      if !r.Payload? then CreateOutcome(Failure(SITE_ID_MISSING), None)
      else if Nullish(r.data) then CreateOutcome(Failure(ReadError(r.data, "id")), None)
      else if !Truthy(Get(r.data, "id")) then CreateOutcome(Failure(SITE_ID_MISSING), None)
      else
        var site := r.data;
        match Entries(envVars)
        case Failure(m) => CreateOutcome(Failure(m), None)
        case Success(entries) =>
          if |entries| == 0 then CreateOutcome(Success(site), None)
          else if !Present(accountSlug) then CreateOutcome(Failure(SLUG_MISSING), None)
          else
            var post := ("/accounts/" + accountSlug.value + "/env?site_id=" + JsString(Get(site, "id")), EnvVarArray(entries));
            match envReply
            case Failure(m) => CreateOutcome(Failure(m), Some(post))
            case Success(_) => CreateOutcome(Success(site), Some(post))
  }

  /** `createSite` resolves to the created site only when the creation reply
      carries a truthy `data.id`; the environment call is made exactly when
      the site was created, `envVars` has entries and the account slug is
      set, and its body lists the entries in order. */
  lemma CreateSiteRules(name: Json, envVars: Json, accountSlug: Option<string>,
                        siteReply: Result<Reply, string>, envReply: Result<Reply, string>)
    ensures var o := CreateSite(name, envVars, accountSlug, siteReply, envReply);
      var created := siteReply.Success? && siteReply.value.Payload? && Truthy(Get(siteReply.value.data, "id"));
      && (o.result.Success? ==> created && o.result.value == siteReply.value.data)
      && (o.envPost.Some? <==> created && Entries(envVars).Success? && |Entries(envVars).value| > 0 && Present(accountSlug))
      && (o.envPost.Some? ==> o.envPost.value.1 == EnvVarArray(Entries(envVars).value))
      && (o.envPost.Some? ==>
            o.envPost.value.0 == "/accounts/" + accountSlug.value + "/env?site_id=" + JsString(Get(siteReply.value.data, "id")))
      && (o.envPost.Some? && envReply.Failure? ==> o.result == Failure(envReply.error))
      && (o.envPost.Some? && envReply.Success? ==> o.result == Success(siteReply.value.data))
      && (created && Entries(envVars) == Success([]) ==> o.result == Success(siteReply.value.data))
      && (created && Entries(envVars).Success? && |Entries(envVars).value| > 0 && !Present(accountSlug) ==>
            o.result == Failure(SLUG_MISSING))
  {
  }

  // ---------------------------------------------------------------------------
  // getActiveBuilds

  /** `Math.floor(Math.random() * 70)`. */
  type Roll = r: int | 0 <= r < 70

  /** The states the aggregation keeps. */
  predicate InProgressState(state: Json) {
    state == Str("building") || state == Str("enqueued") || state == Str("processing")
    || state == Str("uploading") || state == Str("initializing")
  }

  predicate InProgress(deploy: Json) {
    Truthy(deploy) && IsObjectType(deploy) && InProgressState(Get(deploy, "state"))
  }

  /** The synthesised progress percentage for a deploy state. */
  function Progress(state: Json, roll: Roll): int {
    if state == Str("building") then roll + 30
    else if state == Str("initializing") then 10
    else if state == Str("processing") then 50
    else if state == Str("uploading") then 80
    else 0
  }

  lemma ProgressValues(state: Json, roll: Roll)
    ensures state == Str("building") ==> 30 <= Progress(state, roll) <= 99
    ensures state == Str("initializing") ==> Progress(state, roll) == 10
    ensures state == Str("processing") ==> Progress(state, roll) == 50
    ensures state == Str("uploading") ==> Progress(state, roll) == 80
    ensures state == Str("enqueued") ==> Progress(state, roll) == 0
  {
  }

  /** `{...deploy, site_id: site.id, site_name: site.name, progress}`. */
  function Tagged(site: Json, deploy: Json, roll: Roll): Json {
    Obj(With(With(With(Spread(deploy), "site_id", Get(site, "id")), "site_name", Get(site, "name")),
             "progress", Num(Progress(Get(deploy, "state"), roll))))
  }

  /** A tagged build names its site, carries its progress and keeps the deploy's state. */
  lemma TaggedFields(site: Json, deploy: Json, roll: Roll)
    ensures Get(Tagged(site, deploy, roll), "site_id") == Get(site, "id")
    ensures Get(Tagged(site, deploy, roll), "site_name") == Get(site, "name")
    ensures Get(Tagged(site, deploy, roll), "progress") == Num(Progress(Get(deploy, "state"), roll))
    ensures Get(Tagged(site, deploy, roll), "state") == Get(deploy, "state")
  {
    var f1 := With(Spread(deploy), "site_id", Get(site, "id"));
    var f2 := With(f1, "site_name", Get(site, "name"));
    var p := Num(Progress(Get(deploy, "state"), roll));
    LookupWithSame(f2, "progress", p);
    LookupWithOther(f2, "progress", p, "site_name");
    LookupWithSame(f1, "site_name", Get(site, "name"));
    LookupWithOther(f2, "progress", p, "site_id");
    LookupWithOther(f1, "site_name", Get(site, "name"), "site_id");
    LookupWithSame(Spread(deploy), "site_id", Get(site, "id"));
    LookupWithOther(f2, "progress", p, "state");
    LookupWithOther(f1, "site_name", Get(site, "name"), "state");
    LookupWithOther(Spread(deploy), "site_id", Get(site, "id"), "state");
  }

  /** `deploys.filter(...)`: the in-progress deploys, in order. */
  function InProgressOnly(deploys: seq<Json>): seq<Json> {
    if deploys == [] then []
    else (if InProgress(deploys[0]) then [deploys[0]] else []) + InProgressOnly(deploys[1..])
  }

  /** The filter keeps exactly the in-progress deploys. */
  lemma {:induction false} InProgressOnlyKeeps(deploys: seq<Json>, d: Json)
    ensures d in InProgressOnly(deploys) <==> d in deploys && InProgress(d)
  {
    if deploys != [] {
      InProgressOnlyKeeps(deploys[1..], d);
      assert deploys == [deploys[0]] + deploys[1..];
    }
  }

  /** `.filter(...).map(...)` for one site. */
  function ActiveOf(site: Json, deploys: seq<Json>, draw: Json -> Roll): (r: seq<Json>) {
    var kept := InProgressOnly(deploys);
    seq(|kept|, i requires 0 <= i < |kept| => Tagged(site, kept[i], draw(kept[i])))
  }

  /** `fetchNetlify`'s resolved value as the object the code inspects. */
  function ReplyObject(r: Reply): Json {
    match r
    case NoContent => Obj([("success", Bool(true))])
    case Deleted(m) => Obj([("success", Bool(true)), ("message", m)])
    case Payload(d, h) => Obj([("data", d), ("headers", HeadersObject(h))])
  }

  /** What the per-site step inspects: the whole resolved value as written
      (`viaData` false), or its `data` (`viaData` true). */
  function Inspected(r: Reply, viaData: bool): Json {
    if viaData then ReplyData(r) else ReplyObject(r)
  }

  /** The `let deploysArray` steps: an array is kept, an object with an `id`
      is wrapped, any other object or value gives no deploys. */
  function DeploysArray(response: Json): seq<Json> {
    if response.Arr? then response.items
    else if Truthy(response) && IsObjectType(response) then (if Has(response, "id") then [response] else [])
    else []
  }

  /** The active builds of one site; a failed deploy lookup gives none. */
  function SiteActiveBuilds(site: Json, lookup: Result<Reply, string>, draw: Json -> Roll, viaData: bool): seq<Json> {
    match lookup
    case Failure(_) => []
    case Success(r) => ActiveOf(site, DeploysArray(Inspected(r, viaData)), draw)
  }

  /** The per-site promise: a nullish site throws on `site.id` in the `catch` too. */
  function SiteBuilds(site: Json, lookup: Result<Reply, string>, draw: Json -> Roll, viaData: bool): Result<seq<Json>, string> {
    if Nullish(site) then Failure(ReadError(site, "id")) else Success(SiteActiveBuilds(site, lookup, draw, viaData))
  }

  /** `.flat()` of a list of lists. */
  function Flatten<T>(xss: seq<seq<T>>): seq<T> {
    if xss == [] then [] else xss[0] + Flatten(xss[1..])
  }

  /** The builds of site `i` sit together, after those of every earlier site
      and before those of every later one. */
  lemma {:induction false} FlattenSplit<T>(xss: seq<seq<T>>, i: int)
    requires 0 <= i < |xss|
    ensures Flatten(xss) == Flatten(xss[..i]) + xss[i] + Flatten(xss[i + 1..])
  {
    if i > 0 {
      FlattenSplit(xss[1..], i - 1);
      assert xss[1..][..i - 1] == xss[1..i];
      assert xss[1..][i..] == xss[i + 1..];
      assert xss[..i] == [xss[0]] + xss[1..i];
      assert Flatten(xss[..i]) == xss[0] + Flatten(xss[..i][1..]);
      assert xss[..i][1..] == xss[1..i];
    } else {
      assert xss[..0] == [];
      assert xss[1..] == xss[i + 1..];
    }
  }

  /** The sites the active-build aggregation lists from the first reply's
      value: an array, or the value itself when it has a truthy `data.id`
      (reading `data.id` throws when `data` is null). */
  function SitesOf(sitesResponse: Json): Result<seq<Json>, string> {
    if sitesResponse.Arr? then Success(sitesResponse.items)
    else if Truthy(sitesResponse) && IsObjectType(sitesResponse) && Has(sitesResponse, "data") then
      match Prop(Get(sitesResponse, "data"), "id")
      case Failure(e) => Failure(e)
      case Success(id) => if Truthy(id) then Success([sitesResponse]) else Success([])
    else Success([])
  }

  /** Fan-out, join and flatten; any rejected per-site promise rejects the
      join, which the outer `catch` turns into `[]`. */
  function BuildsFrom(sites: seq<Json>, deploysOf: Json -> Result<Reply, string>, draw: Json -> Roll, viaData: bool): seq<Json> {
    match All(seq(|sites|, i requires 0 <= i < |sites| => SiteBuilds(sites[i], deploysOf(sites[i]), draw, viaData)))
    case Failure(_) => []
    case Success(xss) => Flatten(xss)
  }

  /** `getActiveBuilds()` as written: it inspects the `{data, headers}` value
      itself rather than its `data`, for the site list and for each site. */
  function GetActiveBuilds(sitesReply: Result<Reply, string>, deploysOf: Json -> Result<Reply, string>, draw: Json -> Roll): seq<Json> {
    match sitesReply
    case Failure(_) => []
    case Success(r) =>
      match SitesOf(ReplyObject(r))
      case Failure(_) => []
      case Success(sites) => if |sites| == 0 then [] else BuildsFrom(sites, deploysOf, draw, false)
  }

  /** As written, the aggregation never yields a build: the resolved value
      never has an `id`, so every site contributes an empty list. */
  lemma ActiveBuildsAlwaysEmpty(sitesReply: Result<Reply, string>, deploysOf: Json -> Result<Reply, string>, draw: Json -> Roll)
    ensures GetActiveBuilds(sitesReply, deploysOf, draw) == []
  {
    if sitesReply.Success? {
      var r := sitesReply.value;
      var sr := SitesOf(ReplyObject(r));
      if sr.Success? && |sr.value| > 0 {
        var sites := sr.value;
        assert sites == [ReplyObject(r)];
        var site := sites[0];
        var rs := seq(|sites|, i requires 0 <= i < |sites| => SiteBuilds(sites[i], deploysOf(sites[i]), draw, false));
        assert SiteActiveBuilds(site, deploysOf(site), draw, false) == [] by {
          if deploysOf(site).Success? {
            var r2 := deploysOf(site).value;
            assert !Has(ReplyObject(r2), "id");
            assert DeploysArray(ReplyObject(r2)) == [];
          }
        }
        assert rs == [Success([])];
        var joined := All(rs);
        assert joined.Success? && |joined.value| == 1 && joined.value[0] == [];
        assert joined.value == [[]];
        var none: seq<seq<Json>> := [[]];
        assert Flatten(none) == [] by {
          assert none[1..] == [];
        }
      }
    }
  }

  /** The aggregation with `.data` read where the code evidently meant it:
      the site list normalised as in `getSitesWithLastDeploy`, and each
      site's deploys taken from its reply's `data`. */
  function GetActiveBuildsFromData(sitesReply: Result<Reply, string>, deploysOf: Json -> Result<Reply, string>, draw: Json -> Roll): seq<Json> {
    match sitesReply
    case Failure(_) => []
    case Success(r) =>
      var sites := AsList(ReplyData(r));
      if |sites| == 0 then [] else BuildsFrom(sites, deploysOf, draw, true)
  }

  /** Reading `.data`, the result is the in-progress deploys of every site,
      tagged with the site and flattened in site order; a failed per-site
      lookup contributes nothing and a nullish site empties the result. */
  lemma ActiveBuildsFromDataContents(r: Reply, deploysOf: Json -> Result<Reply, string>, draw: Json -> Roll)
    ensures var sites := AsList(ReplyData(r));
      var out := GetActiveBuildsFromData(Success(r), deploysOf, draw);
      && ((exists i :: 0 <= i < |sites| && Nullish(sites[i])) ==> out == [])
      && ((forall i :: 0 <= i < |sites| ==> !Nullish(sites[i])) ==>
            out == Flatten(seq(|sites|, i requires 0 <= i < |sites| => SiteActiveBuilds(sites[i], deploysOf(sites[i]), draw, true))))
  {
    var sites := AsList(ReplyData(r));
    var rs := seq(|sites|, i requires 0 <= i < |sites| => SiteBuilds(sites[i], deploysOf(sites[i]), draw, true));
    if forall i :: 0 <= i < |sites| ==> !Nullish(sites[i]) {
      var expected := seq(|sites|, i requires 0 <= i < |sites| => SiteActiveBuilds(sites[i], deploysOf(sites[i]), draw, true));
      if |sites| > 0 {
        assert All(rs).Success?;
        assert All(rs).value == expected;
      }
    } else {
      var i :| 0 <= i < |sites| && Nullish(sites[i]);
      assert rs[i].Failure?;
    }
  }

  /** The tagged list has one entry per kept deploy, in order. */
  lemma ActiveOfIndex(site: Json, deploys: seq<Json>, draw: Json -> Roll)
    ensures var kept := InProgressOnly(deploys);
      |ActiveOf(site, deploys, draw)| == |kept| &&
      forall i :: 0 <= i < |kept| ==> ActiveOf(site, deploys, draw)[i] == Tagged(site, kept[i], draw(kept[i]))
  {
  }

  /** The active builds of a site are exactly its in-progress deploys, each
      tagged with the site. */
  lemma ActiveOfContents(site: Json, deploys: seq<Json>, draw: Json -> Roll, x: Json)
    ensures x in ActiveOf(site, deploys, draw) <==>
      exists d :: d in deploys && InProgress(d) && x == Tagged(site, d, draw(d))
  {
    if x in ActiveOf(site, deploys, draw) {
      ActiveOfSound(site, deploys, draw, x);
    }
    if exists d :: d in deploys && InProgress(d) && x == Tagged(site, d, draw(d)) {
      var d :| d in deploys && InProgress(d) && x == Tagged(site, d, draw(d));
      ActiveOfComplete(site, deploys, draw, d);
    }
  }

  lemma ActiveOfSound(site: Json, deploys: seq<Json>, draw: Json -> Roll, x: Json)
    requires x in ActiveOf(site, deploys, draw)
    ensures exists d :: d in deploys && InProgress(d) && x == Tagged(site, d, draw(d))
  {
    var kept := InProgressOnly(deploys);
    ActiveOfIndex(site, deploys, draw);
    var i :| 0 <= i < |kept| && ActiveOf(site, deploys, draw)[i] == x;
    InProgressOnlyKeeps(deploys, kept[i]);
  }

  lemma ActiveOfComplete(site: Json, deploys: seq<Json>, draw: Json -> Roll, d: Json)
    requires d in deploys && InProgress(d)
    ensures Tagged(site, d, draw(d)) in ActiveOf(site, deploys, draw)
  {
    var kept := InProgressOnly(deploys);
    ActiveOfIndex(site, deploys, draw);
    InProgressOnlyKeeps(deploys, d);
    var i :| 0 <= i < |kept| && kept[i] == d;
    assert ActiveOf(site, deploys, draw)[i] == Tagged(site, d, draw(d));
  }
}
