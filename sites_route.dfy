/** app/api/sites/route.ts: the site-listing `GET` (query defaults, the
    per-site last-deploy lookup, the `Link` passthrough) and the
    site-creating `POST`. Upstream outcomes are inputs, as in `NetlifyApi`. */
module SitesRoute {
  import opened Wrappers
  import opened Json
  import opened NetlifyApi

  /** A route handler's JSON response. */
  datatype Response = Response(status: int, body: Json, link: Option<string>)

  function ErrorBody(message: string): Json {
    Obj([("error", Str(message))])
  }

  // ---------------------------------------------------------------------------
  // GET

  /** `searchParams.get(key) || fallback`. */
  function QueryValue(params: map<string, string>, key: string, fallback: string): string {
    if key in params then OrElse(params[key], fallback) else fallback
  }

  /** The query the handler forwards upstream. */
  function SitesQuery(params: map<string, string>): seq<(string, string)> {
    var name := QueryValue(params, "name", "");
    [("filter", "all"),
     ("sort_by", QueryValue(params, "sort_by", "updated_at")),
     ("order_by", QueryValue(params, "order_by", "desc")),
     ("page", QueryValue(params, "page", "1")),
     ("per_page", QueryValue(params, "per_page", "100"))]
    + (if name != "" then [("name", name)] else [])
  }

  /** The listing request always rebuilds its query, leading with `filter=all`. */
  function SitesEndpoint(params: map<string, string>): (r: string)
    ensures StartsWith(r, "/sites?filter=all")
  {
    var q := SitesQuery(params);
    assert q[0] == ("filter", "all");
    "/sites?" + QueryString(q)
  }

  /** A forwarded parameter is the caller's value when it is given and
      non-empty, and its default otherwise; `filter` is always "all" and
      `name` is forwarded only when non-empty. */
  lemma SitesQueryParams(params: map<string, string>)
    ensures var q := SitesQuery(params);
      var given := (k: string) => k in params && params[k] != "";
      && Param(q, "filter") == Some("all")
      && Param(q, "page") == Some(if given("page") then params["page"] else "1")
      && Param(q, "per_page") == Some(if given("per_page") then params["per_page"] else "100")
      && Param(q, "sort_by") == Some(if given("sort_by") then params["sort_by"] else "updated_at")
      && Param(q, "order_by") == Some(if given("order_by") then params["order_by"] else "desc")
      && Param(q, "name") == (if given("name") then Some(params["name"]) else None)
  {
    var q := SitesQuery(params);
    var name := QueryValue(params, "name", "");
    var head := [("filter", "all"),
                 ("sort_by", QueryValue(params, "sort_by", "updated_at")),
                 ("order_by", QueryValue(params, "order_by", "desc")),
                 ("page", QueryValue(params, "page", "1")),
                 ("per_page", QueryValue(params, "per_page", "100"))];
    var tail := if name != "" then [("name", name)] else [];
    assert q == head + tail;
    ParamAppend(head, tail, "name");
    ParamAbsent(head, "name");
    if name != "" {
      ParamFirst(tail, "name", 0);
    } else {
      ParamAbsent(tail, "name");
    }
    ParamFirst(q, "filter", 0);
    ParamFirst(q, "sort_by", 1);
    ParamFirst(q, "order_by", 2);
    ParamFirst(q, "page", 3);
    ParamFirst(q, "per_page", 4);
  }

  /** `Array.isArray(sitesResponse) ? sitesResponse : [sitesResponse]`. */
  function ListedSites(data: Json): seq<Json> {
    if data.Arr? then data.items else [data]
  }

  /** The route's `lastDeploy` and `last_deploy_time`: only a non-empty array
      payload gives a deploy. */
  function RouteLastDeploy(lookup: Result<Reply, string>): (Json, Json) {
    match lookup
    case Failure(_) => (Null, Null)
    case Success(r) =>
      var d := ReplyData(r);
      var last := if d.Arr? && |d.items| > 0 then d.items[0] else Null;
      (last, if Truthy(last) then Get(last, "created_at") else Null)
  }

  function RouteSite(site: Json, lookup: Json -> Result<Reply, string>): Result<Json, string> {
    if Nullish(site) then Failure(ReadError(site, "id"))
    else
      var (last, time) := RouteLastDeploy(lookup(site));
      Success(Enriched(site, last, time))
  }

  /** `headers?.link`, when truthy, becomes the `Link` header. */
  function LinkOf(r: Reply): Option<string> {
    if r.Payload? && Truthy(Get(HeadersObject(r.headers), "link")) then Some(JsString(Get(HeadersObject(r.headers), "link")))
    else None
  }

  /** `GET /api/sites` given the upstream list outcome and the per-site deploy outcomes. */
  function SitesGet(sitesReply: Result<Reply, string>, lookup: Json -> Result<Reply, string>): Response {
    match sitesReply
    case Failure(m) => Response(500, ErrorBody(m), None)
    case Success(r) =>
      var sites := ListedSites(ReplyData(r));
      match All(seq(|sites|, i requires 0 <= i < |sites| => RouteSite(sites[i], lookup)))
      case Failure(m) => Response(500, ErrorBody(m), None)
      case Success(out) => Response(200, Arr(out), LinkOf(r))
  }

  /** The listing succeeds exactly when no listed site is nullish; it then
      answers an array with one enriched entry per listed site, in order,
      and passes the `Link` header through; every failure is a 500 carrying
      the message. */
  lemma {:induction false} SitesGetRules(sitesReply: Result<Reply, string>, lookup: Json -> Result<Reply, string>)
    ensures var resp := SitesGet(sitesReply, lookup);
      && (resp.status == 200 || resp.status == 500)
      && (sitesReply.Failure? ==> resp == Response(500, ErrorBody(sitesReply.error), None))
      && (sitesReply.Success? ==>
            var sites := ListedSites(ReplyData(sitesReply.value));
            && (resp.status == 200 <==> forall i :: 0 <= i < |sites| ==> !Nullish(sites[i]))
            && (resp.status == 200 ==> resp.link == LinkOf(sitesReply.value))
            && (resp.status == 200 ==> resp.body.Arr? && |resp.body.items| == |sites|)
            && (resp.status == 200 ==> forall i :: 0 <= i < |sites| ==>
                  resp.body.items[i] == Enriched(sites[i], RouteLastDeploy(lookup(sites[i])).0, RouteLastDeploy(lookup(sites[i])).1)))
      && (resp.status == 500 ==> exists m :: resp.body == ErrorBody(m))
  {
    if sitesReply.Success? {
      var sites := ListedSites(ReplyData(sitesReply.value));
      var rs := seq(|sites|, i requires 0 <= i < |sites| => RouteSite(sites[i], lookup));
      forall i | 0 <= i < |sites|
        ensures rs[i].Success? <==> !Nullish(sites[i])
        ensures rs[i].Success? ==>
          rs[i].value == Enriched(sites[i], RouteLastDeploy(lookup(sites[i])).0, RouteLastDeploy(lookup(sites[i])).1)
      {
        assert rs[i] == RouteSite(sites[i], lookup);
      }
    }
  }

  /** The route's deploy rule: a failed lookup gives null/null; only a
      non-empty array payload gives its first element, so (unlike the
      library's normalisation) a single deploy object gives null. */
  lemma RouteLastDeployRules(lookup: Result<Reply, string>)
    ensures lookup.Failure? ==> RouteLastDeploy(lookup) == (Null, Null)
    ensures lookup.Success? && ReplyData(lookup.value).Arr? && |ReplyData(lookup.value).items| > 0 ==>
      RouteLastDeploy(lookup).0 == ReplyData(lookup.value).items[0]
    ensures lookup.Success? && !(ReplyData(lookup.value).Arr? && |ReplyData(lookup.value).items| > 0) ==>
      RouteLastDeploy(lookup) == (Null, Null)
    ensures !Truthy(RouteLastDeploy(lookup).0) ==> RouteLastDeploy(lookup).1 == Null
    ensures Truthy(RouteLastDeploy(lookup).0) ==> RouteLastDeploy(lookup).1 == Get(RouteLastDeploy(lookup).0, "created_at")
  {
  }

  /** A single deploy object is a deploy to the library but not to the route. */
  lemma SingleDeployObjectIgnored(deploy: Json)
    requires deploy.Obj? && Has(deploy, "id")
    ensures RouteLastDeploy(Success(Payload(deploy, []))) == (Null, Null)
    ensures LastDeployOf(Success(Payload(deploy, []))).0 == deploy
  {
  }

  /** An array payload is listed as it is; a non-array payload is listed as
      one site, with no `id` check, where the library's normalisation lists
      nothing. */
  lemma NonArrayWrapped(data: Json)
    ensures data.Arr? ==> ListedSites(data) == data.items
    ensures !data.Arr? ==> ListedSites(data) == [data]
    ensures !data.Arr? && !Has(data, "id") ==> AsList(data) == []
  {
  }

  /** A reply without data (`{success: true}`) lists `undefined` as a site,
      and reading its `id` fails the whole listing. */
  lemma NoContentListing(lookup: Json -> Result<Reply, string>)
    ensures SitesGet(Success(NoContent), lookup)
         == Response(500, ErrorBody("Cannot read properties of undefined (reading 'id')"), None)
  {
    var sites := ListedSites(ReplyData(NoContent));
    assert sites == [Undefined];
    var rs := seq(|sites|, i requires 0 <= i < |sites| => RouteSite(sites[i], lookup));
    assert rs[0] == Failure(ReadError(Undefined, "id"));
    assert ReadError(Undefined, "id") == "Cannot read properties of undefined (reading 'id')";
  }

  /** The `Link` header is passed through exactly when the upstream headers
      have a non-empty `link`, and carries its (last) value verbatim. */
  lemma LinkPassthrough(data: Json, headers: seq<(string, string)>, i: int)
    requires 0 <= i < |headers| && headers[i].0 == "link"
    requires forall j :: i < j < |headers| ==> headers[j].0 != "link"
    ensures LinkOf(Payload(data, headers)) == if headers[i].1 != "" then Some(headers[i].1) else None
  {
    FromEntriesLookup(headers, "link", i);
  }

  lemma NoLinkHeader(data: Json, headers: seq<(string, string)>)
    requires forall j :: 0 <= j < |headers| ==> headers[j].0 != "link"
    ensures LinkOf(Payload(data, headers)) == None
  {
    FromEntriesAbsent(headers, "link");
  }

  // ---------------------------------------------------------------------------
  // POST

  const NAME_REQUIRED: string := "Site name is required"
  const CREATE_FAILED: string := "Failed to create site"
  const DESTRUCTURE_NULL: string := "Cannot destructure property 'name' of '(intermediate value)' as it is null."

  /** The response, and whether `createSite` was called. */
  datatype PostResult = PostResult(response: Response, createCalled: bool)

  /** `POST /api/sites` given the parsed request body and the outcomes of
      the upstream calls `createSite` would make. */
  function SitesPost(body: Result<Json, string>, accountSlug: Option<string>,
                     siteReply: Result<Reply, string>, envReply: Result<Reply, string>): PostResult {
    match body
    case Failure(m) => PostResult(Response(500, ErrorBody(OrElse(m, CREATE_FAILED)), None), false)
    case Success(b) =>
      if b.Null? then PostResult(Response(500, ErrorBody(DESTRUCTURE_NULL), None), false)
      else
        var name := Get(b, "name");
        if !Truthy(name) then PostResult(Response(400, ErrorBody(NAME_REQUIRED), None), false)
        else
          match CreateSite(name, Get(b, "envVars"), accountSlug, siteReply, envReply).result
          case Success(site) => PostResult(Response(200, site, None), true)
          case Failure(m) => PostResult(Response(500, ErrorBody(OrElse(m, CREATE_FAILED)), None), true)
  }

  /** A body without a truthy `name` is answered 400 without calling
      `createSite`; with one, `createSite` is called and its site is the
      200 body, or its message (defaulted) the 500 body. */
  lemma SitesPostRules(b: Json, accountSlug: Option<string>, siteReply: Result<Reply, string>, envReply: Result<Reply, string>)
    requires !b.Null?
    ensures var res := SitesPost(Success(b), accountSlug, siteReply, envReply);
      var o := CreateSite(Get(b, "name"), Get(b, "envVars"), accountSlug, siteReply, envReply);
      && (!Truthy(Get(b, "name")) ==> res == PostResult(Response(400, ErrorBody(NAME_REQUIRED), None), false))
      && (Truthy(Get(b, "name")) ==> res.createCalled)
      && (Truthy(Get(b, "name")) && o.result.Success? ==> res.response == Response(200, o.result.value, None))
      && (Truthy(Get(b, "name")) && o.result.Failure? ==>
            res.response == Response(500, ErrorBody(OrElse(o.result.error, CREATE_FAILED)), None))
  {
  }
}
