/** components/sites-table.tsx: the state of the `SitesTable` component and
    its handlers (sorting, fetching a page, redeploying, deleting,
    searching), with the pure query, badge and URL helpers. Each `fetch` is
    an `ApiCall` input and the rate limiter is the shared `RateLimiters`. */
module SitesTableUi {
  import opened Wrappers
  import opened Json
  import opened Client
  import opened Utils
  import NetlifyApi

  datatype SortField = Name | LastDeployTime | CreatedAt
  datatype SortDirection = Asc | Desc

  function FieldName(f: SortField): string {
    match f
    case Name => "name"
    case LastDeployTime => "last_deploy_time"
    case CreatedAt => "created_at"
  }

  function DirectionName(d: SortDirection): string {
    if d == Asc then "asc" else "desc"
  }

  function Flip(d: SortDirection): SortDirection {
    if d == Asc then Desc else Asc
  }

  /** The upstream sort key: only keys the sites listing accepts are sent,
      so the client-side `last_deploy_time` column sorts by `updated_at`. */
  function SortParam(f: SortField): (r: string)
    ensures r in {"name", "created_at", "updated_at"}
    ensures r == FieldName(f) <==> f != LastDeployTime
  {
    if f == LastDeployTime then "updated_at" else FieldName(f)
  }

  const SITES_PER_PAGE: int := 100
  const FETCH_KEY: string := "fetchSites"
  const RATE_LIMITED: string := "API rate limit reached. Please wait a moment before refreshing."
  const FETCH_FAILED: string := "Failed to fetch sites"
  const FETCH_ERROR: string := "An error occurred while fetching sites"
  const REDEPLOY_FAILED: string := "Failed to redeploy site"
  const REDEPLOY_ERROR: string := "An error occurred while redeploying the site"

  /** The query of `/api/sites` that `fetchSites(resetPage)` requests. */
  function SitesPageQuery(resetPage: bool, page: int, field: SortField, direction: SortDirection, searchTerm: string): seq<(string, string)> {
    [("page", if resetPage then "1" else IntToString(page)),
     ("per_page", IntToString(SITES_PER_PAGE)),
     ("sort_by", SortParam(field)),
     ("order_by", DirectionName(direction))]
    + (if searchTerm != "" then [("name", searchTerm)] else [])
  }

  /** Page "1" on a reset and the current page otherwise, 100 per page, and
      the search term only when it is non-empty. */
  lemma SitesPageQueryParams(resetPage: bool, page: int, field: SortField, direction: SortDirection, searchTerm: string)
    ensures var q := SitesPageQuery(resetPage, page, field, direction, searchTerm);
      && NetlifyApi.Param(q, "page") == Some(if resetPage then "1" else IntToString(page))
      && NetlifyApi.Param(q, "per_page") == Some("100")
      && NetlifyApi.Param(q, "sort_by") == Some(SortParam(field))
      && NetlifyApi.Param(q, "order_by") == Some(DirectionName(direction))
      && NetlifyApi.Param(q, "name") == (if searchTerm != "" then Some(searchTerm) else None)
  {
    var q := SitesPageQuery(resetPage, page, field, direction, searchTerm);
    var head := [("page", if resetPage then "1" else IntToString(page)),
                 ("per_page", IntToString(SITES_PER_PAGE)),
                 ("sort_by", SortParam(field)),
                 ("order_by", DirectionName(direction))];
    var tail := if searchTerm != "" then [("name", searchTerm)] else [];
    assert q == head + tail;
    assert IntToString(SITES_PER_PAGE) == "100" by {
      assert NatToString(1) == "1";
      assert NatToString(10) == NatToString(1) + [Digit(0)];
      assert NatToString(100) == NatToString(10) + [Digit(0)];
    }
    NetlifyApi.ParamFirst(q, "page", 0);
    NetlifyApi.ParamFirst(q, "per_page", 1);
    NetlifyApi.ParamFirst(q, "sort_by", 2);
    NetlifyApi.ParamFirst(q, "order_by", 3);
    NetlifyApi.ParamAppend(head, tail, "name");
    NetlifyApi.ParamAbsent(head, "name");
    if searchTerm != "" {
      NetlifyApi.ParamFirst(tail, "name", 0);
    } else {
      NetlifyApi.ParamAbsent(tail, "name");
    }
  }

  /** `linkHeader?.includes('rel="next"') ?? false`. */
  predicate HasNext(link: Option<string>) {
    link.Some? && Contains(link.value, "rel=\"next\"")
  }

  /** More pages exist exactly when the `Link` header mentions a next page. */
  lemma HasNextIff(link: Option<string>)
    ensures HasNext(link) <==>
      link.Some? && exists i :: 0 <= i <= |link.value| - 10 && StartsWith(link.value[i..], "rel=\"next\"")
  {
    if link.Some? {
      ContainsIffOccurs(link.value, "rel=\"next\"");
    }
  }

  /** The fields one settled `fetchSites` leaves behind. */
  datatype Fetched = Fetched(sites: seq<Json>, hasMore: bool, error: Option<string>)

  /** How a request that was issued settles: a failed answer or a rejection
      leaves the list alone and records the message (defaulted); an ok
      answer sets `hasMore` from its `Link` header and then replaces (on a
      reset) or extends the list. */
  function AfterFetch(call: ApiCall, resetPage: bool, prev: seq<Json>, prevHasMore: bool): Fetched {
    match call
    case Rejected(m) => Fetched(prev, prevHasMore, Some(OrElse(m, FETCH_ERROR)))
    case Answered(status, body, link) =>
      if !NetlifyApi.IsOk(status) then
        var m := if status == 429 then RATE_LIMITED else ErrorMessage(body, FETCH_FAILED);
        Fetched(prev, prevHasMore, Some(OrElse(m, FETCH_ERROR)))
      else
        match body
        case Failure(m) => Fetched(prev, HasNext(link), Some(OrElse(m, FETCH_ERROR)))
        case Success(data) =>
          if data.Arr? then Fetched(if resetPage then data.items else prev + data.items, HasNext(link), None)
          else Fetched(prev, HasNext(link), None)
  }

  /** The outcomes of a settled fetch. */
  lemma AfterFetchRules(call: ApiCall, resetPage: bool, prev: seq<Json>, prevHasMore: bool)
    ensures var f := AfterFetch(call, resetPage, prev, prevHasMore);
      && (f.error.None? <==> call.Answered? && NetlifyApi.IsOk(call.status) && call.body.Success?)
      && (f.error.Some? ==> f.sites == prev && f.error.value != "")
      && (call.Answered? && NetlifyApi.IsOk(call.status) ==> f.hasMore == HasNext(call.link))
      && (call.Answered? && call.status == 429 ==> f == Fetched(prev, prevHasMore, Some(RATE_LIMITED)))
      && (call.Answered? && NetlifyApi.IsOk(call.status) && call.body.Success? && call.body.value.Arr? ==>
            f.sites == (if resetPage then call.body.value.items else prev + call.body.value.items))
  {
  }

  /** Loading a first page and then a further one shows the two pages in order. */
  lemma PagesAccumulate(first: seq<Json>, second: seq<Json>, link1: Option<string>, link2: Option<string>, sites: seq<Json>, hasMore: bool)
    ensures var f1 := AfterFetch(Answered(200, Success(Arr(first)), link1), true, sites, hasMore);
      var f2 := AfterFetch(Answered(200, Success(Arr(second)), link2), false, f1.sites, f1.hasMore);
      f2 == Fetched(first + second, HasNext(link2), None)
  {
  }

  function RedeployToast(call: ApiCall): Toast {
    match call
    case Rejected(m) => Toast("Redeploy failed", OrElse(m, REDEPLOY_ERROR), true)
    case Answered(status, body, _) =>
      if NetlifyApi.IsOk(status) then Toast("Site redeployed", "Your site is being redeployed. This may take a few minutes.", false)
      else Toast("Redeploy failed", OrElse(ErrorMessage(body, REDEPLOY_FAILED), REDEPLOY_ERROR), true)
  }

  /** An ok answer confirms the redeploy without reading the body; anything
      else reports the failure. */
  lemma RedeployToastRules(call: ApiCall)
    ensures RedeployToast(call).destructive <==> !(call.Answered? && NetlifyApi.IsOk(call.status))
    ensures RedeployToast(call).description != ""
  {
  }

  /** `sites.filter((site) => site.id !== siteId)`. */
  function WithoutSite(sites: seq<Json>, siteId: string): seq<Json> {
    if sites == [] then []
    else (if Get(sites[0], "id") == Str(siteId) then [] else [sites[0]]) + WithoutSite(sites[1..], siteId)
  }

  /** Deleting a site drops every site with that id, keeps every other site
      as often as before, and keeps their order. */
  lemma {:induction false} WithoutSiteContents(sites: seq<Json>, siteId: string, s: Json)
    ensures s in WithoutSite(sites, siteId) ==> Get(s, "id") != Str(siteId)
    ensures Get(s, "id") != Str(siteId) ==> multiset(WithoutSite(sites, siteId))[s] == multiset(sites)[s]
  {
    if sites != [] {
      WithoutSiteContents(sites[1..], siteId, s);
      var head := if Get(sites[0], "id") == Str(siteId) then [] else [sites[0]];
      var rest := WithoutSite(sites[1..], siteId);
      assert WithoutSite(sites, siteId) == head + rest;
      assert multiset(head + rest) == multiset(head) + multiset(rest);
      assert sites == [sites[0]] + sites[1..];
      assert multiset(sites) == multiset([sites[0]]) + multiset(sites[1..]);
    }
  }

  lemma {:induction false} WithoutSiteAppend(a: seq<Json>, b: seq<Json>, siteId: string)
    ensures WithoutSite(a + b, siteId) == WithoutSite(a, siteId) + WithoutSite(b, siteId)
  {
    if a != [] {
      assert (a + b)[1..] == a[1..] + b;
      WithoutSiteAppend(a[1..], b, siteId);
    } else {
      assert a + b == b;
    }
  }

  /** The status badge text of a site's last deploy. */
  function BadgeLabel(state: string): string {
    if state == "ready" then "Build Success"
    else if state == "error" then "Build Failed"
    else if state == "building" then "Building"
    else state
  }

  function BadgeVariant(state: string): string {
    if state == "ready" then "success" else if state == "error" then "destructive" else "default"
  }

  /** Three states get a label of their own; every other state shows itself. */
  lemma BadgeRules(state: string)
    ensures BadgeLabel(state) != state <==> state in {"ready", "error", "building"}
    ensures state !in {"ready", "error"} ==> BadgeVariant(state) == "default"
  {
  }

  /** `url.replace(/^https?:\/\//, "")`. */
  function StripScheme(url: string): string {
    if StartsWith(url, "https://") then url[8..]
    else if StartsWith(url, "http://") then url[7..]
    else url
  }

  /** The displayed text is the address with at most one leading scheme
      removed: the `https://` or `http://` it starts with, and nothing when it
      starts with neither. */
  lemma StripSchemeSuffix(url: string)
    ensures exists p :: p in {"", "http://", "https://"} && url == p + StripScheme(url)
    ensures StartsWith(url, "https://") ==> url == "https://" + StripScheme(url)
    ensures !StartsWith(url, "https://") && StartsWith(url, "http://") ==> url == "http://" + StripScheme(url)
    ensures StripScheme(url) == url <==> !StartsWith(url, "https://") && !StartsWith(url, "http://")
  {
    var p := if StartsWith(url, "https://") then "https://" else if StartsWith(url, "http://") then "http://" else "";
    assert p in {"", "http://", "https://"};
    assert url == p + StripScheme(url) by {
      assert StartsWith(url, p);
      assert url == url[..|p|] + url[|p|..];
    }
  }

  class SitesTable {
    var sites: seq<Json>
    var loading: bool
    var error: Option<string>
    var sortField: SortField
    var sortDirection: SortDirection
    var searchTerm: string
    var redeployingSites: seq<string>
    var refreshing: bool
    var hasMore: bool
    var page: int

    constructor ()
      ensures sites == [] && loading && error == None
      ensures sortField == LastDeployTime && sortDirection == Desc && searchTerm == ""
      ensures redeployingSites == [] && !refreshing && hasMore && page == 1
    {
      sites := [];
      loading := true;
      error := None;
      sortField := LastDeployTime;
      sortDirection := Desc;
      searchTerm := "";
      redeployingSites := [];
      refreshing := false;
      hasMore := true;
      page := 1;
    }

    /** `handleSort(field)`: the current column flips its direction, another
        column becomes current in ascending order. */
    method HandleSort(field: SortField)
      modifies this
      ensures sortField == field
      ensures sortDirection == if old(sortField) == field then Flip(old(sortDirection)) else Asc
      ensures sites == old(sites) && page == old(page) && searchTerm == old(searchTerm)
      ensures loading == old(loading) && error == old(error) && refreshing == old(refreshing)
      ensures hasMore == old(hasMore) && redeployingSites == old(redeployingSites)
    {
      if sortField == field {
        sortDirection := Flip(sortDirection);
      } else {
        sortField := field;
        sortDirection := Asc;
      }
    }

    /** `fetchSites(resetPage)` at time `now`, where `call` is what the
        request would produce. It does nothing while a fetch is in flight
        (without consulting the limiter) or when the limiter refuses; it
        returns the query it requested, if any. */
    method FetchSites(resetPage: bool, limiter: RateLimiters, now: int, call: ApiCall)
      returns (requested: Option<seq<(string, string)>>)
      modifies this, limiter
      ensures old(refreshing) ==> requested == None && limiter.lastCalls == old(limiter.lastCalls)
      ensures !old(refreshing) ==> limiter.lastCalls == AfterCall(old(limiter.lastCalls), FETCH_KEY, now, DEFAULT_LIMIT_MS)
      ensures requested.None? ==>
        sites == old(sites) && hasMore == old(hasMore) && error == old(error) &&
        loading == old(loading) && refreshing == old(refreshing)
      ensures requested.Some? <==> !old(refreshing) && !Limited(old(limiter.lastCalls), FETCH_KEY, now, DEFAULT_LIMIT_MS)
      ensures requested.Some? ==>
        && requested.value == SitesPageQuery(resetPage, old(page), old(sortField), old(sortDirection), old(searchTerm))
        && Fetched(sites, hasMore, error) == AfterFetch(call, resetPage, old(sites), old(hasMore))
        && !loading && !refreshing
      ensures page == old(page) && sortField == old(sortField) && sortDirection == old(sortDirection)
      ensures searchTerm == old(searchTerm) && redeployingSites == old(redeployingSites)
    {
      if refreshing {
        return None;
      }
      var limited := limiter.IsRateLimited(FETCH_KEY, now);
      if limited {
        return None;
      }
      refreshing := true;
      loading := true;
      error := None;
      requested := Some(SitesPageQuery(resetPage, page, sortField, sortDirection, searchTerm));
      var f := AfterFetch(call, resetPage, sites, hasMore);
      sites := f.sites;
      hasMore := f.hasMore;
      error := f.error;
      loading := false;
      refreshing := false;
    }

    /** The start of `handleRedeploy(siteId)`: the id joins the in-flight list. */
    method BeginRedeploy(siteId: string)
      modifies this
      ensures redeployingSites == old(redeployingSites) + [siteId]
      ensures sites == old(sites) && page == old(page) && error == old(error) && hasMore == old(hasMore)
      ensures loading == old(loading) && refreshing == old(refreshing)
      ensures sortField == old(sortField) && sortDirection == old(sortDirection) && searchTerm == old(searchTerm)
    {
      redeployingSites := redeployingSites + [siteId];
    }

    /** The settling of `handleRedeploy(siteId)`: every occurrence of the id
        leaves the in-flight list, and the toast reports the outcome. */
    method FinishRedeploy(siteId: string, call: ApiCall) returns (toast: Toast)
      modifies this
      ensures toast == RedeployToast(call)
      ensures redeployingSites == Without(old(redeployingSites), siteId)
      ensures sites == old(sites) && page == old(page) && error == old(error) && hasMore == old(hasMore)
      ensures loading == old(loading) && refreshing == old(refreshing)
      ensures sortField == old(sortField) && sortDirection == old(sortDirection) && searchTerm == old(searchTerm)
    {
      toast := RedeployToast(call);
      redeployingSites := Without(redeployingSites, siteId);
    }

    /** `handleSiteDeleted(siteId)`. */
    method HandleSiteDeleted(siteId: string)
      modifies this
      ensures sites == WithoutSite(old(sites), siteId)
      ensures redeployingSites == old(redeployingSites) && page == old(page) && error == old(error)
      ensures hasMore == old(hasMore) && loading == old(loading) && refreshing == old(refreshing)
      ensures sortField == old(sortField) && sortDirection == old(sortDirection) && searchTerm == old(searchTerm)
    {
      sites := WithoutSite(sites, siteId);
    }

    /** `handleSearch`: a new term goes back to the first page. */
    method HandleSearch(term: string)
      modifies this
      ensures searchTerm == term && page == 1
      ensures sites == old(sites) && redeployingSites == old(redeployingSites) && error == old(error)
      ensures hasMore == old(hasMore) && loading == old(loading) && refreshing == old(refreshing)
      ensures sortField == old(sortField) && sortDirection == old(sortDirection)
    {
      searchTerm := term;
      page := 1;
    }
  }

  /** Clicking the same column header twice: on the column already sorted the
      direction comes back to where it was; on a new column it ends descending. */
  method SortTwiceRestores(table: SitesTable, field: SortField)
    modifies table
    ensures table.sortField == field
    ensures old(table.sortField) == field ==> table.sortDirection == old(table.sortDirection)
    ensures old(table.sortField) != field ==> table.sortDirection == Desc
    ensures table.sites == old(table.sites) && table.page == old(table.page) && table.searchTerm == old(table.searchTerm)
  {
    table.HandleSort(field);
    table.HandleSort(field);
  }
}
