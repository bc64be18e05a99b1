# Netlify site console: a Dafny model

This project models the logic of a small Netlify administration console. It is
a Next.js application whose API routes call the Netlify REST API and whose
React components list sites, active builds and deploys, and create and edit
sites. The model covers:

- **The TTL cache** (`CacheLib`, lib/cache.ts). A class over a `map` of entries.
  Reading a stale entry evicts it.
- **The per-key throttle** (`Utils`, lib/utils.ts). A class over a `map` of last-call times.
- **The Netlify API helpers** (`NetlifyApi`, lib/netlify-api.ts). Pure functions from
  abstract upstream replies to results:
  - how `fetchNetlify` turns a response or a thrown error into a value or an error message;
  - the site and deploy list normalisation;
  - last-deploy enrichment;
  - the deploy query builder;
  - `createSite`;
  - the active-build filter.
- **The sites API route** (`SitesRoute`, app/api/sites/route.ts). Its `GET` and `POST`
  are functions from upstream replies to an HTTP response.
- **The components** (`SitesTableUi`, `ActiveBuildsUi`, `DeploysUi`, `CreateSiteUi`,
  `EditSiteUi`). Each is a class whose fields are the component's React state. Each
  asynchronous handler is a method that takes the outcome of its `fetch` calls as
  arguments. The pure helpers (labels, validation, request bodies) are functions.
- **Shared modules:**
  - `Json` models JavaScript values. Objects are ordered field lists, so spread and
    `Object.fromEntries` keep their order and last-write-wins rules. It also models
    truthiness, the `TypeError` text of a property read on `null`/`undefined`,
    `String(v)` and `||`.
  - `Client` models a browser `fetch` outcome, the
    `throw new Error(errorData.error || fallback)` idiom, and in-flight id lists.
  - `Wrappers` holds `Option` and `Result`.

Upstream behaviour is always an input:
- a `fetchNetlify` transport outcome;
- a per-site reply function;
- a random draw for building progress;
- the current time;
- an opaque `JSON.stringify`.

## Model

| member | source | states |
|---|---|---|
| CacheLib.Cache.Get | lib/cache.ts:5-16 | the result is the stored data exactly when an entry exists and is at most 300000 ms old; only a stale entry for that key is deleted |
| CacheLib.Cache.Set | lib/cache.ts:18-23 | the key now holds the data stamped with `now`, whatever `ttl` is passed; no other key changes |
| CacheLib.Cache.Clear | lib/cache.ts:25-27 | the map is empty afterwards |
| CacheLib.ReadMissing | lib/cache.ts:6-7 | a missing key reads as nothing and leaves the map unchanged |
| CacheLib.ExpiryBoundary | lib/cache.ts:3-15 | an entry read exactly 300000 ms after it was written is returned; one millisecond later it is gone and evicted |
| CacheLib.EvictionIsLocal | lib/cache.ts:10-13 | reading (and possibly evicting) one key keeps every other entry as it was |
| CacheLib.ReadAfterStore | lib/cache.ts:5-23 | a read at the time of a write returns the written data and evicts nothing |
| CacheLib.TtlArgumentIgnored | lib/cache.ts:18-23 | two writes differing only in `ttl` give the same map, and the entry lives exactly 300000 ms either way |
| CacheLib.ClearedReadsNothing | lib/cache.ts:25-27 | after a clear every key reads as nothing |
| CacheLib.ShortTtlHasNoEffect | lib/cache.ts:18-23 | an entry written with a 30000 ms ttl is still returned 30001 ms later |
| Utils.RateLimiters.IsRateLimited | lib/utils.ts:9-21 | the verdict is "limited" exactly when a truthy last-call time is less than `limitMs` ago; when not limited the key's time becomes `now`, otherwise the map is unchanged |
| Utils.FirstCallPasses | lib/utils.ts:11-20 | a key never seen before is not limited and gets `now` recorded |
| Utils.IntervalBoundary | lib/utils.ts:15-20 | a call exactly `limitMs` after the last is let through; one a millisecond earlier is limited and changes nothing |
| Utils.SecondCallLimited | lib/utils.ts:12-17 | an immediate repeat at the same non-zero time with a positive interval is limited |
| Utils.ZeroTimeNeverLimits | lib/utils.ts:15 | a call let through at time 0 records a falsy time, so a repeat call at time 0 passes too |
| Utils.StoredZeroIsAbsent | lib/utils.ts:15 | a stored time of 0 behaves as absent at every `now`: the call is not limited and the map ends as it would without the entry |
| Utils.OtherKeysUntouched | lib/utils.ts:9-19 | a call for one key never adds, removes or changes another key's time |
| Utils.ReplaySnoc | lib/utils.ts:11-21 | replaying a prefix of calls and then one more call is the same as replaying the longer prefix |
| Utils.StoredSinceLastPass | lib/utils.ts:15-20 | after a sequence of calls, the stored time is the time of the last call that was let through |
| Utils.PassedCallsAreSpaced | lib/utils.ts:15-20 | two consecutive let-through calls are at least `limitMs` apart |
| NetlifyApi.PrepareRequest | lib/netlify-api.ts:11-22 | the request fails with "Netlify token is not available" exactly when the token is missing or empty; otherwise the URL is the API base followed by the endpoint |
| NetlifyApi.MissingTokenFailsFirst | lib/netlify-api.ts:11-15 | without a token the outcome is that error whatever the network would have done |
| NetlifyApi.HeaderMerge | lib/netlify-api.ts:18-22 | the headers are the caller's plus `Authorization` and `Content-Type`; caller values win, and the defaults are "Bearer <token>" and "application/json" |
| NetlifyApi.SuccessShapes | lib/netlify-api.ts:44-59 | status 204 yields `{success: true}`; a DELETE whose body has `code === 0` yields `{success, message}`; any other ok answer, including a DELETE whose non-null body lacks `code === 0`, yields the data and the headers |
| NetlifyApi.NonOkMessage | lib/netlify-api.ts:30-89 | a failed answer's error is the body's `message`, or else its JSON text, and is prefixed with "Unexpected error when calling Netlify API: " unless it contains "Netlify API request failed" |
| NetlifyApi.NetworkErrors | lib/netlify-api.ts:60-78 | a `TypeError` mentioning "fetch failed", "network" or "Failed to fetch" gives the connectivity message; otherwise code ENOTFOUND or ECONNREFUSED gives the connection message |
| NetlifyApi.FromEntriesLookup | lib/netlify-api.ts:58 | in the headers object a header name maps to its last value |
| NetlifyApi.FromEntriesAbsent | lib/netlify-api.ts:58 | a header not sent is absent from the headers object |
| NetlifyApi.AsList | lib/netlify-api.ts:99-131 | normalisation yields at most one element for anything that is not an array |
| NetlifyApi.AsListRules | lib/netlify-api.ts:99-131 | an array is kept as it is, a non-null object with an `id` becomes a one-element list, and anything else becomes the empty list |
| NetlifyApi.AsListIdempotent | lib/netlify-api.ts:99-131 | normalising an already normalised list changes nothing |
| NetlifyApi.All | lib/netlify-api.ts:116-149 | the fan-out succeeds exactly when every per-site task does, with one result per site in order; a failure carries the error of a failed task |
| NetlifyApi.EnrichedFields | lib/netlify-api.ts:135-146 | an enriched site has the given `lastDeploy` and `last_deploy_time`, and every other property is the site's own |
| NetlifyApi.SitesWithLastDeploy | lib/netlify-api.ts:94-151 | the result has one enriched site per listed site, in order; it fails only when a site is `null` or `undefined`, because the error handler reads `site.id` again |
| NetlifyApi.LastDeployRules | lib/netlify-api.ts:118-146 | a failed lookup gives null and null; otherwise `lastDeploy` is the first normalised deploy or null, and the time is `lastDeploy.created_at` when `lastDeploy` is truthy and null otherwise |
| NetlifyApi.TwoSiteExample | lib/netlify-api.ts:116-151 | two sites, one with a deploy and one whose lookup fails, give the deploy and its `created_at` for the first and null and null for the second |
| NetlifyApi.ParamAppend | lib/netlify-api.ts:260-268 | a parameter of a concatenated query is the first one defined |
| NetlifyApi.DeploysQueryParams | lib/netlify-api.ts:250-268 | the query always has `page` and `per_page`; it has `production` exactly when that option is given, and `state` and `branch` exactly when they are non-empty |
| NetlifyApi.DeploysQueryDefaults | lib/netlify-api.ts:252-253 | the default query is `page=1&per_page=5` |
| NetlifyApi.QueryString | lib/netlify-api.ts:260-270 | the query text is empty exactly when there are no parameters and begins with the first `key=value` |
| NetlifyApi.QueryStringCons | lib/netlify-api.ts:260-270 | pairs are written in order as `key=value`, joined by `&` |
| NetlifyApi.SiteDeploysEndpoint | lib/netlify-api.ts:260-270 | the request path is `/sites/<id>/deploys?` followed by the page parameter |
| NetlifyApi.DefaultDeploysEndpoint | lib/netlify-api.ts:250-270 | with default arguments the path is `/sites/<id>/deploys?page=1&per_page=5` |
| NetlifyApi.SiteDeploys | lib/netlify-api.ts:272-274 | the call resolves to the parsed body of an ordinary answer, to `undefined` for a 204 or DELETE acknowledgement, and rejects with the request's error |
| NetlifyApi.SiteDataName | lib/netlify-api.ts:171-192 | the site payload carries the given name and the "noble" build image |
| NetlifyApi.EnvVarArray | lib/netlify-api.ts:216-220 | one entry per variable, in entry order, whose `key` is the variable name, whose `values` hold its value in the "all" context, and whose `scopes` are builds, runtime and post-processing |
| NetlifyApi.EnvEntryFields | lib/netlify-api.ts:216-220 | each entry is `{key, values: [{value, context: "all"}], scopes: [builds, runtime, post-processing]}` |
| NetlifyApi.CreateSiteRules | lib/netlify-api.ts:195-228 | the call succeeds only with a reply carrying a truthy `data.id` and then returns that data; the env POST is made exactly for a non-empty variable object and a set account slug, to `/accounts/<slug>/env?site_id=<id>` and carries the formatted array; once it is made, its failure is the call's failure and its success returns the site; without the slug the call fails |
| NetlifyApi.ProgressValues | lib/netlify-api.ts:362-371 | progress is 30..99 for building, 10 for initializing, 50 for processing, 80 for uploading and 0 for enqueued |
| NetlifyApi.TaggedFields | lib/netlify-api.ts:357-372 | a tagged build keeps the deploy's state and carries the site's id and name and the computed progress |
| NetlifyApi.InProgressOnlyKeeps | lib/netlify-api.ts:345-356 | a deploy is kept exactly when it is present and in one of the five in-progress states |
| NetlifyApi.ActiveOfIndex | lib/netlify-api.ts:345-374 | the site's active builds are the kept deploys, tagged, one for one and in order |
| NetlifyApi.ActiveOfContents | lib/netlify-api.ts:345-374 | a value is an active build of the site exactly when it is the tagging of one of the site's in-progress deploys |
| NetlifyApi.ActiveOfSound | lib/netlify-api.ts:345-374 | every active build comes from an in-progress deploy |
| NetlifyApi.ActiveOfComplete | lib/netlify-api.ts:345-374 | every in-progress deploy appears, tagged |
| NetlifyApi.FlattenSplit | lib/netlify-api.ts:382 | flattening keeps each site's builds as a contiguous run, in site order |
| NetlifyApi.ActiveBuildsAlwaysEmpty | lib/netlify-api.ts:292-389 | as written, the result is empty for every upstream answer |
| NetlifyApi.ActiveBuildsFromDataContents | lib/netlify-api.ts:292-389 | with the reply's data inspected, the result is the site-ordered concatenation of each site's active builds, or empty when a site is null |
| SitesRoute.SitesEndpoint | app/api/sites/route.ts:14-26 | the listing request is `/sites?` and a query that always leads with `filter=all` |
| SitesRoute.SitesQueryParams | app/api/sites/route.ts:6-21 | `filter` is "all"; page, per_page, sort_by and order_by default to "1", "100", "updated_at" and "desc"; `name` is sent only when non-empty |
| SitesRoute.SitesGetRules | app/api/sites/route.ts:4-68 | the status is 200 or 500; a listing failure gives 500 with `{error}`; otherwise 200 exactly when no site is null, and then one enriched site per listed site, in order, with the upstream `link` passed on |
| SitesRoute.RouteLastDeployRules | app/api/sites/route.ts:35-53 | `lastDeploy` is the first element of a non-empty deploy array, and otherwise null; `last_deploy_time` is `lastDeploy.created_at` when `lastDeploy` is truthy and null otherwise; a failed lookup gives null and null |
| SitesRoute.SingleDeployObjectIgnored | app/api/sites/route.ts:38-41 | a single deploy object is ignored by the route, where the library would take it |
| SitesRoute.NonArrayWrapped | app/api/sites/route.ts:29-31 | an array listing is used as it is; a non-array listing becomes a one-element list with no `id` check |
| SitesRoute.NoContentListing | app/api/sites/route.ts:29-67 | a 204 listing answers 500 with the TypeError for reading `id` of undefined |
| SitesRoute.LinkPassthrough | app/api/sites/route.ts:60-62 | a non-empty upstream `link` header is copied verbatim into `Link` |
| SitesRoute.NoLinkHeader | app/api/sites/route.ts:60-62 | with no upstream `link` header no `Link` is set |
| SitesRoute.SitesPostRules | app/api/sites/route.ts:70-91 | a falsy name answers 400 "Site name is required" without calling `createSite`; otherwise the site answers 200, and a failure answers 500 with its message or "Failed to create site" |
| Client.JsonOrThrowRules | components/deploys-dialog.tsx:59-64 | a rejected fetch fails with its message; an ok answer yields its parsed body; a failed answer fails with the body's `error` or the fallback |
| Client.ErrorBodyRoundTrip | app/api/sites/route.ts:66 | a route's `{error: m}` answer surfaces in the client as `m` |
| Client.WithoutContents | components/sites-table.tsx:170 | removing an id removes every occurrence and keeps every other id as often as before |
| Client.WithoutAppend | components/sites-table.tsx:170 | removal distributes over concatenation, so order is kept |
| Client.InFlightRoundTrip | components/sites-table.tsx:140-170 | adding an id at the start and removing it at the end restores a list without it |
| Client.WithoutAbsent | components/sites-table.tsx:170 | removing an id that is not present changes nothing |
| Client.EnvVarsObjectFields | components/create-site-button.tsx:74-78 | the variable object always has the institution id, and has the other two exactly when they are truthy |
| SitesTableUi.SortParam | components/sites-table.tsx:83-84 | only keys the listing accepts ("name", "created_at", "updated_at") are sent; the column's own name is sent exactly when it is not the client-side last-deploy time |
| SitesTableUi.SitesPageQueryParams | components/sites-table.tsx:86-92 | the query sends page "1" on reset and the current page otherwise, per_page "100", the sort key and direction, and `name` only when the search term is non-empty |
| SitesTableUi.HasNextIff | components/sites-table.tsx:107-108 | `hasMore` holds exactly when a Link header exists and contains `rel="next"` |
| SitesTableUi.AfterFetchRules | components/sites-table.tsx:94-117 | the error is cleared exactly for an ok answer with a readable body; a failure keeps the list with a non-empty message; a 429 gives the rate-limit message; an array replaces the list on reset and is appended otherwise |
| SitesTableUi.PagesAccumulate | components/sites-table.tsx:111 | a reset fetch followed by a next-page fetch gives the two pages in order |
| SitesTableUi.RedeployToastRules | components/sites-table.tsx:147-168 | the redeploy toast is destructive exactly when the answer was not ok |
| SitesTableUi.WithoutSiteContents | components/sites-table.tsx:174-176 | deleting drops every site with that id and keeps every other site as often as before |
| SitesTableUi.WithoutSiteAppend | components/sites-table.tsx:174-176 | deletion distributes over concatenation, so order is kept |
| SitesTableUi.BadgeRules | components/sites-table.tsx:390-408 | the badge relabels exactly ready, error and building, and is "default" for every other state |
| SitesTableUi.StripSchemeSuffix | components/sites-table.tsx:364 | the URL is the shown text preceded by the "https://" or "http://" it starts with, and the text is the URL itself exactly when it starts with neither |
| SitesTableUi.SortTwiceRestores | components/sites-table.tsx:125-132 | two `handleSort` calls on the column already sorted restore its direction; on a new column they leave it descending; the listing, page and search are kept |
| SitesTableUi.SitesTable.HandleSort | components/sites-table.tsx:125-132 | the same field flips the direction; a new field is selected with ascending order |
| SitesTableUi.SitesTable.FetchSites | components/sites-table.tsx:74-119 | nothing happens while refreshing, and the limiter is not consulted; otherwise the limiter is called and, unless it limits, the query is sent and the list, `hasMore` and `error` become the settled values |
| SitesTableUi.SitesTable.BeginRedeploy | components/sites-table.tsx:140 | the id is appended to the in-flight list |
| SitesTableUi.SitesTable.FinishRedeploy | components/sites-table.tsx:147-171 | every occurrence of the id leaves the in-flight list, and the toast reflects the answer |
| SitesTableUi.SitesTable.HandleSiteDeleted | components/sites-table.tsx:174-176 | the list loses exactly the sites with that id |
| SitesTableUi.SitesTable.HandleSearch | components/sites-table.tsx:134-137 | the term is stored and the page returns to 1 |
| ActiveBuildsUi.SettledRules | components/active-builds-table.tsx:48-71 | a non-array body gives no builds and no cache write; an array is cached and shown; a failure keeps the list and records a non-empty message |
| ActiveBuildsUi.CachedListLivesFiveMinutes | components/active-builds-table.tsx:62 | a cached list asked to live 30 s is still served up to five minutes later |
| ActiveBuildsUi.StatusLabelRules | components/active-builds-table.tsx:153-168 | exactly the five in-progress states are relabelled, by capitalising the first letter: same length, same tail, first character moved from lower to upper case |
| ActiveBuildsUi.ProgressTextRules | components/active-builds-table.tsx:239-257 | enqueued shows "Waiting to start"; otherwise a truthy progress shows "N%" and a zero progress "In progress" |
| ActiveBuildsUi.ActiveBuildsTable.FetchBuilds | components/active-builds-table.tsx:32-72 | it does nothing while refreshing or when throttled at 2000 ms; a truthy cache entry is shown with no request; otherwise the request settles the view and the cache |
| DeploysUi.DeployStatusRules | components/deploys-dialog.tsx:100-119 | five states get their own badge and any other state shows itself in outline; exactly building, enqueued and new can be cancelled |
| DeploysUi.DisplayTitle | components/deploys-dialog.tsx:170 | the title is `title` if truthy, else `commit_message` if truthy, else "Deploy" |
| DeploysUi.CancelOutcomeRules | components/deploys-dialog.tsx:78-88 | a cancel succeeds exactly for an ok answer with a readable body; a failed answer without `error` gives "Failed to cancel deploy" |
| DeploysUi.DeploysDialog.FetchDeploys | components/deploys-dialog.tsx:52-72 | success replaces the deploys; failure records the message or the fallback; loading ends |
| DeploysUi.DeploysDialog.BeginCancel | components/deploys-dialog.tsx:76 | the id is appended to the cancelling list |
| DeploysUi.DeploysDialog.FinishCancel | components/deploys-dialog.tsx:85-97 | the list is fetched again exactly after a successful cancel; a failure records its message; every occurrence of the id leaves the cancelling list |
| CreateSiteUi.Trim | components/create-site-button.tsx:42 | the result is a slice of the input with only whitespace cut off either end and no whitespace at its own ends |
| CreateSiteUi.TrimRules | components/create-site-button.tsx:42 | trimming is idempotent, and whitespace alone trims to "" |
| CreateSiteUi.Validate | components/create-site-button.tsx:42-69 | the form passes exactly when the sanitised name matches `^[a-z0-9-]+$` and the institution id is non-empty; an empty name, a bad name and a missing id are reported in that order with their texts |
| CreateSiteUi.ValidatedNameShape | components/create-site-button.tsx:42-60 | a validated name is non-empty, lower-case, made of letters, digits and hyphens |
| CreateSiteUi.RequestBodyFields | components/create-site-button.tsx:74-89 | the body carries the name as typed and the variables, with the optional ones only when non-empty |
| CreateSiteUi.RawNameIsSent | components/create-site-button.tsx:42-89 | "My-Site" passes validation but is posted as "My-Site", not "my-site" |
| CreateSiteUi.CreateSiteButton.HandleSubmit | components/create-site-button.tsx:39-125 | a rejected form shows its toast and sends nothing; otherwise the body is posted; success closes and resets the form with the success toast; failure keeps the form and shows the error |
| CreateSiteUi.CreateSiteButton.HandleCancel | components/create-site-button.tsx:127-135 | the dialog closes and the form returns to "", "", "" and "false" |
| EditSiteUi.LoadedRules | components/edit-site-dialog.tsx:68-73 | truthy variables are taken as returned; missing or falsy ones become "" or, for `GATSBY_SHOWCODE`, "false"; a null body fails with the TypeError |
| EditSiteUi.EnvFetchRules | components/edit-site-dialog.tsx:52-68 | a failed site read is the outcome whatever the env read would give; after a good site read the env answer decides |
| EditSiteUi.LoadThenPut | components/edit-site-dialog.tsx:69-123 | loading then submitting unchanged writes back every truthy variable and always a `GATSBY_SHOWCODE` |
| EditSiteUi.PutOutcome | components/edit-site-dialog.tsx:108-132 | the PUT succeeds exactly on an ok answer; a rejection keeps its message and a failed answer gives its `error` text or the fallback |
| EditSiteUi.RedeployOutcome | components/edit-site-dialog.tsx:135-137 | the deploy request fails the submit only when it rejects; its status is not inspected |
| EditSiteUi.CheckboxRoundTrip | components/edit-site-dialog.tsx:219-226 | the checkbox shows what it last wrote, and writing what it shows keeps "true" or "false" |
| EditSiteUi.EditSiteDialog.SetOpen | components/edit-site-dialog.tsx:37 | opening or closing the dialog changes only `open`; the form and both in-flight flags are kept |
| EditSiteUi.EditSiteDialog.FetchEnvVars | components/edit-site-dialog.tsx:48-85 | nothing happens when closed; the env read is made only after a good site read; success fills the form; failure closes the dialog with a toast; loading ends |
| EditSiteUi.EditSiteDialog.SetShowCode | components/edit-site-dialog.tsx:221-226 | the checkbox writes "true" or "false" and nothing else changes |
| EditSiteUi.EditSiteDialog.HandleSubmit | components/edit-site-dialog.tsx:94-157 | a falsy institution id is rejected with no request; otherwise the body is sent; the deploy is requested exactly after an ok PUT; success closes the dialog; `updating` ends false |

## Left out

- Network I/O, Next.js and React are left out. Every `fetch`, Netlify reply and thrown error is an input value.
- `Promise.all` is a sequential map, because only per-index correspondence and order matter.
- `Math.random` in building progress is an input `draw` of type 0..69.
- `Date.now` is a `now` parameter.
- `JSON.stringify` and `JSON.parse` are opaque. Parsing is an input `Result`, and stringify is a function parameter.
- `URLSearchParams` percent-encoding is not modelled: a query is an ordered list of pairs joined with `&` and `=`.
- `toLowerCase` covers ASCII letters only. `trim` covers the full ECMAScript whitespace set.
- Numbers are integers. Dates, `toLocaleString`, `formatDistanceToNow` and the deploy-time division are not modelled.
- Effects are not modelled: `useEffect`, polling, the 3 s `setTimeout` refetch, `window.location.reload`, toasts as UI and all rendering.
- The 60 s cooldown in components/sites-table.tsx:98 writes a map that is never read, so it is not modelled.
- `cn`, lib/builds-context.tsx, components/delete-site-dialog.tsx, the other API routes and the pages are not part of this model.
- `getSite`, `createDeployKey`, `updateSiteEnvVars`, `deleteSite`, `createBuild` and `cancelDeploy` are one-line calls of `fetchNetlify`, which is modelled.
- `getActiveBuilds`'s per-site endpoint strings are not modelled. The per-site reply is a function of the site.
- Console logging is left out.
- NetlifyApi.NonOkMessage: does not cover a failed answer whose body is `null`; its requires excludes that case. `NetlifyApi.FetchNetlify` itself models that path: the read of `message` throws.
- SitesTableUi.AfterFetch: an ok answer whose body is not an array leaves the list unchanged. The source stores such a body as is on a reset; otherwise it spreads it, which throws or adds a string's characters.
- DeploysUi.DisplayTitle: a `null` entry in the deploy list gets the fallback title, whereas rendering it would throw.

## Findings

| source | as written | input that shows it | evidently intended | confidence | as-written member | corrected member |
|---|---|---|---|---|---|---|
| lib/netlify-api.ts:298-305,324-335 | the site list and each deploy list are normalised from the `{data, headers}` object `fetchNetlify` returns, not from its `data`, so no site ever has active builds | any reply to the site listing, e.g. an array of sites each with a building deploy | normalise `response.data`, so that in-progress deploys are reported | high (not executed) | NetlifyApi.ActiveBuildsAlwaysEmpty | NetlifyApi.ActiveBuildsFromDataContents |
