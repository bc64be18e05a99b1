/** components/active-builds-table.tsx: the cache-first `fetchBuilds`
    handler over the shared build list (`builds`, `isLoaded`) and the
    component's own `error` and `refreshing`, with the status-label and
    progress-text helpers. */
module ActiveBuildsUi {
  import opened Wrappers
  import opened Json
  import opened Client
  import opened Utils
  import opened CacheLib
  import NetlifyApi

  const BUILDS_CACHE_KEY: string := "active-builds"
  const FETCH_KEY: string := "fetchBuilds"
  const FETCH_LIMIT_MS: int := 2000
  const REQUESTED_TTL: int := 30000
  const FETCH_FAILED: string := "Failed to fetch builds"
  const FETCH_ERROR: string := "An error occurred while fetching builds"

  /** `builds`, `isLoaded` and `error` after a request has settled. */
  datatype View = View(builds: Json, isLoaded: bool, error: Option<string>)

  /** A non-array payload empties the list, an array payload becomes the
      list; either way the list counts as loaded. A failure keeps the list
      and records the message (defaulted). */
  function Settled(call: ApiCall, prevBuilds: Json, prevLoaded: bool): View {
    match JsonOrThrow(call, FETCH_FAILED)
    case Failure(m) => View(prevBuilds, prevLoaded, Some(OrElse(m, FETCH_ERROR)))
    case Success(data) => View(if data.Arr? then data else Arr([]), true, None)
  }

  /** The cache after a request has settled: only an array payload is written. */
  function CacheAfter(entries: map<string, Entry>, call: ApiCall, arrivedAt: int): map<string, Entry> {
    match JsonOrThrow(call, FETCH_FAILED)
    case Success(data) => if data.Arr? then Stored(entries, BUILDS_CACHE_KEY, data, REQUESTED_TTL, arrivedAt) else entries
    case Failure(_) => entries
  }

  lemma SettledRules(call: ApiCall, prevBuilds: Json, prevLoaded: bool, entries: map<string, Entry>, arrivedAt: int)
    ensures var v := Settled(call, prevBuilds, prevLoaded);
      var data := JsonOrThrow(call, FETCH_FAILED);
      && (data.Success? && !data.value.Arr? ==> v == View(Arr([]), true, None) && CacheAfter(entries, call, arrivedAt) == entries)
      && (data.Success? && data.value.Arr? ==>
            v == View(data.value, true, None) &&
            Read(CacheAfter(entries, call, arrivedAt), BUILDS_CACHE_KEY, arrivedAt) == Some(data.value))
      && (data.Failure? ==>
            v.builds == prevBuilds && v.isLoaded == prevLoaded && v.error.Some? && v.error.value != "" &&
            CacheAfter(entries, call, arrivedAt) == entries)
      && (v.error.None? ==> v.builds.Arr? && v.isLoaded)
  {
  }

  /** The 30-second lifetime asked for is not the one applied: a cached
      list is still served five minutes after it arrived. */
  lemma CachedListLivesFiveMinutes(entries: map<string, Entry>, call: ApiCall, arrivedAt: int, later: int)
    requires JsonOrThrow(call, FETCH_FAILED).Success? && JsonOrThrow(call, FETCH_FAILED).value.Arr?
    requires arrivedAt + REQUESTED_TTL < later <= arrivedAt + TTL
    ensures Read(CacheAfter(entries, call, arrivedAt), BUILDS_CACHE_KEY, later) == Some(JsonOrThrow(call, FETCH_FAILED).value)
  {
  }

  /** `getStatusLabel`. */
  function StatusLabel(state: string): string {
    if state == "building" then "Building"
    else if state == "enqueued" then "Enqueued"
    else if state == "processing" then "Processing"
    else if state == "uploading" then "Uploading"
    else if state == "initializing" then "Initializing"
    else state
  }

  /** The five in-progress states are relabelled; every other state shows itself. */
  lemma StatusLabelRules(state: string)
    ensures NetlifyApi.InProgressState(Str(state)) <==> StatusLabel(state) != state
    ensures NetlifyApi.InProgressState(Str(state)) ==> |StatusLabel(state)| == |state| && StatusLabel(state)[1..] == state[1..]
    ensures NetlifyApi.InProgressState(Str(state)) ==> StatusLabel(state)[0] as int == state[0] as int - 32
  {
  }

  /** The text of the progress cell. */
  function ProgressText(state: Json, progress: Json): string {
    if state == Str("enqueued") then "Waiting to start"
    else if Truthy(progress) then JsString(progress) + "%"
    else "In progress"
  }

  /** An enqueued build waits; another build shows its percentage when it
      has a non-zero one, and a generic text otherwise. */
  lemma ProgressTextRules(state: Json, progress: Json, roll: NetlifyApi.Roll)
    ensures state == Str("enqueued") ==> ProgressText(state, progress) == "Waiting to start"
    ensures state != Str("enqueued") && progress == Num(0) ==> ProgressText(state, progress) == "In progress"
    ensures state != Str("enqueued") && Truthy(progress) ==> ProgressText(state, progress) == JsString(progress) + "%"
    ensures state == Str("building") ==>
      ProgressText(state, Num(NetlifyApi.Progress(state, roll))) == IntToString(roll + 30) + "%"
  {
  }

  class ActiveBuildsTable {
    var builds: Json
    var isLoaded: bool
    var error: Option<string>
    var refreshing: bool

    constructor ()
      ensures builds == Arr([]) && !isLoaded && error == None && !refreshing
    {
      builds := Arr([]);
      isLoaded := false;
      error := None;
      refreshing := false;
    }

    /** `fetchBuilds()` at time `now`; `call` is what `/api/builds` would
        produce, arriving at `arrivedAt`. Returns whether the request was made. */
    method FetchBuilds(limiter: RateLimiters, cache: Cache, now: int, arrivedAt: int, call: ApiCall) returns (requested: bool)
      modifies this, limiter, cache
      ensures refreshing == old(refreshing)
      ensures old(refreshing) ==> !requested && builds == old(builds) && isLoaded == old(isLoaded) && error == old(error)
      ensures old(refreshing) ==> limiter.lastCalls == old(limiter.lastCalls) && cache.entries == old(cache.entries)
      ensures !old(refreshing) ==> limiter.lastCalls == AfterCall(old(limiter.lastCalls), FETCH_KEY, now, FETCH_LIMIT_MS)
      ensures !old(refreshing) && Limited(old(limiter.lastCalls), FETCH_KEY, now, FETCH_LIMIT_MS) ==>
        !requested && builds == old(builds) && isLoaded == old(isLoaded) && error == old(error) && cache.entries == old(cache.entries)
      ensures !old(refreshing) && !Limited(old(limiter.lastCalls), FETCH_KEY, now, FETCH_LIMIT_MS) ==>
        var hit := Read(old(cache.entries), BUILDS_CACHE_KEY, now);
        var afterRead := AfterRead(old(cache.entries), BUILDS_CACHE_KEY, now);
        && (hit.Some? && Truthy(hit.value) ==>
              !requested && builds == hit.value && isLoaded && error == None && cache.entries == afterRead)
        && (!(hit.Some? && Truthy(hit.value)) ==>
              requested && View(builds, isLoaded, error) == Settled(call, old(builds), old(isLoaded)) &&
              cache.entries == CacheAfter(afterRead, call, arrivedAt))
    {
      requested := false;
      if refreshing {
        return;
      }
      var limited := limiter.IsRateLimited(FETCH_KEY, now, FETCH_LIMIT_MS);
      if limited {
        return;
      }
      refreshing := true;
      error := None;
      var cached := cache.Get(BUILDS_CACHE_KEY, now);
      if cached.Some? && Truthy(cached.value) {
        builds := cached.value;
        isLoaded := true;
        refreshing := false;
        return;
      }
      requested := true;
      var outcome := JsonOrThrow(call, FETCH_FAILED);
      if outcome.Failure? {
        error := Some(OrElse(outcome.error, FETCH_ERROR));
      } else {
        var data := outcome.value;
        if !data.Arr? {
          builds := Arr([]);
        } else {
          cache.Set(BUILDS_CACHE_KEY, data, arrivedAt, REQUESTED_TTL);
          builds := data;
        }
        isLoaded := true;
      }
      refreshing := false;
    }
  }
}
