/** What the components share: the outcome of a browser `fetch` to the
    console's own API routes, the message a handler throws for a failed
    answer, the in-flight id lists, toasts, and the environment-variable
    object both site dialogs send. */
module Client {
  import opened Wrappers
  import opened Json
  import NetlifyApi

  /** A `fetch` to an API route: an answer (status, the result of
      `response.json()`, and the `Link` header if any), or a rejection. */
  datatype ApiCall =
    | Answered(status: int, body: Result<Json, string>, link: Option<string>)
    | Rejected(message: string)

  /** `new Error(errorData.error || fallback)` after reading a failed
      answer's body: a body that does not parse rejects with its own
      message, and a `null` body fails on reading `.error`. */
  function ErrorMessage(body: Result<Json, string>, fallback: string): string {
    match body
    case Failure(m) => m
    case Success(d) =>
      if Nullish(d) then ReadError(d, "error")
      else if Truthy(Get(d, "error")) then JsString(Get(d, "error"))
      else fallback
  }

  /** The usual handler prologue: throw for a failed answer, else parse the body. */
  function JsonOrThrow(call: ApiCall, fallback: string): Result<Json, string> {
    match call
    case Rejected(m) => Failure(m)
    case Answered(status, body, _) =>
      if !NetlifyApi.IsOk(status) then Failure(ErrorMessage(body, fallback)) else body
  }

  /** An ok answer yields its parsed body; a failed answer the route's
      `error` text, or the fallback when it has none; a rejection its message. */
  lemma JsonOrThrowRules(call: ApiCall, fallback: string)
    ensures call.Rejected? ==> JsonOrThrow(call, fallback) == Failure(call.message)
    ensures call.Answered? && NetlifyApi.IsOk(call.status) ==> JsonOrThrow(call, fallback) == call.body
    ensures call.Answered? && !NetlifyApi.IsOk(call.status) && call.body.Success? && call.body.value.Obj? ==>
      JsonOrThrow(call, fallback) == Failure(if Truthy(Get(call.body.value, "error")) then JsString(Get(call.body.value, "error")) else fallback)
  {
  }

  /** A route's `{error: message}` body gives back that message. */
  lemma ErrorBodyRoundTrip(message: string, status: int, fallback: string)
    requires !NetlifyApi.IsOk(status) && message != ""
    ensures JsonOrThrow(Answered(status, Success(Obj([("error", Str(message))])), None), fallback) == Failure(message)
  {
    LookupFirst([("error", Str(message))], "error", 0);
  }

  /** `ids.filter((id) => id !== x)`. */
  function Without(ids: seq<string>, x: string): seq<string> {
    if ids == [] then []
    else (if ids[0] == x then [] else [ids[0]]) + Without(ids[1..], x)
  }

  /** Removal drops every occurrence of `x`, keeps every other id exactly as
      often as before, and distributes over concatenation (so order is kept). */
  lemma {:induction false} WithoutContents(ids: seq<string>, x: string, y: string)
    ensures x !in Without(ids, x)
    ensures y != x ==> multiset(Without(ids, x))[y] == multiset(ids)[y]
  {
    if ids != [] {
      WithoutContents(ids[1..], x, y);
      assert ids == [ids[0]] + ids[1..];
    }
  }

  lemma {:induction false} WithoutAppend(a: seq<string>, b: seq<string>, x: string)
    ensures Without(a + b, x) == Without(a, x) + Without(b, x)
  {
    if a != [] {
      assert (a + b)[1..] == a[1..] + b;
      WithoutAppend(a[1..], b, x);
    } else {
      assert a + b == b;
    }
  }

  /** Adding an id when a request starts and removing it when it settles
      leaves the other in-flight ids as they were. */
  lemma InFlightRoundTrip(ids: seq<string>, x: string)
    ensures Without(ids + [x], x) == Without(ids, x)
    ensures x !in ids ==> Without(ids + [x], x) == ids
  {
    WithoutAppend(ids, [x], x);
    assert Without([x], x) == [];
    if x !in ids {
      WithoutAbsent(ids, x);
    }
  }

  lemma {:induction false} WithoutAbsent(ids: seq<string>, x: string)
    requires x !in ids
    ensures Without(ids, x) == ids
  {
    if ids != [] {
      WithoutAbsent(ids[1..], x);
      assert ids == [ids[0]] + ids[1..];
    }
  }

  datatype Toast = Toast(title: string, description: string, destructive: bool)

  const INSTID: string := "GATSBY_YOUVISIT_INSTID"
  const LOCATIONS: string := "GATSBY_LOCATIONS"
  const SHOWCODE: string := "GATSBY_SHOWCODE"
  const INSTID_REQUIRED: string := "GATSBY_YOUVISIT_INSTID is required"

  /** `{GATSBY_YOUVISIT_INSTID, ...(locations ? {GATSBY_LOCATIONS} : {}),
      ...(showCode ? {GATSBY_SHOWCODE} : {})}`. */
  function EnvVarsObject(instId: Json, locations: Json, showCode: Json): Json {
    Obj([(INSTID, instId)]
        + (if Truthy(locations) then [(LOCATIONS, locations)] else [])
        + (if Truthy(showCode) then [(SHOWCODE, showCode)] else []))
  }

  /** The object always carries the institution id, and carries the other two
      variables exactly when they are non-empty. */
  lemma EnvVarsObjectFields(instId: Json, locations: Json, showCode: Json)
    ensures var o := EnvVarsObject(instId, locations, showCode);
      && Get(o, INSTID) == instId
      && (Has(o, LOCATIONS) <==> Truthy(locations))
      && (Truthy(locations) ==> Get(o, LOCATIONS) == locations)
      && (Has(o, SHOWCODE) <==> Truthy(showCode))
      && (Truthy(showCode) ==> Get(o, SHOWCODE) == showCode)
      && |o.fields| <= 3
  {
    var f := EnvVarsObject(instId, locations, showCode).fields;
    LookupFirst(f, INSTID, 0);
    if Truthy(locations) {
      LookupFirst(f, LOCATIONS, 1);
    }
    if Truthy(showCode) {
      LookupFirst(f, SHOWCODE, |f| - 1);
    }
  }
}
