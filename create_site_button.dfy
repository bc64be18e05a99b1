/** components/create-site-button.tsx: the create-site form, its client
    side validation and the request it sends to the sites route. */
module CreateSiteUi {
  import opened Wrappers
  import opened Json
  import opened Client

  const NAME_REQUIRED: string := "Site name is required"
  const NAME_INVALID: string := "Site name can only contain lowercase letters, numbers, and hyphens"
  const CREATE_FAILED: string := "Failed to create site"
  const CREATE_ERROR: string := "An error occurred while creating the site"

  /** The characters `String.prototype.trim` removes: the white space and
      line terminators of section 12.2 and 12.3 of ECMA-262 (tab, vertical
      tab, form feed, the space separators, the byte order mark, line feed,
      carriage return, line and paragraph separators). */
  predicate IsWhitespace(c: char) {
    || c == '\t' || c == '\U{000B}' || c == '\U{000C}' || c == ' ' || c == '\U{00A0}' || c == '\U{FEFF}'
    || c == '\U{1680}' || ('\U{2000}' <= c <= '\U{200A}') || c == '\U{202F}' || c == '\U{205F}' || c == '\U{3000}'
    || c == '\n' || c == '\r' || c == '\U{2028}' || c == '\U{2029}'
  }

  predicate IsUpper(c: char) {
    'A' <= c <= 'Z'
  }

  function LowerChar(c: char): (r: char)
    ensures !IsUpper(r)
    ensures !IsUpper(c) ==> r == c
  {
    if IsUpper(c) then (c as int + 32) as char else c
  }

  /** `toLowerCase` on ASCII letters. */
  function ToLower(s: string): (r: string)
    ensures |r| == |s|
    ensures forall i :: 0 <= i < |s| ==> r[i] == LowerChar(s[i])
  {
    if s == [] then [] else [LowerChar(s[0])] + ToLower(s[1..])
  }

  /** The number of whitespace characters at the start of `s`. */
  function LeadingSpace(s: string): (k: nat)
    ensures k <= |s|
    ensures forall i :: 0 <= i < k ==> IsWhitespace(s[i])
    ensures k == |s| || !IsWhitespace(s[k])
  {
    if s != [] && IsWhitespace(s[0]) then 1 + LeadingSpace(s[1..]) else 0
  }

  /** The number of whitespace characters at the end of `s`. */
  function TrailingSpace(s: string): (k: nat)
    ensures k <= |s|
    ensures forall i :: |s| - k <= i < |s| ==> IsWhitespace(s[i])
    ensures k == |s| || !IsWhitespace(s[|s| - 1 - k])
  {
    if s != [] && IsWhitespace(s[|s| - 1]) then 1 + TrailingSpace(s[..|s| - 1]) else 0
  }

  /** `trim()`: the slice of `s` between its leading and trailing whitespace. */
  function Trim(s: string): (r: string)
    ensures r == [] || (!IsWhitespace(r[0]) && !IsWhitespace(r[|r| - 1]))
    ensures exists i, j ::
      && 0 <= i <= j <= |s| && r == s[i..j]
      && (forall k :: 0 <= k < i ==> IsWhitespace(s[k]))
      && (forall k :: j <= k < |s| ==> IsWhitespace(s[k]))
  {
    var a := LeadingSpace(s);
    var t := s[a..];
    var b := TrailingSpace(t);
    assert forall k :: a + |t| - b <= k < |s| ==> s[k] == t[k - a];
    assert s[a..a + |t| - b] == t[..|t| - b];
    t[..|t| - b]
  }

  /** Trimming twice changes nothing more, and whitespace alone trims to "". */
  lemma TrimRules(s: string)
    ensures Trim(Trim(s)) == Trim(s)
    ensures (forall k :: 0 <= k < |s| ==> IsWhitespace(s[k])) ==> Trim(s) == ""
  {
    var r := Trim(s);
    var a := LeadingSpace(r);
    assert a == 0;
    assert r[0..] == r;
    var b := TrailingSpace(r);
    assert b == 0;
    assert r[..|r|] == r;
  }

  /** `siteName.toLowerCase().trim()`. */
  function Sanitise(name: string): (r: string)
    ensures forall k :: 0 <= k < |r| ==> !IsUpper(r[k])
    ensures |r| <= |name|
  {
    Trim(ToLower(name))
  }

  predicate NameChar(c: char) {
    ('a' <= c <= 'z') || ('0' <= c <= '9') || c == '-'
  }

  /** `/^[a-z0-9-]+$/`. */
  predicate ValidName(s: string) {
    |s| > 0 && forall k :: 0 <= k < |s| ==> NameChar(s[k])
  }

  /** The checks of `handleSubmit` in order: the first that fails decides
      the toast, and no request is sent. */
  function Validate(siteName: string, instId: string): (r: Option<Toast>)
    ensures r.None? <==> ValidName(Sanitise(siteName)) && instId != ""
    ensures r.Some? ==> r.value.destructive
    ensures Sanitise(siteName) == "" ==> r == Some(Toast("Error", NAME_REQUIRED, true))
    ensures Sanitise(siteName) != "" && !ValidName(Sanitise(siteName)) ==> r == Some(Toast("Invalid site name", NAME_INVALID, true))
    ensures ValidName(Sanitise(siteName)) && instId == "" ==> r == Some(Toast("Error", INSTID_REQUIRED, true))
  {
    var name := Sanitise(siteName);
    if name == "" then Some(Toast("Error", NAME_REQUIRED, true))
    else if !ValidName(name) then Some(Toast("Invalid site name", NAME_INVALID, true))
    else if instId == "" then Some(Toast("Error", INSTID_REQUIRED, true))
    else None
  }

  /** A name that passes validation, once sanitised, is one Netlify accepts
      as a subdomain: non-empty, lower-case, no surrounding whitespace. */
  lemma ValidatedNameShape(siteName: string, instId: string)
    requires Validate(siteName, instId).None?
    ensures var n := Sanitise(siteName);
      |n| > 0 && !IsWhitespace(n[0]) && !IsWhitespace(n[|n| - 1]) && forall k :: 0 <= k < |n| ==> NameChar(n[k])
  {
  }

  /** The JSON body of the POST: the name as typed, with the optional
      variables left out when empty. */
  function RequestBody(siteName: string, instId: string, locations: string, showCode: string): Json {
    Obj([("name", Str(siteName)), ("envVars", EnvVarsObject(Str(instId), Str(locations), Str(showCode)))])
  }

  /** The request carries the name as typed, not its sanitised form, and the
      variables the form holds. */
  lemma RequestBodyFields(siteName: string, instId: string, locations: string, showCode: string)
    ensures var body := RequestBody(siteName, instId, locations, showCode);
      && Get(body, "name") == Str(siteName)
      && Get(Get(body, "envVars"), INSTID) == Str(instId)
      && (Has(Get(body, "envVars"), LOCATIONS) <==> locations != "")
      && (Has(Get(body, "envVars"), SHOWCODE) <==> showCode != "")
  {
    var f := RequestBody(siteName, instId, locations, showCode).fields;
    LookupFirst(f, "name", 0);
    LookupFirst(f, "envVars", 1);
    EnvVarsObjectFields(Str(instId), Str(locations), Str(showCode));
  }

  lemma SanitisedExample()
    ensures Sanitise("My-Site") == "my-site"
  {
    var lowered := ToLower("My-Site");
    assert lowered == "my-site" by {
      assert lowered[0] == LowerChar('M') == 'm';
      assert lowered[3] == LowerChar('S') == 's';
    }
    assert LeadingSpace(lowered) == 0;
    assert lowered[0..] == lowered;
    assert TrailingSpace(lowered) == 0;
    assert lowered[..|lowered|] == lowered;
  }

  /** A name with capitals passes validation but is sent as typed. */
  lemma RawNameIsSent()
    ensures Validate("My-Site", "42").None?
    ensures Get(RequestBody("My-Site", "42", "", "false"), "name") != Str(Sanitise("My-Site"))
  {
    SanitisedExample();
    assert ValidName("my-site");
    RequestBodyFields("My-Site", "42", "", "false");
    assert "My-Site" != "my-site" by {
      assert "My-Site"[0] == 'M' && "my-site"[0] == 'm';
    }
  }

  class CreateSiteButton {
    var open: bool
    var siteName: string
    var instId: string
    var locations: string
    var showCode: string
    var creating: bool

    /** The form with its initial values. */
    predicate Cleared()
      reads this
    {
      siteName == "" && instId == "" && locations == "" && showCode == "false"
    }

    constructor ()
      ensures !open && !creating && Cleared()
    {
      open := false;
      siteName := "";
      instId := "";
      locations := "";
      showCode := "false";
      creating := false;
    }

    /** `handleSubmit`: `call` is what the POST to the sites route produces.
        `posted` is the body sent, when validation lets a request out. */
    method HandleSubmit(call: ApiCall) returns (posted: Option<Json>, toast: Toast)
      modifies this
      ensures posted.Some? <==> Validate(old(siteName), old(instId)).None?
      ensures posted.None? ==>
        && toast == Validate(old(siteName), old(instId)).value
        && open == old(open) && creating == old(creating)
        && siteName == old(siteName) && instId == old(instId)
        && locations == old(locations) && showCode == old(showCode)
      ensures posted.Some? ==>
        && posted.value == RequestBody(old(siteName), old(instId), old(locations), old(showCode))
        && !creating
      ensures (posted.Some? && JsonOrThrow(call, CREATE_FAILED).Success?) ==>
        && toast == Toast("Site created", old(siteName) + " has been created successfully.", false)
        && !open && Cleared()
      ensures (posted.Some? && JsonOrThrow(call, CREATE_FAILED).Failure?) ==>
        && toast == Toast("Create failed", OrElse(JsonOrThrow(call, CREATE_FAILED).error, CREATE_ERROR), true)
        && open == old(open)
        && siteName == old(siteName) && instId == old(instId)
        && locations == old(locations) && showCode == old(showCode)
    {
      var rejection := Validate(siteName, instId);
      if rejection.Some? {
        posted := None;
        toast := rejection.value;
        return;
      }
      creating := true;
      posted := Some(RequestBody(siteName, instId, locations, showCode));
      var outcome := JsonOrThrow(call, CREATE_FAILED);
      if outcome.Success? {
        creating := false;
        open := false;
        var name := siteName;
        siteName := "";
        instId := "";
        locations := "";
        showCode := "false";
        toast := Toast("Site created", name + " has been created successfully.", false);
      } else {
        toast := Toast("Create failed", OrElse(outcome.error, CREATE_ERROR), true);
        creating := false;
      }
    }

    /** `handleCancel`: close and reset the form. */
    method HandleCancel()
      modifies this
      ensures !open && Cleared() && creating == old(creating)
    {
      open := false;
      siteName := "";
      instId := "";
      locations := "";
      showCode := "false";
    }
  }
}
