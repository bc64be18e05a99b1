/** components/edit-site-dialog.tsx: loading a site's environment
    variables into the form, the checkbox for `GATSBY_SHOWCODE`, and the
    submit that writes the variables and triggers a deploy. */
module EditSiteUi {
  import opened Wrappers
  import opened Json
  import opened Client
  import NetlifyApi

  const SITE_FAILED: string := "Failed to fetch site details"
  const ENV_FAILED: string := "Failed to fetch environment variables"
  const UPDATE_FAILED: string := "Failed to update environment variables"
  const UPDATE_ERROR: string := "An error occurred while updating the site"

  /** The three variables the form holds. They are whatever the env route
      returned, so not necessarily strings. */
  datatype Form = Form(instId: Json, locations: Json, showCode: Json)

  const INITIAL: Form := Form(Str(""), Str(""), Str("false"))

  /** `value || fallback`. */
  function Or(value: Json, fallback: Json): (r: Json)
    ensures Truthy(value) ==> r == value
    ensures !Truthy(value) ==> r == fallback
  {
    if Truthy(value) then value else fallback
  }

  /** The form built from the env route's body; a `null` body fails on the
      first property read. */
  function Loaded(data: Json): Result<Form, string> {
    if Nullish(data) then Failure(ReadError(data, INSTID))
    else Success(Form(Or(Get(data, INSTID), Str("")), Or(Get(data, LOCATIONS), Str("")), Or(Get(data, SHOWCODE), Str("false"))))
  }

  /** A truthy variable is taken as returned; a missing or falsy one becomes
      "" (or "false" for `GATSBY_SHOWCODE`), so `GATSBY_SHOWCODE` is never falsy. */
  lemma LoadedRules(data: Json)
    ensures Loaded(data).Failure? <==> Nullish(data)
    ensures Nullish(data) ==> Loaded(data).error == ReadError(data, INSTID)
    ensures Loaded(data).Success? ==>
      && Truthy(Loaded(data).value.showCode)
      && (Truthy(Get(data, INSTID)) ==> Loaded(data).value.instId == Get(data, INSTID))
      && (!Truthy(Get(data, INSTID)) ==> Loaded(data).value.instId == Str(""))
      && (Truthy(Get(data, LOCATIONS)) ==> Loaded(data).value.locations == Get(data, LOCATIONS))
      && (!Truthy(Get(data, LOCATIONS)) ==> Loaded(data).value.locations == Str(""))
      && (Truthy(Get(data, SHOWCODE)) ==> Loaded(data).value.showCode == Get(data, SHOWCODE))
      && (!Truthy(Get(data, SHOWCODE)) ==> Loaded(data).value.showCode == Str("false"))
    ensures Loaded(Obj([])) == Success(INITIAL)
  {
  }

  /** The two reads of `fetchEnvVars`: the site details first, whose body is
      parsed and then ignored, and only then the env route. */
  function EnvFetch(siteCall: ApiCall, envCall: ApiCall): Result<Form, string> {
    match JsonOrThrow(siteCall, SITE_FAILED)
    case Failure(m) => Failure(m)
    case Success(_) =>
      match JsonOrThrow(envCall, ENV_FAILED)
      case Failure(m) => Failure(m)
      case Success(data) => Loaded(data)
  }

  /** A failed site read decides the outcome whatever the env route would
      have answered; after a good site read the env answer alone decides it. */
  lemma EnvFetchRules(siteCall: ApiCall, envCall: ApiCall, otherEnv: ApiCall)
    ensures JsonOrThrow(siteCall, SITE_FAILED).Failure? ==>
      EnvFetch(siteCall, envCall) == EnvFetch(siteCall, otherEnv) == Failure(JsonOrThrow(siteCall, SITE_FAILED).error)
    ensures JsonOrThrow(siteCall, SITE_FAILED).Success? && JsonOrThrow(envCall, ENV_FAILED).Success? ==>
      EnvFetch(siteCall, envCall) == Loaded(JsonOrThrow(envCall, ENV_FAILED).value)
  {
  }

  /** The JSON body of the PUT. */
  function PutBody(form: Form): Json {
    Obj([("envVars", EnvVarsObject(form.instId, form.locations, form.showCode))])
  }

  /** Loading the variables and submitting them unchanged writes back each
      truthy variable the route returned, and always a `GATSBY_SHOWCODE`. */
  lemma LoadThenPut(data: Json)
    requires Loaded(data).Success?
    ensures var vars := Get(PutBody(Loaded(data).value), "envVars");
      && Has(vars, SHOWCODE)
      && (Truthy(Get(data, INSTID)) ==> Get(vars, INSTID) == Get(data, INSTID))
      && (Truthy(Get(data, LOCATIONS)) ==> Get(vars, LOCATIONS) == Get(data, LOCATIONS))
      && (!Truthy(Get(data, LOCATIONS)) ==> !Has(vars, LOCATIONS))
      && (Truthy(Get(data, SHOWCODE)) ==> Get(vars, SHOWCODE) == Get(data, SHOWCODE))
  {
    var form := Loaded(data).value;
    LoadedRules(data);
    LookupFirst(PutBody(form).fields, "envVars", 0);
    EnvVarsObjectFields(form.instId, form.locations, form.showCode);
  }

  /** How the PUT settles: an ok answer's body is not read; a failed one's
      `error` text becomes the message. */
  function PutOutcome(call: ApiCall): (r: Result<bool, string>)
    ensures r.Success? <==> call.Answered? && NetlifyApi.IsOk(call.status)
    ensures call.Rejected? ==> r == Failure(call.message)
    ensures call.Answered? && !NetlifyApi.IsOk(call.status) ==> r == Failure(ErrorMessage(call.body, UPDATE_FAILED))
  {
    match call
    case Rejected(m) => Failure(m)
    case Answered(status, body, _) =>
      if NetlifyApi.IsOk(status) then Success(true) else Failure(ErrorMessage(body, UPDATE_FAILED))
  }

  /** The deploy POST only fails the submit when the request itself rejects. */
  function RedeployOutcome(call: ApiCall): (r: Result<bool, string>)
    ensures r.Success? <==> call.Answered?
  {
    match call
    case Rejected(m) => Failure(m)
    case Answered(_, _, _) => Success(true)
  }

  /** The checkbox state for a `GATSBY_SHOWCODE` value. */
  predicate Checked(showCode: Json) {
    showCode == Str("true")
  }

  /** The value a checkbox change writes. */
  function Toggle(checked: bool): (v: Json)
    ensures v == Str("true") || v == Str("false")
  {
    if checked then Str("true") else Str("false")
  }

  /** The checkbox shows what it last wrote, and writing back what it shows
      keeps either of the two values it can write. */
  lemma CheckboxRoundTrip(checked: bool, showCode: Json)
    ensures Checked(Toggle(checked)) == checked
    ensures showCode == Str("true") || showCode == Str("false") ==> Toggle(Checked(showCode)) == showCode
    ensures !Checked(showCode) ==> Toggle(Checked(showCode)) == Str("false")
  {
  }

  class EditSiteDialog {
    const siteId: string
    const siteName: string
    var open: bool
    var form: Form
    var loading: bool
    var updating: bool

    constructor (siteId: string, siteName: string)
      ensures this.siteId == siteId && this.siteName == siteName
      ensures !open && form == INITIAL && !loading && !updating
    {
      this.siteId := siteId;
      this.siteName := siteName;
      open := false;
      form := INITIAL;
      loading := false;
      updating := false;
    }

    /** `setOpen`. */
    method SetOpen(value: bool)
      modifies this
      ensures open == value && form == old(form) && loading == old(loading) && updating == old(updating)
    {
      open := value;
    }

    /** `fetchEnvVars`: `siteCall` and `envCall` are what the two reads
        produce; `envRequested` says whether the second one was made. */
    method FetchEnvVars(siteCall: ApiCall, envCall: ApiCall) returns (envRequested: bool, toast: Option<Toast>)
      modifies this
      ensures !old(open) ==>
        && !envRequested && toast == None
        && open == old(open) && form == old(form) && loading == old(loading)
      ensures old(open) ==>
        && !loading
        && (envRequested <==> JsonOrThrow(siteCall, SITE_FAILED).Success?)
      ensures (old(open) && EnvFetch(siteCall, envCall).Success?) ==>
        && form == EnvFetch(siteCall, envCall).value && open && toast == None
      ensures (old(open) && EnvFetch(siteCall, envCall).Failure?) ==>
        && form == old(form) && !open
        && toast == Some(Toast("Error", OrElse(EnvFetch(siteCall, envCall).error, ENV_FAILED), true))
      ensures updating == old(updating)
    {
      envRequested := false;
      toast := None;
      if !open {
        return;
      }
      loading := true;
      envRequested := JsonOrThrow(siteCall, SITE_FAILED).Success?;
      var outcome := EnvFetch(siteCall, envCall);
      if outcome.Success? {
        form := outcome.value;
      } else {
        toast := Some(Toast("Error", OrElse(outcome.error, ENV_FAILED), true));
        open := false;
      }
      loading := false;
    }

    /** A checkbox change. */
    method SetShowCode(checked: bool)
      modifies this
      ensures form == old(form).(showCode := Toggle(checked)) && Checked(form.showCode) == checked
      ensures open == old(open) && loading == old(loading) && updating == old(updating)
    {
      form := form.(showCode := Toggle(checked));
    }

    /** `handleSubmit`: `put` is the body sent, when the form passes its
        check; the deploy is requested only after an ok PUT; `updated` says
        whether `onUpdated` was called. */
    method HandleSubmit(putCall: ApiCall, redeployCall: ApiCall) returns (put: Option<Json>, redeployRequested: bool, updated: bool, toast: Toast)
      modifies this
      ensures put.Some? <==> Truthy(old(form).instId)
      ensures put.Some? ==> put.value == PutBody(old(form))
      ensures redeployRequested <==> put.Some? && PutOutcome(putCall).Success?
      ensures updated <==> redeployRequested && RedeployOutcome(redeployCall).Success?
      ensures put.None? ==> toast == Toast("Error", INSTID_REQUIRED, true) && open == old(open)
      ensures updated ==>
        && !open
        && toast == Toast("Site updated", "Environment variables for " + siteName + " have been updated and a new deployment has been triggered.", false)
      ensures (put.Some? && !updated) ==>
        && open == old(open)
        && toast == Toast("Update failed", OrElse(if redeployRequested then RedeployOutcome(redeployCall).error else PutOutcome(putCall).error, UPDATE_ERROR), true)
      ensures !updating && form == old(form) && loading == old(loading)
    {
      updating := true;
      redeployRequested := false;
      updated := false;
      if !Truthy(form.instId) {
        put := None;
        toast := Toast("Error", INSTID_REQUIRED, true);
        updating := false;
        return;
      }
      put := Some(PutBody(form));
      var putOutcome := PutOutcome(putCall);
      if putOutcome.Failure? {
        toast := Toast("Update failed", OrElse(putOutcome.error, UPDATE_ERROR), true);
      } else {
        redeployRequested := true;
        var deployOutcome := RedeployOutcome(redeployCall);
        if deployOutcome.Failure? {
          toast := Toast("Update failed", OrElse(deployOutcome.error, UPDATE_ERROR), true);
        } else {
          open := false;
          toast := Toast("Site updated", "Environment variables for " + siteName + " have been updated and a new deployment has been triggered.", false);
          updated := true;
        }
      }
      updating := false;
    }
  }
}
