/** components/deploys-dialog.tsx: the deploy list of one site, with the
    cancel handler's in-flight list, and the pure cancelability, status and
    title helpers. */
module DeploysUi {
  import opened Wrappers
  import opened Json
  import opened Client
  import NetlifyApi

  const FETCH_FAILED: string := "Failed to fetch deploys"
  const FETCH_ERROR: string := "An error occurred while fetching deploys"
  const CANCEL_FAILED: string := "Failed to cancel deploy"

  /** `canCancel(state)`. */
  predicate CanCancel(state: string) {
    state == "building" || state == "enqueued" || state == "new"
  }

  datatype Variant = SuccessBadge | Destructive | DefaultBadge | Secondary | Outline

  /** `getDeployStatus(state)`: the badge label and variant. */
  function DeployStatus(state: string): (string, Variant) {
    if state == "ready" then ("Success", SuccessBadge)
    else if state == "error" then ("Failed", Destructive)
    else if state == "building" then ("Building", DefaultBadge)
    else if state == "enqueued" then ("Enqueued", Secondary)
    else if state == "canceled" then ("Canceled", Outline)
    else (state, Outline)
  }

  /** Five states have their own badge; any other state is shown as itself
      with the outline variant. Only the in-progress states among them can
      be cancelled, and "new" too. */
  lemma DeployStatusRules(state: string)
    ensures state !in {"ready", "error", "building", "enqueued", "canceled"} ==> DeployStatus(state) == (state, Outline)
    ensures DeployStatus(state).1 == Outline <==> state !in {"ready", "error", "building", "enqueued"}
    ensures CanCancel(state) ==> state !in {"ready", "error", "canceled"}
    ensures CanCancel(state) <==> state in {"building", "enqueued", "new"}
  {
  }

  /** `deploy.title || deploy.commit_message || "Deploy"`. */
  function DisplayTitle(deploy: Json): (t: Json)
    ensures Truthy(t)
    ensures Truthy(Get(deploy, "title")) ==> t == Get(deploy, "title")
    ensures !Truthy(Get(deploy, "title")) && Truthy(Get(deploy, "commit_message")) ==> t == Get(deploy, "commit_message")
    ensures !Truthy(Get(deploy, "title")) && !Truthy(Get(deploy, "commit_message")) ==> t == Str("Deploy")
  {
    if Truthy(Get(deploy, "title")) then Get(deploy, "title")
    else if Truthy(Get(deploy, "commit_message")) then Get(deploy, "commit_message")
    else Str("Deploy")
  }

  /** `deploys` and `error` once a `fetchDeploys` has settled. */
  datatype Loaded = Loaded(deploys: Json, error: Option<string>)

  function AfterFetch(call: ApiCall, prev: Json): Loaded {
    match JsonOrThrow(call, FETCH_FAILED)
    case Success(data) => Loaded(data, None)
    case Failure(m) => Loaded(prev, Some(OrElse(m, FETCH_ERROR)))
  }

  /** How the cancel request settles: its body is read before its status is
      checked, so an unreadable body fails even an ok answer. */
  function CancelOutcome(call: ApiCall): Result<bool, string> {
    match call
    case Rejected(m) => Failure(m)
    case Answered(status, body, _) =>
      match body
      case Failure(m) => Failure(m)
      case Success(data) =>
        if NetlifyApi.IsOk(status) then Success(true) else Failure(ErrorMessage(Success(data), CANCEL_FAILED))
  }

  lemma CancelOutcomeRules(call: ApiCall)
    ensures CancelOutcome(call).Success? <==> call.Answered? && NetlifyApi.IsOk(call.status) && call.body.Success?
    ensures (call.Answered? && !NetlifyApi.IsOk(call.status) && call.body.Success? && call.body.value.Obj? &&
             !Truthy(Get(call.body.value, "error")))
            ==> CancelOutcome(call) == Failure(CANCEL_FAILED)
  {
  }

  class DeploysDialog {
    var loading: bool
    var error: Option<string>
    var deploys: Json
    var cancelingDeploys: seq<string>

    constructor ()
      ensures loading && error == None && deploys == Arr([]) && cancelingDeploys == []
    {
      loading := true;
      error := None;
      deploys := Arr([]);
      cancelingDeploys := [];
    }

    /** `fetchDeploys()`, where `call` is what the request produces. */
    method FetchDeploys(call: ApiCall)
      modifies this
      ensures Loaded(deploys, error) == AfterFetch(call, old(deploys))
      ensures !loading && cancelingDeploys == old(cancelingDeploys)
    {
      loading := true;
      error := None;
      var outcome := JsonOrThrow(call, FETCH_FAILED);
      if outcome.Success? {
        deploys := outcome.value;
      } else {
        error := Some(OrElse(outcome.error, FETCH_ERROR));
      }
      loading := false;
    }

    /** The start of `handleCancel(deployId)`. */
    method BeginCancel(deployId: string)
      modifies this
      ensures cancelingDeploys == old(cancelingDeploys) + [deployId]
      ensures deploys == old(deploys) && error == old(error) && loading == old(loading)
    {
      cancelingDeploys := cancelingDeploys + [deployId];
    }

    /** The settling of `handleCancel(deployId)`: the list is fetched again
        only after a successful cancel (`refetch` is what that fetch
        produces); a failure records its message; either way every
        occurrence of the id leaves the in-flight list. */
    method FinishCancel(deployId: string, cancel: ApiCall, refetch: ApiCall) returns (refetched: bool)
      modifies this
      ensures cancelingDeploys == Without(old(cancelingDeploys), deployId)
      ensures refetched <==> CancelOutcome(cancel).Success?
      ensures refetched ==> Loaded(deploys, error) == AfterFetch(refetch, old(deploys)) && !loading
      ensures !refetched ==> deploys == old(deploys) && error == Some(CancelOutcome(cancel).error) && loading == old(loading)
    {
      var outcome := CancelOutcome(cancel);
      refetched := outcome.Success?;
      if refetched {
        FetchDeploys(refetch);
      } else {
        error := Some(outcome.error);
      }
      cancelingDeploys := Without(cancelingDeploys, deployId);
    }
  }
}
