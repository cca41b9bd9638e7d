/**
 * The GitHub App bridge's converter (apps/githubappingestor/internal/githubbridge/converter.go):
 * a webhook event name and its payload become at most one publisher event.
 *
 * JSON decoding is not modelled: each converter receives the outcome of decoding the payload
 * into the record it declares, as a `Result` whose error is the decoder's message.
 */
module GitHubBridge {
  import opened Wrappers
  import opened GoStrings
  import opened CDEvents
  import opened Bridge
  import opened EventPublisher

  datatype Release = Release(action: String, repositoryName: String, tagName: String, htmlUrl: String, senderLogin: String)

  datatype DeploymentStatus = DeploymentStatus(
    repositoryName: String, deploymentEnvironment: String, deploymentSha: String,
    state: String, statusEnvironment: String, targetUrl: String, senderLogin: String)

  datatype WorkflowRun = WorkflowRun(
    action: String, repositoryName: String, runId: int, conclusion: String, htmlUrl: String,
    headSha: String, senderLogin: String)

  datatype Push = Push(after: String, repositoryName: String, pusherName: String)

  datatype PullRequest = PullRequest(
    action: String, number: int, merged: bool, headSha: String, repositoryName: String, senderLogin: String)

  /** The payload as each converter would decode it. */
  datatype Payload = Payload(
    release: Result<Release, String>, deploymentStatus: Result<DeploymentStatus, String>,
    workflowRun: Result<WorkflowRun, String>, push: Result<Push, String>,
    pullRequest: Result<PullRequest, String>)

  const GitHubSource: String := "github/app"

  /** The event names the converter handles, after trimming. */
  const KnownEvents: set<String> := {"release", "deployment_status", "workflow_run", "push", "pull_request"}

  /** Dispatch on the trimmed event name; an unknown name gives no events and no error. */
  function Convert(eventName: String, deliveryId: String, payload: Payload, cfg: ConvertConfig): (r: Result<seq<Event>, String>)
    ensures TrimSpace(eventName) !in KnownEvents ==> r == Ok([])
    ensures r.Ok? ==> |r.value| <= 1
  {
    match TrimSpace(eventName)
    case "release" => ConvertRelease(payload.release, cfg)
    case "deployment_status" => ConvertDeploymentStatus(payload.deploymentStatus, cfg)
    case "workflow_run" => ConvertWorkflowRun(payload.workflowRun, cfg)
    case "push" => ConvertPush(payload.push, deliveryId, cfg)
    case "pull_request" => ConvertPullRequest(payload.pullRequest, deliveryId, cfg)
    case _ => Ok([])
  }

  /** A published release becomes service.published, versioned by its tag or "latest". */
  function ConvertRelease(body: Result<Release, String>, cfg: ConvertConfig): (r: Result<seq<Event>, String>)
    ensures r.Err? <==> body.Err?
    ensures r.Ok? ==> (|r.value| == 1 <==> TrimSpace(body.value.action) == "published" && !IsBlank(body.value.repositoryName))
    ensures r.Ok? ==> |r.value| <= 1
    ensures r.Ok? && |r.value| == 1 ==>
              var b := body.value;
              var tag := if IsBlank(b.tagName) then "latest" else TrimSpace(b.tagName);
              r.value[0].eventType == "service.published" &&
              r.value[0].service == TrimSpace(b.repositoryName) &&
              r.value[0].environment == DefaultEnvironment(cfg) &&
              r.value[0].artifact == GenericPurl(TrimSpace(b.repositoryName), tag)
  {
    if body.Err? then Err(body.error)
    else
      var b := body.value;
      var service := TrimSpace(b.repositoryName);
      if TrimSpace(b.action) != "published" || service == "" then Ok([])
      else
        var tag := if TrimSpace(b.tagName) == "" then "latest" else TrimSpace(b.tagName);
        Ok([Event("service.published", DefaultSource(cfg, GitHubSource), service, DefaultEnvironment(cfg),
                  GenericPurl(service, tag), "", "", "", TrimSpace(b.senderLogin), "", TrimSpace(b.htmlUrl))])
  }

  /**
   * The service type of a deployment state: success is deployed; failure, error and inactive
   * are removed; everything else (in_progress, queued and pending by name) is upgraded.
   */
  function DeploymentStateType(state: String): (r: String)
    ensures r in ServiceShortNames
    ensures r == "service.deployed" <==> Fold(state) == "success"
    ensures r == "service.removed" <==> Fold(state) in {"failure", "error", "inactive"}
    ensures r == "service.upgraded" <==> Fold(state) != "success" && Fold(state) !in {"failure", "error", "inactive"}
  {
    var s := Fold(state);
    if s == "success" then "service.deployed"
    else if s in {"failure", "error", "inactive"} then "service.removed"
    else "service.upgraded"
  }

  /** The environment of a deployment status: its own, else the deployment's, else the default. */
  function DeploymentEnvironment(b: DeploymentStatus, cfg: ConvertConfig): (r: String)
    ensures !IsBlank(r)
    ensures r == FirstNonEmpty([b.statusEnvironment, b.deploymentEnvironment, DefaultEnvironment(cfg)])
  {
    var env := TrimSpace(b.statusEnvironment);
    var env := if env == "" then TrimSpace(b.deploymentEnvironment) else env;
    var r := if env == "" then DefaultEnvironment(cfg) else env;
    FirstNonEmpty3(b.statusEnvironment, b.deploymentEnvironment, DefaultEnvironment(cfg));
    TrimSpaceIdempotent(r);
    r
  }

  function ConvertDeploymentStatus(body: Result<DeploymentStatus, String>, cfg: ConvertConfig): (r: Result<seq<Event>, String>)
    ensures r.Err? <==> body.Err?
    ensures r.Ok? ==> (|r.value| == 1 <==> !IsBlank(body.value.repositoryName))
    ensures r.Ok? ==> |r.value| <= 1
    ensures r.Ok? && |r.value| == 1 ==>
              var b := body.value;
              var sha := if IsBlank(b.deploymentSha) then "unknown" else TrimSpace(b.deploymentSha);
              r.value[0].eventType == DeploymentStateType(b.state) &&
              r.value[0].service == TrimSpace(b.repositoryName) &&
              r.value[0].environment == DeploymentEnvironment(b, cfg) &&
              r.value[0].artifact == GenericPurl(TrimSpace(b.repositoryName), ShortSHA(sha))
  {
    if body.Err? then Err(body.error)
    else
      var b := body.value;
      var service := TrimSpace(b.repositoryName);
      if service == "" then Ok([])
      else
        var sha := if TrimSpace(b.deploymentSha) == "" then "unknown" else TrimSpace(b.deploymentSha);
        Ok([Event(DeploymentStateType(b.state), DefaultSource(cfg, GitHubSource), service, DeploymentEnvironment(b, cfg),
                  GenericPurl(service, ShortSHA(sha)), "", "", "", TrimSpace(b.senderLogin), "", TrimSpace(b.targetUrl))])
  }

  /** A run is started unless its action is "completed"; a completed run succeeded iff its conclusion is success. */
  function WorkflowRunType(action: String, conclusion: String): (r: String)
    ensures r in {PipelineRunStarted, PipelineRunSucceeded, PipelineRunFailed}
    ensures r == PipelineRunStarted <==> !EqualFold(TrimSpace(action), "completed")
    ensures r == PipelineRunSucceeded <==> EqualFold(TrimSpace(action), "completed") && EqualFold(TrimSpace(conclusion), "success")
  {
    if EqualFold(TrimSpace(action), "completed") then
      if EqualFold(TrimSpace(conclusion), "success") then PipelineRunSucceeded else PipelineRunFailed
    else PipelineRunStarted
  }

  function ConvertWorkflowRun(body: Result<WorkflowRun, String>, cfg: ConvertConfig): (r: Result<seq<Event>, String>)
    ensures r.Err? <==> body.Err?
    ensures r.Ok? ==> (|r.value| == 1 <==> !IsBlank(body.value.repositoryName))
    ensures r.Ok? ==> |r.value| <= 1
    ensures r.Ok? && |r.value| == 1 ==>
              var b := body.value;
              r.value[0].eventType == WorkflowRunType(b.action, b.conclusion) &&
              r.value[0].subjectType == "pipeline" &&
              r.value[0].subjectId == "pipeline/" + TrimSpace(b.repositoryName) + "/" + IntToString(b.runId) &&
              r.value[0].pipelineRun == IntToString(b.runId)
  {
    if body.Err? then Err(body.error)
    else
      var b := body.value;
      var service := TrimSpace(b.repositoryName);
      if service == "" then Ok([])
      else
        Ok([Event(WorkflowRunType(b.action, b.conclusion), DefaultSource(cfg, GitHubSource), service, DefaultEnvironment(cfg),
                  GenericPurl(service, ShortSHA(b.headSha)), "pipeline/" + service + "/" + IntToString(b.runId), "pipeline",
                  "", TrimSpace(b.senderLogin), IntToString(b.runId), TrimSpace(b.htmlUrl))])
  }

  /** A push becomes change.pushed, chained by the delivery id. */
  function ConvertPush(body: Result<Push, String>, deliveryId: String, cfg: ConvertConfig): (r: Result<seq<Event>, String>)
    ensures r.Err? <==> body.Err?
    ensures r.Ok? ==> (|r.value| == 1 <==> !IsBlank(body.value.repositoryName))
    ensures r.Ok? ==> |r.value| <= 1
    ensures r.Ok? && |r.value| == 1 ==>
              r.value[0].eventType == ChangePushed &&
              r.value[0].subjectId == "change/" + ShortSHA(body.value.after) &&
              r.value[0].chainId == TrimSpace(deliveryId)
  {
    if body.Err? then Err(body.error)
    else
      var b := body.value;
      var service := TrimSpace(b.repositoryName);
      if service == "" then Ok([])
      else
        Ok([Event(ChangePushed, DefaultSource(cfg, GitHubSource), service, DefaultEnvironment(cfg),
                  GenericPurl(service, ShortSHA(b.after)), "change/" + ShortSHA(b.after), "change",
                  TrimSpace(deliveryId), TrimSpace(b.pusherName), "", "")])
  }

  /** The change predicate of a pull request: its folded action, "merged" for a merged close, "updated" when blank. */
  function PullRequestSuffix(action: String, merged: bool): (r: String)
    ensures r != "" && IsLower(r)
    ensures Fold(action) == "closed" && merged ==> r == "merged"
    ensures Fold(action) == "" ==> r == "updated"
    ensures r != Fold(action) ==> r in {"merged", "updated"}
  {
    var a := Fold(action);
    ChangeSuffixesLower();
    if a == "closed" && merged then "merged"
    else if a == "" then "updated"
    else a
  }

  function ConvertPullRequest(body: Result<PullRequest, String>, deliveryId: String, cfg: ConvertConfig): (r: Result<seq<Event>, String>)
    ensures r.Err? <==> body.Err?
    ensures r.Ok? ==> (|r.value| == 1 <==> !IsBlank(body.value.repositoryName))
    ensures r.Ok? ==> |r.value| <= 1
    ensures r.Ok? && |r.value| == 1 ==>
              var b := body.value;
              r.value[0].eventType == ChangeType(PullRequestSuffix(b.action, b.merged)) &&
              r.value[0].subjectId == "change/pr-" + IntToString(b.number) &&
              r.value[0].chainId == TrimSpace(deliveryId)
  {
    if body.Err? then Err(body.error)
    else
      var b := body.value;
      var service := TrimSpace(b.repositoryName);
      if service == "" then Ok([])
      else
        Ok([Event(ChangeType(PullRequestSuffix(b.action, b.merged)), DefaultSource(cfg, GitHubSource), service,
                  DefaultEnvironment(cfg), GenericPurl(service, ShortSHA(b.headSha)),
                  "change/pr-" + IntToString(b.number), "change", TrimSpace(deliveryId), TrimSpace(b.senderLogin), "", "")])
  }

  // ---------------------------------------------------------------------------
  // The event the bridge produces, when it produces one, is one the publisher's builder accepts.

  lemma ConvertReleaseAdmissible(body: Result<Release, String>, cfg: ConvertConfig)
    requires ConvertRelease(body, cfg).Ok? && |ConvertRelease(body, cfg).value| == 1
    ensures Admissible(ConvertRelease(body, cfg).value[0])
  {
    ServiceShapeAdmissible(ConvertRelease(body, cfg).value[0]);
  }

  lemma ConvertDeploymentStatusAdmissible(body: Result<DeploymentStatus, String>, cfg: ConvertConfig)
    requires ConvertDeploymentStatus(body, cfg).Ok? && |ConvertDeploymentStatus(body, cfg).value| == 1
    ensures Admissible(ConvertDeploymentStatus(body, cfg).value[0])
  {
    ServiceShapeAdmissible(ConvertDeploymentStatus(body, cfg).value[0]);
  }

  lemma ConvertWorkflowRunAdmissible(body: Result<WorkflowRun, String>, cfg: ConvertConfig)
    requires ConvertWorkflowRun(body, cfg).Ok? && |ConvertWorkflowRun(body, cfg).value| == 1
    ensures Admissible(ConvertWorkflowRun(body, cfg).value[0])
  {
    var b := body.value;
    PipelineIdPrefix(TrimSpace(b.repositoryName), IntToString(b.runId));
    PipelineShapeAdmissible(ConvertWorkflowRun(body, cfg).value[0]);
  }

  lemma ConvertPushAdmissible(body: Result<Push, String>, deliveryId: String, cfg: ConvertConfig)
    requires ConvertPush(body, deliveryId, cfg).Ok? && |ConvertPush(body, deliveryId, cfg).value| == 1
    ensures Admissible(ConvertPush(body, deliveryId, cfg).value[0])
  {
    PrefixOfConcat("change/", ShortSHA(body.value.after));
    ChangePushedCustom();
    ChangeShapeAdmissible(ConvertPush(body, deliveryId, cfg).value[0], "pushed");
  }

  lemma ConvertPullRequestAdmissible(body: Result<PullRequest, String>, deliveryId: String, cfg: ConvertConfig)
    requires ConvertPullRequest(body, deliveryId, cfg).Ok? && |ConvertPullRequest(body, deliveryId, cfg).value| == 1
    ensures Admissible(ConvertPullRequest(body, deliveryId, cfg).value[0])
  {
    var b := body.value;
    ChangeIdPrefix(IntToString(b.number));
    ChangeShapeAdmissible(ConvertPullRequest(body, deliveryId, cfg).value[0], PullRequestSuffix(b.action, b.merged));
  }

  /** Whatever the bridge converts, the builder accepts. */
  lemma ConvertAdmissible(eventName: String, deliveryId: String, payload: Payload, cfg: ConvertConfig)
    requires Convert(eventName, deliveryId, payload, cfg).Ok? && |Convert(eventName, deliveryId, payload, cfg).value| == 1
    ensures Admissible(Convert(eventName, deliveryId, payload, cfg).value[0])
  {
    match TrimSpace(eventName)
    case "release" => ConvertReleaseAdmissible(payload.release, cfg);
    case "deployment_status" => ConvertDeploymentStatusAdmissible(payload.deploymentStatus, cfg);
    case "workflow_run" => ConvertWorkflowRunAdmissible(payload.workflowRun, cfg);
    case "push" => ConvertPushAdmissible(payload.push, deliveryId, cfg);
    case "pull_request" => ConvertPullRequestAdmissible(payload.pullRequest, deliveryId, cfg);
    case _ =>
  }
}
