/**
 * The GitLab bridge's converter (apps/gitlabingestor/internal/gitlabbridge/converter.go):
 * a GitLab webhook ("Push Hook", "Tag Push Hook", ...) and its payload become at most one
 * publisher event; the project id of a payload names the organization it belongs to.
 *
 * As for the GitHub bridge, each converter receives the outcome of decoding the payload into
 * the record it declares.
 */
module GitLabBridge {
  import opened Wrappers
  import opened GoStrings
  import opened CDEvents
  import opened Bridge
  import opened EventPublisher

  datatype Push = Push(after: String, userName: String, projectName: String, repositoryName: String)

  datatype TagPush = TagPush(ref: String, userName: String, projectName: String, homePage: String)

  datatype Pipeline = Pipeline(
    pipelineId: int, status: String, url: String, sha: String, ref: String, userName: String, projectName: String)

  datatype Deployment = Deployment(
    status: String, environment: String, sha: String, shortSha: String, userName: String, projectName: String)

  datatype MergeRequest = MergeRequest(
    iid: int, action: String, state: String, lastCommitId: String, userName: String, projectName: String)

  /** The payload as each converter would decode it. */
  datatype Payload = Payload(
    push: Result<Push, String>, tagPush: Result<TagPush, String>, pipeline: Result<Pipeline, String>,
    deployment: Result<Deployment, String>, mergeRequest: Result<MergeRequest, String>)

  /** The two project ids a payload may carry, as decoded (0 when absent). */
  datatype ProjectIds = ProjectIds(projectId: int, nestedProjectId: int)

  const GitLabSource: String := "gitlab/webhook"

  const KnownEvents: set<String> := {"Push Hook", "Tag Push Hook", "Pipeline Hook", "Deployment Hook", "Merge Request Hook"}

  function Convert(eventName: String, deliveryId: String, payload: Payload, cfg: ConvertConfig): (r: Result<seq<Event>, String>)
    ensures TrimSpace(eventName) !in KnownEvents ==> r == Ok([])
    ensures r.Ok? ==> |r.value| <= 1
  {
    match TrimSpace(eventName)
    case "Push Hook" => ConvertPush(payload.push, deliveryId, cfg)
    case "Tag Push Hook" => ConvertTagPush(payload.tagPush, cfg)
    case "Pipeline Hook" => ConvertPipeline(payload.pipeline, cfg)
    case "Deployment Hook" => ConvertDeployment(payload.deployment, cfg)
    case "Merge Request Hook" => ConvertMergeRequest(payload.mergeRequest, deliveryId, cfg)
    case _ => Ok([])
  }

  /**
   * The project id: the top-level one when positive, else the nested one when positive, else
   * none. A payload that does not decode has none.
   */
  function ExtractProjectId(ids: Result<ProjectIds, String>): (r: Option<int>)
    ensures r.Some? ==> r.value > 0
    ensures ids.Err? ==> r.None?
    ensures ids.Ok? && ids.value.projectId > 0 ==> r == Some(ids.value.projectId)
    ensures r.None? <==> ids.Err? || (ids.value.projectId <= 0 && ids.value.nestedProjectId <= 0)
  {
    if ids.Err? then None
    else if ids.value.projectId > 0 then Some(ids.value.projectId)
    else if ids.value.nestedProjectId > 0 then Some(ids.value.nestedProjectId)
    else None
  }

  /** The service of a push: the project name, else the repository name. */
  function PushService(b: Push): (r: String)
    ensures TrimmedBy(r, Spaces)
    ensures r == "" <==> IsBlank(b.projectName) && IsBlank(b.repositoryName)
    ensures !IsBlank(b.projectName) ==> r == TrimSpace(b.projectName)
  {
    FirstNonEmpty2(b.projectName, b.repositoryName);
    FirstNonEmpty([b.projectName, b.repositoryName])
  }

  function ConvertPush(body: Result<Push, String>, deliveryId: String, cfg: ConvertConfig): (r: Result<seq<Event>, String>)
    ensures r.Err? <==> body.Err?
    ensures r.Ok? ==> (|r.value| == 1 <==> PushService(body.value) != "")
    ensures r.Ok? ==> |r.value| <= 1
    ensures r.Ok? && |r.value| == 1 ==>
              var sha := ShortSHA(body.value.after);
              r.value[0].eventType == ChangePushed &&
              r.value[0].service == PushService(body.value) &&
              r.value[0].artifact == GenericPurl(PushService(body.value), sha) &&
              r.value[0].subjectId == "change/" + sha &&
              r.value[0].chainId == TrimSpace(deliveryId)
  {
    if body.Err? then Err(body.error)
    else
      var b := body.value;
      var service := PushService(b);
      if service == "" then Ok([])
      else
        var sha := ShortSHA(b.after);
        Ok([Event(ChangePushed, DefaultSource(cfg, GitLabSource), service, DefaultEnvironment(cfg),
                  GenericPurl(service, sha), "change/" + sha, "change", TrimSpace(deliveryId), TrimSpace(b.userName), "", "")])
  }

  /** The tag of a tag push: the trimmed ref without "refs/tags/", or "latest". */
  function TagName(ref: String): (r: String)
    ensures r != ""
    ensures TrimPrefix(TrimSpace(ref), "refs/tags/") != "" ==> r == TrimPrefix(TrimSpace(ref), "refs/tags/")
    ensures HasPrefix(TrimSpace(ref), "refs/tags/") ==> "refs/tags/" + r == TrimSpace(ref) || r == "latest"
  {
    var tag := TrimPrefix(TrimSpace(ref), "refs/tags/");
    if tag == "" then "latest" else tag
  }

  function ConvertTagPush(body: Result<TagPush, String>, cfg: ConvertConfig): (r: Result<seq<Event>, String>)
    ensures r.Err? <==> body.Err?
    ensures r.Ok? ==> (|r.value| == 1 <==> !IsBlank(body.value.projectName))
    ensures r.Ok? ==> |r.value| <= 1
    ensures r.Ok? && |r.value| == 1 ==>
              r.value[0].eventType == "service.published" &&
              r.value[0].service == TrimSpace(body.value.projectName) &&
              r.value[0].environment == DefaultEnvironment(cfg) &&
              r.value[0].artifact == GenericPurl(TrimSpace(body.value.projectName), TagName(body.value.ref))
  {
    if body.Err? then Err(body.error)
    else
      var b := body.value;
      var service := TrimSpace(b.projectName);
      if service == "" then Ok([])
      else
        Ok([Event("service.published", DefaultSource(cfg, GitLabSource), service, DefaultEnvironment(cfg),
                  GenericPurl(service, TagName(b.ref)), "", "", "", TrimSpace(b.userName), "", TrimSpace(b.homePage))])
  }

  /** Pipeline status: success succeeded, failed and canceled failed, anything else started. */
  function PipelineStatusType(status: String): (r: String)
    ensures r in {PipelineRunStarted, PipelineRunSucceeded, PipelineRunFailed}
    ensures r == PipelineRunSucceeded <==> Fold(status) == "success"
    ensures r == PipelineRunFailed <==> Fold(status) in {"failed", "canceled"}
  {
    var s := Fold(status);
    if s == "failed" || s == "canceled" then PipelineRunFailed
    else if s == "success" then PipelineRunSucceeded
    else PipelineRunStarted
  }

  /** The environment of a pipeline: its ref, else the default. */
  function PipelineEnvironment(b: Pipeline, cfg: ConvertConfig): (r: String)
    ensures !IsBlank(r)
    ensures r == FirstNonEmpty([b.ref, DefaultEnvironment(cfg)])
  {
    var env := TrimSpace(b.ref);
    var r := if env == "" then DefaultEnvironment(cfg) else env;
    FirstNonEmpty2(b.ref, DefaultEnvironment(cfg));
    TrimSpaceIdempotent(r);
    r
  }

  function ConvertPipeline(body: Result<Pipeline, String>, cfg: ConvertConfig): (r: Result<seq<Event>, String>)
    ensures r.Err? <==> body.Err?
    ensures r.Ok? ==> (|r.value| == 1 <==> !IsBlank(body.value.projectName))
    ensures r.Ok? ==> |r.value| <= 1
    ensures r.Ok? && |r.value| == 1 ==>
              var b := body.value;
              r.value[0].eventType == PipelineStatusType(b.status) &&
              r.value[0].environment == PipelineEnvironment(b, cfg) &&
              r.value[0].subjectType == "pipeline" &&
              r.value[0].subjectId == "pipeline/" + TrimSpace(b.projectName) + "/" + IntToString(b.pipelineId) &&
              r.value[0].pipelineRun == IntToString(b.pipelineId)
  {
    if body.Err? then Err(body.error)
    else
      var b := body.value;
      var service := TrimSpace(b.projectName);
      if service == "" then Ok([])
      else
        Ok([Event(PipelineStatusType(b.status), DefaultSource(cfg, GitLabSource), service, PipelineEnvironment(b, cfg),
                  GenericPurl(service, ShortSHA(b.sha)), "pipeline/" + service + "/" + IntToString(b.pipelineId), "pipeline",
                  "", TrimSpace(b.userName), IntToString(b.pipelineId), TrimSpace(b.url))])
  }

  /** Deployment status: success deployed, failed and canceled removed, anything else upgraded. */
  function DeploymentStatusType(status: String): (r: String)
    ensures r in ServiceShortNames
    ensures r == "service.deployed" <==> Fold(status) == "success"
    ensures r == "service.removed" <==> Fold(status) in {"failed", "canceled"}
    ensures r == "service.upgraded" <==> Fold(status) != "success" && Fold(status) !in {"failed", "canceled"}
  {
    var s := Fold(status);
    if s == "failed" || s == "canceled" then "service.removed"
    else if s == "success" then "service.deployed"
    else "service.upgraded"
  }

  /** The environment of a deployment: its own, else the default. */
  function DeploymentEnvironment(b: Deployment, cfg: ConvertConfig): (r: String)
    ensures !IsBlank(r)
    ensures r == FirstNonEmpty([b.environment, DefaultEnvironment(cfg)])
  {
    var env := TrimSpace(b.environment);
    var r := if env == "" then DefaultEnvironment(cfg) else env;
    FirstNonEmpty2(b.environment, DefaultEnvironment(cfg));
    TrimSpaceIdempotent(r);
    r
  }

  function ConvertDeployment(body: Result<Deployment, String>, cfg: ConvertConfig): (r: Result<seq<Event>, String>)
    ensures r.Err? <==> body.Err?
    ensures r.Ok? ==> (|r.value| == 1 <==> !IsBlank(body.value.projectName))
    ensures r.Ok? ==> |r.value| <= 1
    ensures r.Ok? && |r.value| == 1 ==>
              var b := body.value;
              r.value[0].eventType == DeploymentStatusType(b.status) &&
              r.value[0].service == TrimSpace(b.projectName) &&
              r.value[0].environment == DeploymentEnvironment(b, cfg) &&
              r.value[0].artifact == GenericPurl(TrimSpace(b.projectName), ShortSHA(FirstNonEmpty([b.shortSha, b.sha])))
  {
    if body.Err? then Err(body.error)
    else
      var b := body.value;
      var service := TrimSpace(b.projectName);
      if service == "" then Ok([])
      else
        var sha := FirstNonEmpty([b.shortSha, b.sha]);
        Ok([Event(DeploymentStatusType(b.status), DefaultSource(cfg, GitLabSource), service, DeploymentEnvironment(b, cfg),
                  GenericPurl(service, ShortSHA(sha)), "", "", "", TrimSpace(b.userName), "", "")])
  }

  /** A deployment names its short hash when it has one, else its full hash. */
  lemma DeploymentShaPreference(b: Deployment)
    ensures !IsBlank(b.shortSha) ==> FirstNonEmpty([b.shortSha, b.sha]) == TrimSpace(b.shortSha)
    ensures IsBlank(b.shortSha) ==> FirstNonEmpty([b.shortSha, b.sha]) == TrimSpace(b.sha)
  {
    FirstNonEmpty2(b.shortSha, b.sha);
  }

  /**
   * The change predicate of a merge request: its folded action, else its folded state; "merge"
   * and "merged" both become "merged", and a blank one "updated".
   */
  function MergeRequestSuffix(action: String, state: String): (r: String)
    ensures r != "" && IsLower(r)
    ensures var a := if Fold(action) == "" then Fold(state) else Fold(action);
            (a in {"merge", "merged"} ==> r == "merged") &&
            (a == "" ==> r == "updated") &&
            (a != "" && a !in {"merge", "merged"} ==> r == a)
  {
    var a := Fold(action);
    var a := if a == "" then Fold(state) else a;
    ChangeSuffixesLower();
    if a == "merge" || a == "merged" then "merged"
    else if a == "" then "updated"
    else a
  }

  function ConvertMergeRequest(body: Result<MergeRequest, String>, deliveryId: String, cfg: ConvertConfig): (r: Result<seq<Event>, String>)
    ensures r.Err? <==> body.Err?
    ensures r.Ok? ==> (|r.value| == 1 <==> !IsBlank(body.value.projectName))
    ensures r.Ok? ==> |r.value| <= 1
    ensures r.Ok? && |r.value| == 1 ==>
              var b := body.value;
              r.value[0].eventType == ChangeType(MergeRequestSuffix(b.action, b.state)) &&
              r.value[0].subjectId == "change/mr-" + IntToString(b.iid) &&
              r.value[0].chainId == TrimSpace(deliveryId)
  {
    if body.Err? then Err(body.error)
    else
      var b := body.value;
      var service := TrimSpace(b.projectName);
      if service == "" then Ok([])
      else
        Ok([Event(ChangeType(MergeRequestSuffix(b.action, b.state)), DefaultSource(cfg, GitLabSource), service,
                  DefaultEnvironment(cfg), GenericPurl(service, ShortSHA(b.lastCommitId)),
                  "change/mr-" + IntToString(b.iid), "change", TrimSpace(deliveryId), TrimSpace(b.userName), "", "")])
  }

  // ---------------------------------------------------------------------------
  // The event the bridge produces, when it produces one, is one the publisher's builder accepts.

  lemma ConvertPushAdmissible(body: Result<Push, String>, deliveryId: String, cfg: ConvertConfig)
    requires ConvertPush(body, deliveryId, cfg).Ok? && |ConvertPush(body, deliveryId, cfg).value| == 1
    ensures Admissible(ConvertPush(body, deliveryId, cfg).value[0])
  {
    PrefixOfConcat("change/", ShortSHA(body.value.after));
    ChangePushedCustom();
    ChangeShapeAdmissible(ConvertPush(body, deliveryId, cfg).value[0], "pushed");
  }

  lemma ConvertTagPushAdmissible(body: Result<TagPush, String>, cfg: ConvertConfig)
    requires ConvertTagPush(body, cfg).Ok? && |ConvertTagPush(body, cfg).value| == 1
    ensures Admissible(ConvertTagPush(body, cfg).value[0])
  {
    ServiceShapeAdmissible(ConvertTagPush(body, cfg).value[0]);
  }

  lemma ConvertPipelineAdmissible(body: Result<Pipeline, String>, cfg: ConvertConfig)
    requires ConvertPipeline(body, cfg).Ok? && |ConvertPipeline(body, cfg).value| == 1
    ensures Admissible(ConvertPipeline(body, cfg).value[0])
  {
    var b := body.value;
    PipelineIdPrefix(TrimSpace(b.projectName), IntToString(b.pipelineId));
    PipelineShapeAdmissible(ConvertPipeline(body, cfg).value[0]);
  }

  lemma ConvertDeploymentAdmissible(body: Result<Deployment, String>, cfg: ConvertConfig)
    requires ConvertDeployment(body, cfg).Ok? && |ConvertDeployment(body, cfg).value| == 1
    ensures Admissible(ConvertDeployment(body, cfg).value[0])
  {
    ServiceShapeAdmissible(ConvertDeployment(body, cfg).value[0]);
  }

  lemma ConvertMergeRequestAdmissible(body: Result<MergeRequest, String>, deliveryId: String, cfg: ConvertConfig)
    requires ConvertMergeRequest(body, deliveryId, cfg).Ok? && |ConvertMergeRequest(body, deliveryId, cfg).value| == 1
    ensures Admissible(ConvertMergeRequest(body, deliveryId, cfg).value[0])
  {
    var b := body.value;
    ChangeIdPrefix(IntToString(b.iid));
    ChangeShapeAdmissible(ConvertMergeRequest(body, deliveryId, cfg).value[0], MergeRequestSuffix(b.action, b.state));
  }

  /** Whatever the bridge converts, the builder accepts. */
  lemma ConvertAdmissible(eventName: String, deliveryId: String, payload: Payload, cfg: ConvertConfig)
    requires Convert(eventName, deliveryId, payload, cfg).Ok? && |Convert(eventName, deliveryId, payload, cfg).value| == 1
    ensures Admissible(Convert(eventName, deliveryId, payload, cfg).value[0])
  {
    match TrimSpace(eventName)
    case "Push Hook" => ConvertPushAdmissible(payload.push, deliveryId, cfg);
    case "Tag Push Hook" => ConvertTagPushAdmissible(payload.tagPush, cfg);
    case "Pipeline Hook" => ConvertPipelineAdmissible(payload.pipeline, cfg);
    case "Deployment Hook" => ConvertDeploymentAdmissible(payload.deployment, cfg);
    case "Merge Request Hook" => ConvertMergeRequestAdmissible(payload.mergeRequest, deliveryId, cfg);
    case _ =>
  }
}
