/**
 * The dashboard's two ingestion endpoints (apps/ddash/internal/webhooks/custom/handler.go and
 * handler_github_app.go): the CDEvents webhook, authenticated by the organization's token, and
 * the GitHub-app endpoint, authenticated by the ingestor's shared key and addressed to an
 * organization through its GitHub installation id. Both hand the body to the ingestion service
 * and turn its error into an HTTP status. The request metrics are not modelled.
 */
module WebhookHttp {
  import opened Wrappers
  import opened GoStrings
  import opened WebhookAuth
  import opened Ingestion
  import opened HttpReply

  /** The text of an ingestion error as the router sees it. */
  function ErrorText(e: IngestError): String
  {
    match e
    case MissingAuthToken => "missing auth token"
    case InvalidAuthToken => "invalid auth token"
    case InvalidSignature => "invalid signature"
    case InvalidPayload => "invalid payload"
    case InvalidSchema => "invalid schema"
    case UnsupportedType => "unsupported event type"
    case IngestBusy => "ingest busy"
    case Failure(message) => message
  }

  /**
   * writeIngestHTTPError: the reply for a classified error, or None ("not handled") for the
   * unknown kind, which is also the kind of a nil error.
   */
  function WriteIngestHttpError(err: Option<IngestError>): (r: Option<Reply>)
    ensures r.None? <==> ClassifyIngestError(err) == KindUnknown
    ensures r.Some? && r.value.status == StatusUnauthorized <==>
              err in {Some(MissingAuthToken), Some(InvalidAuthToken), Some(InvalidSignature)}
    ensures r.Some? && r.value.status == StatusBadRequest <==> err in {Some(InvalidPayload), Some(InvalidSchema)}
    ensures r.Some? && r.value.status == StatusUnprocessableEntity <==> err == Some(UnsupportedType)
    ensures r.Some? && r.value.status == StatusServiceUnavailable <==> err == Some(IngestBusy)
  {
    match ClassifyIngestError(err)
    case KindUnknown => None
    case KindMissingAuth => Some(Reply(StatusUnauthorized, "missing auth token"))
    case KindInvalidAuth => Some(Reply(StatusUnauthorized, "invalid auth token"))
    case KindInvalidSignature => Some(Reply(StatusUnauthorized, "invalid signature"))
    case KindInvalidPayload => Some(Reply(StatusBadRequest, "invalid cdevent payload"))
    case KindInvalidSchema => Some(Reply(StatusBadRequest, "invalid cdevent schema"))
    case KindUnsupportedType => Some(Reply(StatusUnprocessableEntity, "unsupported cdevent type"))
    case KindBusy => Some(Reply(StatusServiceUnavailable, "ingestion busy"))
  }

  /** Every authentication failure of the ingestion service is answered 401, unless it is a store failure. */
  lemma AuthenticationFailuresUnauthorized(cmd: IngestCommand, orgByToken: String -> OrgLookup, hmacHex: (String, String) -> String)
    requires Authenticate(cmd, orgByToken, hmacHex).Err? && !Authenticate(cmd, orgByToken, hmacHex).error.Failure?
    ensures var r := WriteIngestHttpError(Some(Authenticate(cmd, orgByToken, hmacHex).error));
            r.Some? && r.value.status == StatusUnauthorized
  {
    var e := Authenticate(cmd, orgByToken, hmacHex).error;
    assert e in {MissingAuthToken, InvalidAuthToken, InvalidSignature};
  }

  /** Every rejection of the event itself is answered 400 or 422, unless it is a JSON failure. */
  lemma EventFailuresClientErrors(organizationId: int, sdk: SdkAnswers)
    requires ProcessEvent(organizationId, sdk).Err? && !ProcessEvent(organizationId, sdk).error.Failure?
    ensures var r := WriteIngestHttpError(Some(ProcessEvent(organizationId, sdk).error));
            r.Some? && (r.value.status == StatusBadRequest || r.value.status == StatusUnprocessableEntity)
  {
    var e := ProcessEvent(organizationId, sdk).error;
    assert e in {InvalidPayload, UnsupportedType, InvalidSchema};
  }

  /** The tail both handlers share: a handled error is written, another error returned, and success is 202. */
  function IngestReply(err: Option<IngestError>): (r: HandlerResult)
    ensures r == Respond(StatusAccepted, "") <==> err.None?
    ensures WriteIngestHttpError(err).Some? ==> r == Respond(WriteIngestHttpError(err).value.status, WriteIngestHttpError(err).value.message)
    ensures WriteIngestHttpError(err).None? && err.Some? ==> r == Fail(ErrorText(err.value))
  {
    match WriteIngestHttpError(err)
    case Some(reply) => Respond(reply.status, reply.message)
    case None => if err.Some? then Fail(ErrorText(err.value)) else Respond(StatusAccepted, "")
  }

  /**
   * Handle of the CDEvents webhook: a body that cannot be read is 400 and its error returned;
   * otherwise the ingestion service decides.
   */
  function HandleDelivery(authorization: String, signature: String, read: Result<String, String>,
                          orgByToken: String -> OrgLookup, hmacHex: (String, String) -> String,
                          sdk: SdkAnswers, append: EventRecord -> Option<IngestError>): (r: HandlerResult)
    ensures read.Err? ==> r == HandlerResult(Some(Reply(StatusBadRequest, "invalid payload")), Some(read.error))
    ensures read.Ok? ==> r == IngestReply(Ingest(IngestCommand(authorization, signature, read.value), orgByToken, hmacHex, sdk, append))
  {
    if read.Err? then HandlerResult(Some(Reply(StatusBadRequest, "invalid payload")), Some(read.error))
    else IngestReply(Ingest(IngestCommand(authorization, signature, read.value), orgByToken, hmacHex, sdk, append))
  }

  /** 202 is written only for a delivery the ingestion service appended. */
  lemma DeliveryAcceptedOnlyWhenIngested(authorization: String, signature: String, read: Result<String, String>,
                                         orgByToken: String -> OrgLookup, hmacHex: (String, String) -> String,
                                         sdk: SdkAnswers, append: EventRecord -> Option<IngestError>)
    ensures HandleDelivery(authorization, signature, read, orgByToken, hmacHex, sdk, append) == Respond(StatusAccepted, "") <==>
            read.Ok? && Ingest(IngestCommand(authorization, signature, read.value), orgByToken, hmacHex, sdk, append).None?
  {
  }

  // ---------------------------------------------------------------------------
  // GitHub-app endpoint

  /** The handler's configuration: the ingestor's key and whether an installation resolver is wired. */
  datatype GitHubAppHandler = GitHubAppHandler(ingestorKey: String, hasResolver: bool)

  /** NewGitHubAppHandler: the key is stored trimmed. */
  function NewGitHubAppHandler(ingestorKey: String, hasResolver: bool): (h: GitHubAppHandler)
    ensures TrimmedBy(h.ingestorKey, Spaces) && h.ingestorKey == TrimSpace(ingestorKey) && h.hasResolver == hasResolver
  {
    GitHubAppHandler(TrimSpace(ingestorKey), hasResolver)
  }

  /**
   * Handle of the GitHub-app endpoint: the key must be configured and presented as the bearer
   * token, then `RouteInstallation` decides.
   */
  function HandleGitHubApp(h: GitHubAppHandler, authorization: String, installationHeader: String,
                           read: Result<String, String>, resolve: int -> OrgLookup,
                           sdk: SdkAnswers, append: EventRecord -> Option<IngestError>): (r: HandlerResult)
    ensures IsBlank(h.ingestorKey) ==> r == Respond(StatusServiceUnavailable, "github app ingestion is not configured")
    ensures !IsBlank(h.ingestorKey) && !ValidBearerToken(authorization, h.ingestorKey) ==> r == Respond(StatusUnauthorized, "unauthorized")
    ensures !IsBlank(h.ingestorKey) && ValidBearerToken(authorization, h.ingestorKey) ==>
              r == RouteInstallation(h.hasResolver, installationHeader, read, resolve, sdk, append)
  {
    if IsBlank(h.ingestorKey) then Respond(StatusServiceUnavailable, "github app ingestion is not configured")
    else if !ValidBearerToken(authorization, h.ingestorKey) then Respond(StatusUnauthorized, "unauthorized")
    else RouteInstallation(h.hasResolver, installationHeader, read, resolve, sdk, append)
  }

  /**
   * The rest of Handle, checking in order: resolver wired, installation id a positive 64-bit
   * integer, body read, installation known; then the ingestion service decides for the
   * resolved organization. `resolve` is the resolver's answer for an installation id.
   */
  function RouteInstallation(hasResolver: bool, installationHeader: String, read: Result<String, String>,
                             resolve: int -> OrgLookup, sdk: SdkAnswers,
                             append: EventRecord -> Option<IngestError>): (r: HandlerResult)
    ensures !hasResolver ==> r == Respond(StatusServiceUnavailable, "github installation resolver unavailable")
    ensures var id := ParseInt64(TrimSpace(installationHeader));
            hasResolver && (id.None? || id.value <= 0) ==> r == Respond(StatusBadRequest, "invalid github installation id")
    ensures var id := ParseInt64(TrimSpace(installationHeader));
            hasResolver && id.Some? && id.value > 0 && read.Ok? && resolve(id.value).NoRows? ==>
              r == Respond(StatusNotFound, "unknown github installation")
    ensures var id := ParseInt64(TrimSpace(installationHeader));
            hasResolver && id.Some? && id.value > 0 && read.Err? ==>
              r == HandlerResult(Some(Reply(StatusBadRequest, "invalid payload")), Some(read.error))
    ensures var id := ParseInt64(TrimSpace(installationHeader));
            hasResolver && id.Some? && id.value > 0 && read.Ok? && resolve(id.value).LookupFailed? ==>
              r == Fail(resolve(id.value).message)
    ensures var id := ParseInt64(TrimSpace(installationHeader));
            hasResolver && id.Some? && id.value > 0 && read.Ok? && resolve(id.value).Found? ==>
              r == IngestReply(IngestForOrganization(resolve(id.value).org.id, sdk, append))
    ensures r == Respond(StatusAccepted, "") ==>
              var id := ParseInt64(TrimSpace(installationHeader));
              hasResolver && read.Ok? && id.Some? && id.value > 0 && resolve(id.value).Found? &&
              IngestForOrganization(resolve(id.value).org.id, sdk, append).None?
  {
    if !hasResolver then Respond(StatusServiceUnavailable, "github installation resolver unavailable")
    else
      var id := ParseInt64(TrimSpace(installationHeader));
      if id.None? || id.value <= 0 then Respond(StatusBadRequest, "invalid github installation id")
      else if read.Err? then HandlerResult(Some(Reply(StatusBadRequest, "invalid payload")), Some(read.error))
      else
        match resolve(id.value)
        case NoRows => Respond(StatusNotFound, "unknown github installation")
        case LookupFailed(message) => Fail(message)
        case Found(org) => IngestReply(IngestForOrganization(org.id, sdk, append))
  }

  /** 202 is written only after every guard passed and the service ingested the event for the resolved organization. */
  lemma GitHubAppAcceptedOnlyWhenIngested(h: GitHubAppHandler, authorization: String, installationHeader: String,
                                          read: Result<String, String>, resolve: int -> OrgLookup,
                                          sdk: SdkAnswers, append: EventRecord -> Option<IngestError>)
    requires HandleGitHubApp(h, authorization, installationHeader, read, resolve, sdk, append) == Respond(StatusAccepted, "")
    ensures !IsBlank(h.ingestorKey) && ValidBearerToken(authorization, h.ingestorKey) && h.hasResolver && read.Ok?
    ensures var id := ParseInt64(TrimSpace(installationHeader));
            id.Some? && id.value > 0 && resolve(id.value).Found? &&
            IngestForOrganization(resolve(id.value).org.id, sdk, append).None?
  {
  }

  /** The resolver's organization is ingested for without looking at whether it is enabled. */
  lemma GitHubAppIgnoresEnabled(hasResolver: bool, installationHeader: String, read: Result<String, String>,
                                resolve: int -> OrgLookup, sdk: SdkAnswers, append: EventRecord -> Option<IngestError>)
    requires var id := ParseInt64(TrimSpace(installationHeader));
             hasResolver && id.Some? && id.value > 0 && read.Ok? && resolve(id.value).Found?
    ensures var id := ParseInt64(TrimSpace(installationHeader));
            var org := resolve(id.value).org;
            RouteInstallation(hasResolver, installationHeader, read, resolve, sdk, append) ==
            RouteInstallation(hasResolver, installationHeader, read,
                              (n: int) => if n == id.value then Found(org.(enabled := !org.enabled)) else resolve(n), sdk, append)
  {
  }

  /** The ingestor authenticates with "Bearer <key>" for its configured key. */
  lemma IngestorKeyAccepted(ingestorKey: String)
    requires !IsBlank(ingestorKey)
    ensures var h := NewGitHubAppHandler(ingestorKey, true);
            ValidBearerToken(BearerPrefix + h.ingestorKey, h.ingestorKey)
  {
    var key := TrimSpace(ingestorKey);
    BearerTokenRoundTrip(key);
    TrimSpaceIdempotent(ingestorKey);
    StrictImpliesValid(BearerPrefix + key, key);
  }
}
