/**
 * The first ingestion service (internal/app/services/ingestion.go). It authenticates a delivery
 * like the dashboard's service does, but validates the schema of every event before looking at
 * its type, and accepts only the eight delivery types, matched exactly. It has no batcher, no
 * entry point by organization id and no busy error.
 */
module LegacyIngestion {
  import opened Wrappers
  import opened GoStrings
  import opened CDEvents
  import opened WebhookAuth
  import opened Ingestion

  /** The event-store record of this service, which keeps no millisecond timestamp. */
  datatype LegacyRecord = LegacyRecord(
    organizationId: int, eventId: String, eventType: String, eventSource: String,
    eventTimestamp: String, subjectId: String, subjectSource: Option<String>,
    subjectType: String, chainId: Option<String>, rawEventJson: String)

  /** The outcome of lookupOrganization: the organization or the error, and whether the store is still open. */
  datatype StoreLookup = StoreLookup(result: Result<Organization, LookupError>, storeOpen: bool)

  /**
   * lookupOrganization: opening the store can fail; once it is open, a failed lookup or a
   * disabled organization closes it again, and only a found, enabled organization keeps it open.
   */
  function LegacyLookupOrganization(open: Result<(), String>, answer: OrgLookup): (r: StoreLookup)
    ensures r.storeOpen <==> r.result.Ok?
    ensures r.result.Ok? <==> open.Ok? && answer.Found? && answer.org.enabled
    ensures open.Ok? ==> r.result == LookupOrganization(answer)
    ensures open.Err? ==> r.result == Err(StoreFailure(open.error))
  {
    if open.Err? then StoreLookup(Err(StoreFailure(open.error)), false)
    else
      match answer
      case Found(org) =>
        if org.enabled then StoreLookup(Ok(org), true) else StoreLookup(Err(NoOrganization), false)
      case NoRows => StoreLookup(Err(NoOrganization), false)
      case LookupFailed(message) => StoreLookup(Err(StoreFailure(message)), false)
  }

  /** The authentication of Ingest, with the store opened for the lookup. */
  function LegacyAuthenticate(cmd: IngestCommand, open: Result<(), String>, orgByToken: String -> OrgLookup,
                              hmacHex: (String, String) -> String): (r: Result<Organization, IngestError>)
    ensures BearerToken(cmd.authorizationHeader).Err? ==> r == Err(MissingAuthToken)
    ensures open.Err? && BearerToken(cmd.authorizationHeader).Ok? ==> r == Err(Failure(open.error))
    ensures r.Err? ==> r.error != IngestBusy
  {
    match BearerToken(cmd.authorizationHeader)
    case Err(_) => Err(MissingAuthToken)
    case Ok(token) => AdmitOrganization(LegacyLookupOrganization(open, orgByToken(token)).result, cmd, hmacHex)
  }

  /** With the store open, authentication is the dashboard service's. */
  lemma LegacyAuthenticateAgrees(cmd: IngestCommand, orgByToken: String -> OrgLookup, hmacHex: (String, String) -> String)
    ensures LegacyAuthenticate(cmd, Ok(()), orgByToken, hmacHex) == Authenticate(cmd, orgByToken, hmacHex)
  {
    if BearerToken(cmd.authorizationHeader).Ok? {
      var token := BearerToken(cmd.authorizationHeader).value;
      assert LegacyLookupOrganization(Ok(()), orgByToken(token)).result == LookupOrganization(orgByToken(token));
    }
  }

  /** The checks after authentication: parse, schema (every type), exact type, JSON. */
  function LegacyProcessEvent(organizationId: int, sdk: SdkAnswers): (r: Result<LegacyRecord, IngestError>)
    ensures sdk.parsed.Err? ==> r == Err(InvalidPayload)
    ensures sdk.parsed.Ok? && !sdk.schemaValid ==> r == Err(InvalidSchema)
    ensures r.Err? ==> r.error != IngestBusy
    ensures r.Ok? ==> sdk.parsed.Ok? && sdk.schemaValid && sdk.parsed.value.eventType in DeliveryTypes
    ensures r.Ok? ==> r.value.organizationId == organizationId && r.value.subjectType != ""
    ensures r.Ok? ==> r.value.eventType == sdk.parsed.value.eventType && sdk.json.Ok? && r.value.rawEventJson == sdk.json.value
  {
    if sdk.parsed.Err? then Err(InvalidPayload)
    else if !sdk.schemaValid then Err(InvalidSchema)
    else
      var ev := sdk.parsed.value;
      if ev.eventType !in DeliveryTypes then Err(UnsupportedType)
      else if sdk.json.Err? then Err(Failure(sdk.json.error))
      else
        var subjectType := SubjectTypeOf(ev.typeSubject, sdk.parsedTypeSubject);
        var chainId := if ev.chainId.Some? then NonBlank(ev.chainId.value) else None;
        Ok(LegacyRecord(organizationId, ev.id, ev.eventType, ev.source, ev.timestamp,
                        ev.subjectId, NonBlank(ev.subjectSource), subjectType, chainId, sdk.json.value))
  }

  /**
   * Ingest: the first failure is returned; the store is opened for the lookup and `append` is
   * the outcome of appending the record. None is success.
   */
  function LegacyIngest(cmd: IngestCommand, open: Result<(), String>, orgByToken: String -> OrgLookup,
                        hmacHex: (String, String) -> String, sdk: SdkAnswers,
                        append: LegacyRecord -> Option<IngestError>): (r: Option<IngestError>)
    ensures LegacyAuthenticate(cmd, open, orgByToken, hmacHex).Err? ==> r == Some(LegacyAuthenticate(cmd, open, orgByToken, hmacHex).error)
    ensures r.None? ==> open.Ok? && LegacyAuthenticate(cmd, open, orgByToken, hmacHex).Ok?
  {
    match LegacyAuthenticate(cmd, open, orgByToken, hmacHex)
    case Err(e) => Some(e)
    case Ok(org) =>
      match LegacyProcessEvent(org.id, sdk)
      case Err(e) => Some(e)
      case Ok(record) => append(record)
  }

  /** A record reaches the store only after every check has passed. */
  lemma LegacyAppendsOnlyAdmitted(cmd: IngestCommand, open: Result<(), String>, orgByToken: String -> OrgLookup,
                                  hmacHex: (String, String) -> String, sdk: SdkAnswers,
                                  append: LegacyRecord -> Option<IngestError>)
    requires LegacyIngest(cmd, open, orgByToken, hmacHex, sdk, append).None?
    ensures open.Ok? && LegacyAuthenticate(cmd, open, orgByToken, hmacHex) == Authenticate(cmd, orgByToken, hmacHex)
    ensures Authenticate(cmd, orgByToken, hmacHex).Ok?
    ensures var r := LegacyProcessEvent(Authenticate(cmd, orgByToken, hmacHex).value.id, sdk);
            r.Ok? && append(r.value).None?
  {
    LegacyAuthenticateAgrees(cmd, orgByToken, hmacHex);
  }

  /** Every event this service stores, the dashboard service stores too, with the same content. */
  lemma LegacyAcceptsFewer(organizationId: int, sdk: SdkAnswers)
    requires LegacyProcessEvent(organizationId, sdk).Ok?
    ensures ProcessEvent(organizationId, sdk).Ok?
    ensures var a := LegacyProcessEvent(organizationId, sdk).value;
            var b := ProcessEvent(organizationId, sdk).value;
            a.eventId == b.eventId && a.eventType == b.eventType && a.subjectType == b.subjectType &&
            a.chainId == b.chainId && a.subjectSource == b.subjectSource && a.rawEventJson == b.rawEventJson
  {
    var t := sdk.parsed.value.eventType;
    VersionedTypeFolded(t);
    assert TrimSpace(t) == t;
    DeliveryTypeNotEmpty(t);
  }

  /**
   * The two services differ on custom types: a custom type (a pipeline run, say) that passes the
   * schema is refused here as unsupported and stored by the dashboard service; one that fails
   * the schema is refused here as invalid and stored there, since custom types are not
   * schema-checked there.
   */
  lemma CustomTypeDiffers(organizationId: int, sdk: SdkAnswers)
    requires sdk.parsed.Ok? && sdk.json.Ok?
    requires var t := sdk.parsed.value.eventType; HasCustomPrefix(t) && TrimmedBy(t, Spaces)
    ensures LegacyProcessEvent(organizationId, sdk) == Err(if sdk.schemaValid then UnsupportedType else InvalidSchema)
    ensures ProcessEvent(organizationId, sdk).Ok?
  {
    CustomTypeAccepted(sdk.parsed.value.eventType);
  }

  /** A trimmed custom type is none of the eight: the dashboard service accepts it without a schema check, this one never. */
  lemma CustomTypeAccepted(t: String)
    requires HasCustomPrefix(t) && TrimmedBy(t, Spaces)
    ensures t !in DeliveryTypes && SupportedEventType(t) && !RequiresStrictSchemaValidation(t)
  {
    CustomNotDelivery(t);
    CustomTypeSupported(t);
    CustomTypeNotStrict(t);
  }

  lemma CustomTypeSupported(t: String)
    requires HasCustomPrefix(t) && TrimmedBy(t, Spaces)
    ensures SupportedEventType(t)
  {
    assert TrimSpace(t) == t;
  }

  lemma CustomTypeNotStrict(t: String)
    requires HasCustomPrefix(t) && TrimmedBy(t, Spaces)
    ensures !RequiresStrictSchemaValidation(t)
  {
    assert TrimSpace(t) == t;
    CustomNotDelivery(t);
  }

  lemma CustomNotDelivery(t: String)
    requires HasCustomPrefix(t)
    ensures t !in DeliveryTypes
  {
    if t in DeliveryTypes {
      DeliveryTypesNotCustom(t);
    }
  }

  /** A pipeline run started, the load test's one custom type, is such a type. */
  lemma PipelineRunDiffers(organizationId: int, sdk: SdkAnswers)
    requires sdk.parsed.Ok? && sdk.json.Ok? && sdk.parsed.value.eventType == PipelineRunStarted
    ensures LegacyProcessEvent(organizationId, sdk) == Err(if sdk.schemaValid then UnsupportedType else InvalidSchema)
    ensures ProcessEvent(organizationId, sdk).Ok?
  {
    PipelineRunStartedCustom();
    CustomTypeDiffers(organizationId, sdk);
  }

  /** Schema validation comes first here: an invalid event of an unsupported type is an invalid schema. */
  lemma LegacySchemaBeforeType(organizationId: int, sdk: SdkAnswers)
    requires sdk.parsed.Ok? && !sdk.schemaValid && !SupportedEventType(sdk.parsed.value.eventType)
    ensures LegacyProcessEvent(organizationId, sdk) == Err(InvalidSchema)
    ensures ProcessEvent(organizationId, sdk) == Err(UnsupportedType)
  {
  }
}
