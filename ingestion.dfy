/**
 * The CDEvents ingestion service of the dashboard (apps/ddash/internal/app/services/ingestion.go):
 * a delivery is authenticated by its bearer token and HMAC signature, parsed, checked against
 * the accepted types, schema-validated when its type is one of the eight strict ones, turned
 * into an event-store record and appended.
 *
 * The CDEvents SDK (parsing, schema validation, type parsing, JSON encoding) and the store are
 * parameters: their answers for the delivery at hand. The batcher's goroutine and channels are
 * not modelled; its admission step is (`AppendRecord`).
 */
module Ingestion {
  import opened Wrappers
  import opened GoStrings
  import opened CDEvents
  import opened WebhookAuth

  /** The sentinel errors, and every other error the store or SDK returns. */
  datatype IngestError =
    | MissingAuthToken | InvalidAuthToken | InvalidSignature | InvalidPayload
    | InvalidSchema | UnsupportedType | IngestBusy
    | Failure(message: String)

  datatype ErrorKind =
    | KindUnknown | KindMissingAuth | KindInvalidAuth | KindInvalidSignature
    | KindInvalidPayload | KindInvalidSchema | KindUnsupportedType | KindBusy

  /** The string value of each kind. */
  function KindName(k: ErrorKind): String
  {
    match k
    case KindUnknown => "unknown"
    case KindMissingAuth => "missing_auth"
    case KindInvalidAuth => "invalid_auth"
    case KindInvalidSignature => "invalid_signature"
    case KindInvalidPayload => "invalid_payload"
    case KindInvalidSchema => "invalid_schema"
    case KindUnsupportedType => "unsupported_type"
    case KindBusy => "busy"
  }

  /** Distinct kinds have distinct names. */
  lemma KindNameInjective(a: ErrorKind, b: ErrorKind)
    requires KindName(a) == KindName(b)
    ensures a == b
  {
    var na := KindName(a);
    assert na[0] == KindName(b)[0];
    if |na| > 1 {
      assert na[1] == KindName(b)[1];
    }
    if |na| > 8 {
      assert na[8] == KindName(b)[8];
    }
  }

  /** ClassifyIngestError; a nil error is None. */
  function ClassifyIngestError(err: Option<IngestError>): (k: ErrorKind)
    ensures k == KindUnknown <==> err.None? || err.value.Failure?
    ensures err == Some(IngestBusy) <==> k == KindBusy
  {
    match err
    case None => KindUnknown
    case Some(e) =>
      match e
      case MissingAuthToken => KindMissingAuth
      case InvalidAuthToken => KindInvalidAuth
      case InvalidSignature => KindInvalidSignature
      case InvalidPayload => KindInvalidPayload
      case InvalidSchema => KindInvalidSchema
      case UnsupportedType => KindUnsupportedType
      case IngestBusy => KindBusy
      case Failure(_) => KindUnknown
  }

  /** Each sentinel has a kind of its own. */
  lemma ClassifySentinelsDistinct(a: IngestError, b: IngestError)
    requires !a.Failure? && !b.Failure? && a != b
    ensures ClassifyIngestError(Some(a)) != ClassifyIngestError(Some(b))
  {
  }

  // ---------------------------------------------------------------------------
  // Accepted types

  const AllowedTypePrefixes: seq<String> := [PipelinePrefix, ChangePrefix, ArtifactPrefix, IncidentPrefix]

  /** The accepted types: the trimmed type is one of the eight, or starts with one of the four prefixes. */
  predicate SupportedEventType(eventType: String)
  {
    var t := TrimSpace(eventType);
    t != "" && (t in DeliveryTypes || HasCustomPrefix(t))
  }

  /** isSupportedEventType: blank types are refused, the eight delivery types accepted, then the prefixes tried. */
  method IsSupportedEventType(eventType: String) returns (ok: bool)
    ensures ok == SupportedEventType(eventType)
  {
    var t := TrimSpace(eventType);
    if t == "" {
      return false;
    }
    if t in DeliveryTypes {
      return true;
    }
    ok := HasAllowedPrefix(t);
  }

  /** The loop of isSupportedEventType over the allowed prefixes. */
  method HasAllowedPrefix(t: String) returns (ok: bool)
    ensures ok == HasCustomPrefix(t)
  {
    var i := 0;
    while i < |AllowedTypePrefixes|
      invariant 0 <= i <= |AllowedTypePrefixes|
      invariant forall j :: 0 <= j < i ==> !HasPrefix(t, AllowedTypePrefixes[j])
    {
      if HasPrefix(t, AllowedTypePrefixes[i]) {
        AllowedPrefix(t, i);
        return true;
      }
      i := i + 1;
    }
    NoAllowedPrefix(t);
    return false;
  }

  /** Each of the loop's prefixes is a custom one. */
  lemma AllowedPrefix(t: String, i: int)
    requires 0 <= i < |AllowedTypePrefixes| && HasPrefix(t, AllowedTypePrefixes[i])
    ensures HasCustomPrefix(t)
  {
  }

  /** No prefix of the loop leaves no custom prefix. */
  lemma NoAllowedPrefix(t: String)
    requires forall j :: 0 <= j < |AllowedTypePrefixes| ==> !HasPrefix(t, AllowedTypePrefixes[j])
    ensures !HasCustomPrefix(t)
  {
    assert !HasPrefix(t, AllowedTypePrefixes[0]) && !HasPrefix(t, AllowedTypePrefixes[1]);
    assert !HasPrefix(t, AllowedTypePrefixes[2]) && !HasPrefix(t, AllowedTypePrefixes[3]);
  }

  /** requiresStrictSchemaValidation: exactly the eight delivery types, after trimming. */
  predicate RequiresStrictSchemaValidation(eventType: String)
  {
    TrimSpace(eventType) in DeliveryTypes
  }

  /** A type that needs strict validation is accepted; a blank type is not. */
  lemma StrictTypesSupported(eventType: String)
    ensures RequiresStrictSchemaValidation(eventType) ==> SupportedEventType(eventType)
    ensures IsBlank(eventType) ==> !SupportedEventType(eventType)
  {
    if RequiresStrictSchemaValidation(eventType) {
      DeliveryTypeNotEmpty(TrimSpace(eventType));
    }
  }

  lemma DeliveryTypeNotEmpty(t: String)
    requires t in DeliveryTypes
    ensures t != ""
  {
  }

  // ---------------------------------------------------------------------------
  // Organizations

  datatype Organization = Organization(id: int, webhookSecret: String, enabled: bool)

  /** What the store answers for a token: no row, a row, or another failure. */
  datatype OrgLookup = NoRows | Found(org: Organization) | LookupFailed(message: String)

  /** Why lookupOrganization found no usable organization: none (sql.ErrNoRows), or a store failure. */
  datatype LookupError = NoOrganization | StoreFailure(message: String)

  /** lookupOrganization: a disabled organization is reported as no row. */
  function LookupOrganization(answer: OrgLookup): (r: Result<Organization, LookupError>)
    ensures r.Ok? <==> answer.Found? && answer.org.enabled
    ensures r.Ok? ==> r.value == answer.org
    ensures r == Err(NoOrganization) <==> answer.NoRows? || (answer.Found? && !answer.org.enabled)
  {
    match answer
    case Found(org) => if org.enabled then Ok(org) else Err(NoOrganization)
    case NoRows => Err(NoOrganization)
    case LookupFailed(message) => Err(StoreFailure(message))
  }

  // ---------------------------------------------------------------------------
  // Records

  /** What the SDK makes of the delivery: the parsed event (or the parse error), whether it passes schema validation, the subject ParseType finds in its type, and its JSON. */
  datatype ParsedEvent = ParsedEvent(
    eventType: String, typeSubject: String, id: String, source: String,
    timestamp: String, timestampMs: int, subjectId: String, subjectSource: String,
    chainId: Option<String>)

  datatype SdkAnswers = SdkAnswers(
    parsed: Result<ParsedEvent, String>, schemaValid: bool,
    parsedTypeSubject: Option<String>, json: Result<String, String>)

  datatype EventRecord = EventRecord(
    organizationId: int, eventId: String, eventType: String, eventSource: String,
    eventTimestamp: String, eventTsMs: int, subjectId: String, subjectSource: Option<String>,
    subjectType: String, chainId: Option<String>, rawEventJson: String)

  /** A trimmed value, or None when it is blank. */
  function NonBlank(value: String): (r: Option<String>)
    ensures r.Some? <==> !IsBlank(value)
    ensures r.Some? ==> r.value == TrimSpace(value) && r.value != ""
  {
    var t := TrimSpace(value);
    if t == "" then None else Some(t)
  }

  /** The subject type: the event's, else the one parsed from its type, else "unknown". */
  function SubjectTypeOf(typeSubject: String, parsedTypeSubject: Option<String>): (r: String)
    ensures r != "" && TrimmedBy(r, Spaces)
    ensures !IsBlank(typeSubject) ==> r == TrimSpace(typeSubject)
  {
    var own := TrimSpace(typeSubject);
    if own != "" then own
    else
      var parsed := if parsedTypeSubject.Some? then TrimSpace(parsedTypeSubject.value) else "";
      if parsed != "" then parsed else "unknown"
  }

  /** The checks after authentication, shared by both entry points: parse, type, schema (strict types only), JSON. */
  function ProcessEvent(organizationId: int, sdk: SdkAnswers): (r: Result<EventRecord, IngestError>)
    ensures sdk.parsed.Err? ==> r == Err(InvalidPayload)
    ensures r.Err? ==> r.error in {InvalidPayload, UnsupportedType, InvalidSchema} || r.error.Failure?
    ensures r.Ok? ==> sdk.parsed.Ok? && SupportedEventType(sdk.parsed.value.eventType)
    ensures r.Ok? && RequiresStrictSchemaValidation(sdk.parsed.value.eventType) ==> sdk.schemaValid
    ensures r.Ok? ==> r.value.organizationId == organizationId && r.value.subjectType != ""
    ensures r.Ok? ==> r.value.eventType == sdk.parsed.value.eventType && sdk.json.Ok? && r.value.rawEventJson == sdk.json.value
  {
    if sdk.parsed.Err? then Err(InvalidPayload)
    else
      var ev := sdk.parsed.value;
      if !SupportedEventType(ev.eventType) then Err(UnsupportedType)
      else if RequiresStrictSchemaValidation(ev.eventType) && !sdk.schemaValid then Err(InvalidSchema)
      else if sdk.json.Err? then Err(Failure(sdk.json.error))
      else
        var subjectType := SubjectTypeOf(ev.typeSubject, sdk.parsedTypeSubject);
        var chainId := if ev.chainId.Some? then NonBlank(ev.chainId.value) else None;
        Ok(EventRecord(organizationId, ev.id, ev.eventType, ev.source, ev.timestamp, ev.timestampMs,
                       ev.subjectId, NonBlank(ev.subjectSource), subjectType, chainId, sdk.json.value))
  }

  /** The type check comes before the schema check, and only strict types are schema-checked. */
  lemma SchemaCheckedOnlyForStrictTypes(organizationId: int, sdk: SdkAnswers)
    requires sdk.parsed.Ok? && !RequiresStrictSchemaValidation(sdk.parsed.value.eventType)
    ensures ProcessEvent(organizationId, sdk) == ProcessEvent(organizationId, sdk.(schemaValid := true))
  {
  }

  lemma UnsupportedBeforeSchema(organizationId: int, sdk: SdkAnswers)
    requires sdk.parsed.Ok? && !SupportedEventType(sdk.parsed.value.eventType)
    ensures ProcessEvent(organizationId, sdk) == Err(UnsupportedType)
  {
  }

  datatype IngestCommand = IngestCommand(authorizationHeader: String, signatureHeader: String, body: String)

  /**
   * The authentication half of Ingest: the bearer token, then the token's organization (unknown
   * and disabled alike are ErrInvalidAuthToken, other store failures are returned), then the
   * body's signature under that organization's secret. `orgByToken` is the store's answer.
   */
  function Authenticate(cmd: IngestCommand, orgByToken: String -> OrgLookup, hmacHex: (String, String) -> String): (r: Result<Organization, IngestError>)
    ensures BearerToken(cmd.authorizationHeader).Err? ==> r == Err(MissingAuthToken)
    ensures r.Ok? ==> BearerToken(cmd.authorizationHeader).Ok?
    ensures r.Err? ==> r.error in {MissingAuthToken, InvalidAuthToken, InvalidSignature} || r.error.Failure?
  {
    match BearerToken(cmd.authorizationHeader)
    case Err(_) => Err(MissingAuthToken)
    case Ok(token) => AdmitOrganization(LookupOrganization(orgByToken(token)), cmd, hmacHex)
  }

  /** The steps after the token: no row is ErrInvalidAuthToken, another failure is returned, and the organization's secret must sign the body. */
  function AdmitOrganization(lookup: Result<Organization, LookupError>, cmd: IngestCommand,
                             hmacHex: (String, String) -> String): (r: Result<Organization, IngestError>)
    ensures r.Ok? <==> lookup.Ok? && ValidSignature(cmd.body, lookup.value.webhookSecret, cmd.signatureHeader, hmacHex)
    ensures r.Ok? ==> r.value == lookup.value
    ensures lookup == Err(NoOrganization) ==> r == Err(InvalidAuthToken)
    ensures lookup.Ok? && !r.Ok? ==> r == Err(InvalidSignature)
    ensures r.Err? ==> r.error in {InvalidAuthToken, InvalidSignature} || r.error.Failure?
  {
    match lookup
    case Err(NoOrganization) => Err(InvalidAuthToken)
    case Err(StoreFailure(message)) => Err(Failure(message))
    case Ok(org) =>
      if !ValidSignature(cmd.body, org.webhookSecret, cmd.signatureHeader, hmacHex) then Err(InvalidSignature)
      else Ok(org)
  }

  /** Only the token's own enabled organization authenticates, and only with a valid signature. */
  lemma AuthenticatedOnlyAdmitted(cmd: IngestCommand, orgByToken: String -> OrgLookup, hmacHex: (String, String) -> String)
    requires Authenticate(cmd, orgByToken, hmacHex).Ok?
    ensures var answer := orgByToken(BearerToken(cmd.authorizationHeader).value);
            var org := Authenticate(cmd, orgByToken, hmacHex).value;
            answer == Found(org) && org.enabled &&
            ValidSignature(cmd.body, org.webhookSecret, cmd.signatureHeader, hmacHex)
  {
  }

  /** An unknown or disabled organization is refused with ErrInvalidAuthToken, before the signature is looked at. */
  lemma UnknownOrganizationRefused(cmd: IngestCommand, orgByToken: String -> OrgLookup, hmacHex: (String, String) -> String)
    requires BearerToken(cmd.authorizationHeader).Ok?
    requires var answer := orgByToken(BearerToken(cmd.authorizationHeader).value);
             answer.NoRows? || (answer.Found? && !answer.org.enabled)
    ensures Authenticate(cmd, orgByToken, hmacHex) == Err(InvalidAuthToken)
  {
  }

  /** A bad signature is refused with ErrInvalidSignature. */
  lemma BadSignatureRefused(cmd: IngestCommand, orgByToken: String -> OrgLookup, hmacHex: (String, String) -> String)
    requires BearerToken(cmd.authorizationHeader).Ok?
    requires var answer := orgByToken(BearerToken(cmd.authorizationHeader).value);
             answer.Found? && answer.org.enabled &&
             !ValidSignature(cmd.body, answer.org.webhookSecret, cmd.signatureHeader, hmacHex)
    ensures Authenticate(cmd, orgByToken, hmacHex) == Err(InvalidSignature)
  {
  }

  /** Ingest: authentication, then the event checks, then the append; the first failure is returned and None is success. */
  function Ingest(cmd: IngestCommand, orgByToken: String -> OrgLookup, hmacHex: (String, String) -> String,
                  sdk: SdkAnswers, append: EventRecord -> Option<IngestError>): (r: Option<IngestError>)
    ensures Authenticate(cmd, orgByToken, hmacHex).Err? ==> r == Some(Authenticate(cmd, orgByToken, hmacHex).error)
    ensures r.None? ==> Authenticate(cmd, orgByToken, hmacHex).Ok? &&
                        ProcessEvent(Authenticate(cmd, orgByToken, hmacHex).value.id, sdk).Ok? &&
                        append(ProcessEvent(Authenticate(cmd, orgByToken, hmacHex).value.id, sdk).value).None?
  {
    match Authenticate(cmd, orgByToken, hmacHex)
    case Err(e) => Some(e)
    case Ok(org) =>
      match ProcessEvent(org.id, sdk)
      case Err(e) => Some(e)
      case Ok(record) => append(record)
  }

  /** IngestForOrganization: an organization id that is not positive is refused as an invalid token. */
  function IngestForOrganization(organizationId: int, sdk: SdkAnswers,
                                 append: EventRecord -> Option<IngestError>): (r: Option<IngestError>)
    ensures organizationId <= 0 ==> r == Some(InvalidAuthToken)
    ensures organizationId > 0 && sdk.parsed.Err? ==> r == Some(InvalidPayload)
  {
    if organizationId <= 0 then Some(InvalidAuthToken)
    else
      match ProcessEvent(organizationId, sdk)
      case Err(e) => Some(e)
      case Ok(record) => append(record)
  }

  /** Once authenticated, a token delivery is processed exactly as a delivery for its organization. */
  lemma IngestAsForOrganization(cmd: IngestCommand, orgByToken: String -> OrgLookup, hmacHex: (String, String) -> String,
                                sdk: SdkAnswers, append: EventRecord -> Option<IngestError>)
    requires Authenticate(cmd, orgByToken, hmacHex).Ok? && Authenticate(cmd, orgByToken, hmacHex).value.id > 0
    ensures Ingest(cmd, orgByToken, hmacHex, sdk, append) ==
            IngestForOrganization(Authenticate(cmd, orgByToken, hmacHex).value.id, sdk, append)
  {
  }

  // ---------------------------------------------------------------------------
  // Batching

  datatype BatchConfig = BatchConfig(enabled: bool, size: int, flushIntervalNs: int)

  /** The batcher's settings: its batch size, flush interval and queue capacity. */
  datatype Batcher = Batcher(batchSize: int, flushIntervalNs: int, queueCapacity: int)

  const Millisecond: int := 1000000

  /** NewEventIngestServiceWithConfig: no batcher unless enabled; the size clamped to 1..2000 (100 when not positive), the interval 50ms when not positive. */
  function NewBatcher(cfg: BatchConfig): (r: Option<Batcher>)
    ensures r.Some? <==> cfg.enabled
    ensures r.Some? ==> 1 <= r.value.batchSize <= 2000 && r.value.flushIntervalNs > 0
    ensures r.Some? ==> r.value.queueCapacity == r.value.batchSize * 8
    ensures r.Some? && 1 <= cfg.size <= 2000 ==> r.value.batchSize == cfg.size
    ensures r.Some? && cfg.size <= 0 ==> r.value.batchSize == 100
    ensures r.Some? && cfg.size > 2000 ==> r.value.batchSize == 2000
    ensures r.Some? ==> r.value.flushIntervalNs == (if cfg.flushIntervalNs <= 0 then 50 * Millisecond else cfg.flushIntervalNs)
  {
    if !cfg.enabled then None
    else
      var size := if cfg.size <= 0 then 100 else if cfg.size > 2000 then 2000 else cfg.size;
      var interval := if cfg.flushIntervalNs <= 0 then 50 * Millisecond else cfg.flushIntervalNs;
      Some(Batcher(size, interval, size * 8))
  }

  /** NewEventIngestService's defaults give a batcher of 100 events flushed every 50ms. */
  lemma DefaultBatcher()
    ensures NewBatcher(BatchConfig(true, 100, 50 * Millisecond)) == Some(Batcher(100, 50 * Millisecond, 800))
  {
  }

  /**
   * appendRecord: with a batcher, a full queue is ErrIngestBusy and otherwise the batch's flush
   * result is returned; without one, the store is opened and the append's result returned.
   */
  function AppendRecord(batcher: Option<Batcher>, queueLength: nat, flushResult: Option<IngestError>,
                        open: Result<(), String>, directResult: Option<IngestError>): (r: Option<IngestError>)
    ensures batcher.Some? && queueLength >= batcher.value.queueCapacity ==> r == Some(IngestBusy)
    ensures batcher.Some? && queueLength < batcher.value.queueCapacity ==> r == flushResult
    ensures batcher.None? && open.Err? ==> r == Some(Failure(open.error))
  {
    match batcher
    case Some(b) => if queueLength >= b.queueCapacity then Some(IngestBusy) else flushResult
    case None => if open.Err? then Some(Failure(open.error)) else directResult
  }
}
