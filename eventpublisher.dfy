/**
 * The event publisher library: type-name normalization, subject inference and the
 * validation and defaulting BuildEventBody performs before handing the event to the
 * CDEvents SDK (pkg/eventpublisher/normalize.go and build.go).
 *
 * The SDK's event objects and JSON encoding are replaced by the `EventBody` datatype, which
 * records the fields the code sets. The clock is a parameter.
 */
module EventPublisher {
  import opened Wrappers
  import opened GoStrings
  import opened CDEvents

  /** The publisher's input record; every field is free text. */
  datatype Event = Event(
    eventType: String, source: String, service: String, environment: String, artifact: String,
    subjectId: String, subjectType: String, chainId: String, actorName: String,
    pipelineRun: String, pipelineUrl: String)

  /** The readings of time.Now the builder uses: Unix seconds, Unix nanoseconds, RFC 3339 text. */
  datatype Clock = Clock(unixSeconds: int, unixNanos: int, rfc3339Nano: String)

  datatype Reference = Reference(id: String)

  /** What the builder hands to the encoder: an SDK service or environment event, or a generic map. */
  datatype EventBody =
    | ServiceEvent(source: String, subjectId: String, environment: Reference, artifactId: Option<String>)
    | EnvironmentEvent(source: String, subjectId: String)
    | GenericEvent(context: GenericContext, subject: GenericSubject)

  datatype GenericContext = GenericContext(
    id: String, source: String, eventType: String, timestamp: String, specVersion: String,
    chainId: Option<String>)

  datatype GenericSubject = GenericSubject(
    id: String, source: String, subjectType: String, environmentId: String, artifactId: String,
    pipelineRunId: String, pipelineUrl: String, actorName: String)

  datatype BuildError =
    | SubjectRequired
    | ServiceAndEnvironmentRequired
    | EnvironmentRequired
    | UnsupportedType(eventType: String)

  function SourceOf(b: EventBody): String
  {
    match b
    case ServiceEvent(source, _, _, _) => source
    case EnvironmentEvent(source, _) => source
    case GenericEvent(context, _) => context.source
  }

  function SubjectIdOf(b: EventBody): String
  {
    match b
    case ServiceEvent(_, subjectId, _, _) => subjectId
    case EnvironmentEvent(_, subjectId) => subjectId
    case GenericEvent(_, subject) => subject.id
  }

  // ---------------------------------------------------------------------------
  // normalize.go

  /**
   * Resolve a type name to the short name the builder switches on: the blank type means
   * service.deployed, a versioned service or environment type becomes its short name, and
   * any other input (the short environment names among them) comes back trimmed and
   * lower-cased. The eight-way switch is written as a lookup in ShortNames.
   */
  function NormalizeType(value: String): (r: String)
    ensures r != "" && IsLower(r) && TrimmedBy(r, Spaces)
  {
    var v := Fold(value);
    var r := if v == "" then "service.deployed" else if v in ShortNames then ShortNames[v] else v;
    assert r != "" && IsLower(r) && TrimmedBy(r, Spaces) by {
      if r != v {
        if v != "" {
          ShortNamesKeys();
          ShortNameOf(v);
        }
        ShortNameLower(r);
        ShortNameTrimmed(r);
      }
    }
    r
  }

  /** A blank type, whatever its white space, defaults to "service.deployed". */
  lemma NormalizeTypeBlank(value: String)
    ensures IsBlank(value) ==> NormalizeType(value) == "service.deployed"
  {
    if IsBlank(value) {
      assert Fold(value) == ToLower([]) == [];
    }
  }

  /** Normalizing twice changes nothing more than normalizing once. */
  lemma NormalizeTypeIdempotent(value: String)
    ensures NormalizeType(NormalizeType(value)) == NormalizeType(value)
  {
    var v := Fold(value);
    var r := NormalizeType(value);
    FoldOfFolded(r);
    if v == "" {
      ShortNameNotVersioned(r);
    } else if v in ShortNames {
      ShortNamesKeys();
      ShortNameOf(v);
      ShortNameNotVersioned(r);
    }
  }

  /** The versioned service and environment types, however cased or padded, resolve to their short names. */
  lemma NormalizeVersionedType(value: String)
    requires Fold(value) in DeliveryTypes
    ensures NormalizeType(value) in VersionedNames
    ensures VersionedNames[NormalizeType(value)] == Fold(value)
  {
    ShortNamesKeys();
    ShortNameOf(Fold(value));
  }

  /** The short names resolve to themselves, and anything else that is not blank comes back folded. */
  lemma NormalizeOtherType(value: String)
    requires Fold(value) != "" && Fold(value) !in DeliveryTypes
    ensures NormalizeType(value) == Fold(value)
  {
    ShortNamesKeys();
  }

  /** The subjects the builder knows. */
  const SubjectTypes: set<String> := {"service", "environment", "pipeline", "change", "artifact", "incident"}

  /**
   * The subject type implied by a resolved type name: the "service." and "environment."
   * prefixes first, then the ".pipeline.", ".change.", ".artifact." and ".incident." markers
   * in that order, and "service" when nothing matches.
   */
  function InferSubjectType(resolvedType: String): (r: String)
    ensures r in SubjectTypes
    ensures HasPrefix(resolvedType, "service.") ==> r == "service"
    ensures !HasPrefix(resolvedType, "service.") && HasPrefix(resolvedType, "environment.") ==> r == "environment"
    ensures r == "environment" ==> HasPrefix(resolvedType, "environment.")
    ensures r == "pipeline" ==> Contains(resolvedType, ".pipeline.")
    ensures r == "change" ==> Contains(resolvedType, ".change.")
    ensures r == "artifact" ==> Contains(resolvedType, ".artifact.")
    ensures r == "incident" ==> Contains(resolvedType, ".incident.")
    ensures (!HasPrefix(resolvedType, "environment.") &&
             !Contains(resolvedType, ".pipeline.") && !Contains(resolvedType, ".change.") &&
             !Contains(resolvedType, ".artifact.") && !Contains(resolvedType, ".incident.")) ==> r == "service"
  {
    if HasPrefix(resolvedType, "service.") then "service"
    else if HasPrefix(resolvedType, "environment.") then "environment"
    else if Contains(resolvedType, ".pipeline.") then "pipeline"
    else if Contains(resolvedType, ".change.") then "change"
    else if Contains(resolvedType, ".artifact.") then "artifact"
    else if Contains(resolvedType, ".incident.") then "incident"
    else "service"
  }

  /**
   * The subject id implied by a service and environment: a service that already holds a "/"
   * is taken as a full id; otherwise it is qualified by the subject type. Without a service,
   * only environment subjects get an id. Every id produced holds a "/".
   */
  function InferSubjectId(subjectType: String, service: String, environment: String): (r: String)
    ensures r != "" ==> Contains(r, "/")
    ensures r == "" <==> IsBlank(service) && (TrimSpace(subjectType) != "environment" || IsBlank(environment))
    ensures !IsBlank(service) && Contains(TrimSpace(service), "/") ==> r == TrimSpace(service)
    ensures !IsBlank(service) && !Contains(TrimSpace(service), "/") ==>
              r == TrimSpace(subjectType) + "/" + TrimSpace(service)
    ensures IsBlank(service) && r != "" ==> r == "environment/" + TrimSpace(environment)
  {
    var service := TrimSpace(service);
    var environment := TrimSpace(environment);
    var subjectType := TrimSpace(subjectType);
    if service != "" then
      if Contains(service, "/") then service
      else
        ContainsInfix(subjectType, "/", service);
        subjectType + "/" + service
    else if subjectType == "environment" && environment != "" then
      assert "environment/" + environment == "environment" + "/" + environment;
      ContainsInfix("environment", "/", environment);
      "environment/" + environment
    else ""
  }

  /** Whether a type name, trimmed and lower-cased, starts with one of the custom prefixes. */
  function IsAcceptedCustomType(eventType: String): (r: bool)
    ensures r <==> HasCustomPrefix(Fold(eventType))
  {
    TrimSpaceToLower(eventType);
    var t := TrimSpace(ToLower(eventType));
    HasPrefix(t, PipelinePrefix) || HasPrefix(t, ChangePrefix) ||
    HasPrefix(t, ArtifactPrefix) || HasPrefix(t, IncidentPrefix)
  }

  /** On a resolved type, which is already folded, the test is the prefix test itself. */
  lemma IsAcceptedCustomTypeOfFolded(t: String)
    requires IsLower(t) && TrimmedBy(t, Spaces)
    ensures IsAcceptedCustomType(t) <==> HasCustomPrefix(t)
  {
    FoldOfFolded(t);
  }

  // ---------------------------------------------------------------------------
  // build.go

  /** The source after trimming, with "ci/pipeline" for a blank one. */
  function ResolvedSource(e: Event): String
  {
    var s := TrimSpace(e.source);
    if s == "" then "ci/pipeline" else s
  }

  /** The artifact after trimming; a blank artifact of a service event gets a generic package URL. */
  function ResolvedArtifact(e: Event, resolved: String, clock: Clock): String
  {
    var a := TrimSpace(e.artifact);
    if a == "" && HasPrefix(resolved, "service.") then
      "pkg:generic/" + TrimSpace(e.service) + "@" + IntToString(clock.unixSeconds)
    else a
  }

  /** The given subject type, or the inferred one when it is blank; never blank. */
  function ResolvedSubjectType(e: Event, resolved: String): (r: String)
    ensures r != ""
  {
    var t := TrimSpace(e.subjectType);
    if t == "" then InferSubjectType(resolved) else t
  }

  /** The given subject id, or the inferred one when it is blank; may be blank. */
  function ResolvedSubjectId(e: Event, resolved: String): String
  {
    var id := TrimSpace(e.subjectId);
    if id == "" then InferSubjectId(ResolvedSubjectType(e, resolved), e.service, e.environment) else id
  }

  /** The subject id as sent: qualified by the subject type when it holds no "/". */
  function QualifiedSubjectId(e: Event, resolved: String): (r: String)
    requires ResolvedSubjectId(e, resolved) != ""
    ensures Contains(r, "/")
  {
    var id := ResolvedSubjectId(e, resolved);
    var t := ResolvedSubjectType(e, resolved);
    if !Contains(id, "/") then
      ContainsInfix(t, "/", id);
      t + "/" + id
    else id
  }

  /**
   * When the builder succeeds: a subject can be named, service events name a service and an
   * environment, environment events name an environment, and any other type is a custom one.
   */
  predicate Admissible(e: Event)
  {
    var resolved := NormalizeType(e.eventType);
    ResolvedSubjectId(e, resolved) != "" &&
    (resolved in ServiceShortNames ==> !IsBlank(e.service) && !IsBlank(e.environment)) &&
    (resolved in EnvironmentShortNames ==> !IsBlank(e.environment)) &&
    (resolved !in ServiceShortNames + EnvironmentShortNames ==> HasCustomPrefix(resolved))
  }

  /** The generic body used for custom types, with "0.5.0" as specversion. */
  function BuildGenericEventBody(e: Event, clock: Clock): (r: EventBody)
    ensures r.GenericEvent? && r.context.specVersion == "0.5.0"
    ensures r.context.chainId.Some? <==> !IsBlank(e.chainId)
    ensures r.context.chainId.Some? ==> r.context.chainId.value == TrimSpace(e.chainId)
    ensures r.context.id == IntToString(clock.unixNanos) && r.context.timestamp == clock.rfc3339Nano
    ensures r.context.source == r.subject.source == e.source && r.context.eventType == e.eventType
    ensures r.subject.id == e.subjectId && r.subject.subjectType == e.subjectType
    ensures r.subject.environmentId == TrimSpace(e.environment) && r.subject.artifactId == TrimSpace(e.artifact)
    ensures r.subject.pipelineRunId == TrimSpace(e.pipelineRun) && r.subject.pipelineUrl == TrimSpace(e.pipelineUrl)
    ensures r.subject.actorName == TrimSpace(e.actorName)
  {
    var chainId := TrimSpace(e.chainId);
    GenericEvent(
      GenericContext(IntToString(clock.unixNanos), e.source, e.eventType, clock.rfc3339Nano, "0.5.0",
                     if chainId != "" then Some(chainId) else None),
      GenericSubject(e.subjectId, e.source, e.subjectType, TrimSpace(e.environment), TrimSpace(e.artifact),
                     TrimSpace(e.pipelineRun), TrimSpace(e.pipelineUrl), TrimSpace(e.actorName)))
  }

  /** The event after the defaulting steps, ready for the switch on its type. */
  datatype Prepared = Prepared(
    resolved: String, source: String, service: String, environment: String, artifact: String,
    subjectType: String, subjectId: String)

  function Prepare(e: Event, clock: Clock): (p: Prepared)
    requires ResolvedSubjectId(e, NormalizeType(e.eventType)) != ""
    ensures IsLower(p.resolved) && TrimmedBy(p.resolved, Spaces)
    ensures Contains(p.subjectId, "/")
  {
    var resolved := NormalizeType(e.eventType);
    Prepared(resolved, ResolvedSource(e), TrimSpace(e.service), TrimSpace(e.environment),
             ResolvedArtifact(e, resolved, clock), ResolvedSubjectType(e, resolved),
             QualifiedSubjectId(e, resolved))
  }

  /**
   * BuildEventBody: the body to send and the type name to send it under, or the reason the
   * event cannot be built. The subject is checked first, then the requirements of the type.
   */
  function BuildEventBody(e: Event, clock: Clock): (r: Result<(EventBody, String), BuildError>)
    ensures r.Ok? ==> SourceOf(r.value.0) == (if IsBlank(e.source) then "ci/pipeline" else TrimSpace(e.source))
    ensures r.Ok? ==> Contains(SubjectIdOf(r.value.0), "/")
    ensures ResolvedSubjectId(e, NormalizeType(e.eventType)) == "" <==> r == Err(SubjectRequired)
    ensures r.Err? && r.error.UnsupportedType? ==> r.error.eventType == e.eventType
  {
    if ResolvedSubjectId(e, NormalizeType(e.eventType)) == "" then Err(SubjectRequired)
    else
      BuildTypedBodyFields(e, clock, Prepare(e, clock));
      BuildTypedBody(e, clock, Prepare(e, clock))
  }

  /** The switch on the resolved type. */
  function BuildTypedBody(e: Event, clock: Clock, p: Prepared): (r: Result<(EventBody, String), BuildError>)
  {
    if p.resolved in ServiceShortNames then
      if p.service == "" || p.environment == "" then Err(ServiceAndEnvironmentRequired)
      else
        ShortNameIsKey(p.resolved);
        var artifactId := if p.resolved in {"service.removed", "service.published"} then None else Some(p.artifact);
        Ok((ServiceEvent(p.source, p.subjectId, Reference(p.environment), artifactId), VersionedNames[p.resolved]))
    else if p.resolved in EnvironmentShortNames then
      if p.environment == "" then Err(EnvironmentRequired)
      else
        ShortNameIsKey(p.resolved);
        Ok((EnvironmentEvent(p.source, p.subjectId), VersionedNames[p.resolved]))
    else if HasCustomPrefix(p.resolved) then
      // isAcceptedCustomType(resolved); see IsAcceptedCustomTypeOfFolded
      var generic := Event(p.resolved, p.source, "", p.environment, p.artifact, p.subjectId, p.subjectType,
                           TrimSpace(e.chainId), TrimSpace(e.actorName), TrimSpace(e.pipelineRun),
                           TrimSpace(e.pipelineUrl));
      Ok((BuildGenericEventBody(generic, clock), p.resolved))
    else Err(UnsupportedType(e.eventType))
  }

  /** The body carries the prepared source and subject id; a missing subject is never reported here. */
  lemma BuildTypedBodyFields(e: Event, clock: Clock, p: Prepared)
    ensures var r := BuildTypedBody(e, clock, p);
            (r.Ok? ==> SourceOf(r.value.0) == p.source && SubjectIdOf(r.value.0) == p.subjectId) &&
            (r.Err? ==> r.error != SubjectRequired) &&
            (r.Err? && r.error.UnsupportedType? ==> r.error.eventType == e.eventType)
  {
    if p.resolved in ServiceShortNames {
      ServiceBodyFields(e, clock, p);
    } else if p.resolved in EnvironmentShortNames {
      EnvironmentBodyFields(e, clock, p);
    } else {
      OtherBodyFields(e, clock, p);
    }
  }

  lemma OtherBodyFields(e: Event, clock: Clock, p: Prepared)
    requires p.resolved !in ServiceShortNames && p.resolved !in EnvironmentShortNames
    ensures var r := BuildTypedBody(e, clock, p);
            (r.Ok? ==> SourceOf(r.value.0) == p.source && SubjectIdOf(r.value.0) == p.subjectId) &&
            (r.Err? ==> r.error == UnsupportedType(e.eventType))
  {
  }

  lemma ServiceBodyFields(e: Event, clock: Clock, p: Prepared)
    requires p.resolved in ServiceShortNames
    ensures var r := BuildTypedBody(e, clock, p);
            (r.Ok? ==> r.value.0.ServiceEvent? && SourceOf(r.value.0) == p.source && SubjectIdOf(r.value.0) == p.subjectId) &&
            (r.Err? ==> r.error == ServiceAndEnvironmentRequired)
  {
  }

  lemma EnvironmentBodyFields(e: Event, clock: Clock, p: Prepared)
    requires p.resolved !in ServiceShortNames && p.resolved in EnvironmentShortNames
    ensures var r := BuildTypedBody(e, clock, p);
            (r.Ok? ==> SourceOf(r.value.0) == p.source && SubjectIdOf(r.value.0) == p.subjectId) &&
            (r.Err? ==> r.error == EnvironmentRequired)
  {
  }

  /** The type switch succeeds exactly when the type's own requirements hold. */
  lemma BuildTypedBodyAdmission(e: Event, clock: Clock, p: Prepared)
    ensures BuildTypedBody(e, clock, p).Ok? <==>
              (p.resolved in ServiceShortNames ==> p.service != "" && p.environment != "") &&
              (p.resolved in EnvironmentShortNames ==> p.environment != "") &&
              (p.resolved !in ServiceShortNames + EnvironmentShortNames ==> HasCustomPrefix(p.resolved))
  {
  }

  /** The builder succeeds exactly on admissible events. */
  lemma BuildEventBodyAdmission(e: Event, clock: Clock)
    ensures BuildEventBody(e, clock).Ok? <==> Admissible(e)
  {
    if ResolvedSubjectId(e, NormalizeType(e.eventType)) != "" {
      var p := Prepare(e, clock);
      assert p.resolved == NormalizeType(e.eventType);
      assert p.service == TrimSpace(e.service) && p.environment == TrimSpace(e.environment);
      assert BuildEventBody(e, clock) == BuildTypedBody(e, clock, p);
      BuildTypedBodyAdmission(e, clock, p);
    }
  }

  lemma BuildTypedBodyTypeName(e: Event, clock: Clock, p: Prepared)
    requires BuildTypedBody(e, clock, p).Ok?
    ensures var (body, typeName) := BuildTypedBody(e, clock, p).value;
            (body.ServiceEvent? <==> p.resolved in ServiceShortNames) &&
            (body.EnvironmentEvent? <==> p.resolved in EnvironmentShortNames) &&
            (body.GenericEvent? ==> typeName == p.resolved && HasCustomPrefix(typeName)) &&
            (!body.GenericEvent? ==> p.resolved in VersionedNames && typeName == VersionedNames[p.resolved] &&
                                     typeName in DeliveryTypes)
  {
    ShortNamesKeys();
    if p.resolved in VersionedNames {
      VersionedNameOf(p.resolved);
    }
  }

  /** Service and environment events go out under their versioned type, custom ones under the resolved name. */
  lemma BuildEventBodyTypeName(e: Event, clock: Clock)
    requires BuildEventBody(e, clock).Ok?
    ensures var resolved := NormalizeType(e.eventType);
            var (body, typeName) := BuildEventBody(e, clock).value;
            (body.ServiceEvent? <==> resolved in ServiceShortNames) &&
            (body.EnvironmentEvent? <==> resolved in EnvironmentShortNames) &&
            (body.GenericEvent? ==> typeName == resolved && HasCustomPrefix(typeName)) &&
            (!body.GenericEvent? ==> resolved in VersionedNames && typeName == VersionedNames[resolved] &&
                                     typeName in DeliveryTypes)
  {
    BuildTypedBodyTypeName(e, clock, Prepare(e, clock));
  }

  lemma BuildTypedBodyArtifact(e: Event, clock: Clock, p: Prepared)
    requires BuildTypedBody(e, clock, p).Ok?
    ensures var body := BuildTypedBody(e, clock, p).value.0;
            (body.ServiceEvent? ==>
               (body.artifactId.Some? <==> p.resolved in {"service.deployed", "service.upgraded", "service.rolledback"})) &&
            (body.ServiceEvent? && body.artifactId.Some? ==> body.artifactId.value == p.artifact) &&
            (body.GenericEvent? ==> body.subject.artifactId == TrimSpace(p.artifact))
  {
    if p.resolved in ServiceShortNames {
      ServiceShortNameSplit(p.resolved);
    } else if p.resolved in EnvironmentShortNames {
    } else {
      assert HasCustomPrefix(p.resolved);
    }
  }

  /**
   * The artifact: a blank one is synthesised as "pkg:generic/<service>@<unix seconds>" only for
   * service types, which set it on deployed, upgraded and rolled-back events; custom types carry
   * the trimmed artifact as given.
   */
  lemma BuildEventBodyArtifact(e: Event, clock: Clock)
    requires BuildEventBody(e, clock).Ok?
    ensures var body := BuildEventBody(e, clock).value.0;
            (body.ServiceEvent? ==>
               (body.artifactId.Some? <==>
                  NormalizeType(e.eventType) in {"service.deployed", "service.upgraded", "service.rolledback"})) &&
            (body.ServiceEvent? && body.artifactId.Some? ==>
               body.artifactId.value ==
                 (if IsBlank(e.artifact)
                  then "pkg:generic/" + TrimSpace(e.service) + "@" + IntToString(clock.unixSeconds)
                  else TrimSpace(e.artifact))) &&
            (body.GenericEvent? ==> body.subject.artifactId == TrimSpace(e.artifact))
  {
    var p := Prepare(e, clock);
    BuildTypedBodyArtifact(e, clock, p);
    BuildTypedBodyTypeName(e, clock, p);
    if p.resolved in ServiceShortNames {
      ServiceShortNamePrefix(p.resolved);
    } else if HasCustomPrefix(p.resolved) {
      CustomPrefixNotService(p.resolved);
      TrimSpaceIdempotent(e.artifact);
    }
  }

  /** A custom type keeps the subject the builder infers for its prefix (pipeline types shown here). */
  lemma PipelineTypesArePipelineSubjects(t: String)
    requires HasPrefix(t, PipelinePrefix)
    ensures InferSubjectType(t) == "pipeline"
  {
    var p := PipelinePrefix;
    assert t[..22] == p;
    assert t[12..22] == t[..22][12..22] == p[12..22] == ".pipeline.";
    ContainsAt(t, ".pipeline.", 12);
    assert t[0] == p[0] == 'd';
  }

  /** The eight SDK types resolve to short names the builder sends back under the same SDK type. */
  lemma DeliveryTypesRoundTrip(t: String)
    requires t in DeliveryTypes
    ensures NormalizeType(t) in VersionedNames && VersionedNames[NormalizeType(t)] == t
  {
    VersionedTypeFolded(t);
    FoldOfFolded(t);
    NormalizeVersionedType(t);
  }

  /** A short service type naming a service and an environment is always built. */
  lemma ServiceEventAdmissible(e: Event)
    requires e.eventType in ServiceShortNames
    requires !IsBlank(e.service) && !IsBlank(e.environment)
    ensures Admissible(e)
  {
    var t := e.eventType;
    ShortNameResolves(t);
    ServiceNotEnvironment(t);
    ServiceSubjectId(e, t);
  }

  /** A short name resolves to itself. */
  lemma ShortNameResolves(t: String)
    requires t in ServiceShortNames + EnvironmentShortNames
    ensures NormalizeType(t) == t
  {
    ShortNamesKeys();
    ShortNameLower(t);
    ShortNameTrimmed(t);
    FoldOfFolded(t);
    ShortNameNotVersioned(t);
  }

  /** An event naming a service always has a subject id. */
  lemma ServiceSubjectId(e: Event, resolved: String)
    requires !IsBlank(e.service)
    ensures ResolvedSubjectId(e, resolved) != ""
  {
  }

  /** A folded custom type with a subject id is always built. */
  lemma CustomEventAdmissible(e: Event)
    requires IsLower(e.eventType) && TrimmedBy(e.eventType, Spaces) && HasCustomPrefix(e.eventType)
    requires !IsBlank(e.subjectId)
    ensures Admissible(e)
  {
    var t := e.eventType;
    FoldOfFolded(t);
    ShortNamesKeys();
    assert t !in DeliveryTypes by {
      if t in DeliveryTypes {
        DeliveryTypesNotCustom(t);
      }
    }
    CustomPrefixNotService(t);
    assert NormalizeType(t) == t;
  }
}
