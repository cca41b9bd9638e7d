/**
 * The first custom deployment webhook (internal/webhooks/custom/handler.go): a request names a
 * service, an environment and a reference; it is authenticated by the organization's bearer
 * token, which also names the organization's database file, and by the HMAC signature of the
 * body; an accepted request records a deployment in that database.
 *
 * Opening the database for a token and reading the organization from it are the parameter
 * `open`; JSON decoding (which refuses unknown fields) is the parameter `decode`; the clock is
 * the `timestamp` argument. The database itself is `CustomDatabase`.
 */
module CustomWebhook {
  import opened Wrappers
  import opened GoStrings
  import opened WebhookAuth
  import opened HttpReply

  const DefaultBaseDir: String := "data"

  /** NewHandler: a blank base directory becomes "data". */
  function HandlerBaseDir(baseDir: String): (r: String)
    ensures !IsBlank(r)
    ensures !IsBlank(baseDir) ==> r == baseDir
  {
    if IsBlank(baseDir) then
      DefaultBaseDirNotBlank();
      DefaultBaseDir
    else baseDir
  }

  lemma DefaultBaseDirNotBlank()
    ensures !IsBlank(DefaultBaseDir)
  {
    NotBlankByHead(DefaultBaseDir);
  }

  datatype Organization = Organization(id: int, webhookSecret: String, enabled: int)

  /** Opening the token's database and reading its organization: the open fails, there is no row, the query fails, or the row. */
  datatype DbAnswer = OpenFailed(message: String) | NoRows | QueryFailed(message: String) | Row(org: Organization)

  datatype LookupError = Unauthorized | StoreError(message: String)

  /** A token that cannot leave the base directory: no "..", no '/', no '\'. */
  predicate SafeToken(token: String)
  {
    !Contains(token, "..") && forall i :: 0 <= i < |token| ==> token[i] != '/' && token[i] != '\\'
  }

  /**
   * lookupOrganization: a blank or unsafe token is unauthorized before any database is opened;
   * a missing row or a disabled organization is unauthorized; store failures are returned.
   */
  function LookupOrganization(token: String, open: String -> DbAnswer): (r: Result<Organization, LookupError>)
    ensures IsBlank(token) || !SafeToken(TrimSpace(token)) ==> r == Err(Unauthorized)
    ensures r.Ok? ==> !IsBlank(token) && SafeToken(TrimSpace(token)) &&
                      open(TrimSpace(token)) == Row(r.value) && r.value.enabled != 0
    ensures !IsBlank(token) && SafeToken(TrimSpace(token)) && open(TrimSpace(token)).Row? ==>
              (r.Ok? <==> open(TrimSpace(token)).org.enabled != 0)
  {
    var t := TrimSpace(token);
    if t == "" then Err(Unauthorized)
    else if !SafeToken(t) then Err(Unauthorized)
    else
      match open(t)
      case OpenFailed(message) => Err(StoreError(message))
      case NoRows => Err(Unauthorized)
      case QueryFailed(message) => Err(StoreError(message))
      case Row(org) => if org.enabled == 0 then Err(Unauthorized) else Ok(org)
  }

  /** A blank or unsafe token never reaches a database: the answer does not depend on `open`. */
  lemma UnsafeTokenNeverOpens(token: String, open1: String -> DbAnswer, open2: String -> DbAnswer)
    requires IsBlank(token) || !SafeToken(TrimSpace(token))
    ensures LookupOrganization(token, open1) == LookupOrganization(token, open2) == Err(Unauthorized)
  {
  }

  /** A token with a ".." anywhere is refused. */
  lemma TraversalRefused(before: String, after: String, open: String -> DbAnswer)
    requires var t := before + ".." + after; TrimSpace(t) == t
    ensures LookupOrganization(before + ".." + after, open) == Err(Unauthorized)
  {
    ContainsInfix(before, "..", after);
  }

  datatype Payload = Payload(name: String, environment: String, reference: String)

  /** The payload with its three fields trimmed. */
  function TrimPayload(p: Payload): (r: Payload)
    ensures TrimmedBy(r.name, Spaces) && TrimmedBy(r.environment, Spaces) && TrimmedBy(r.reference, Spaces)
    ensures r.name == TrimSpace(p.name) && r.environment == TrimSpace(p.environment) && r.reference == TrimSpace(p.reference)
  {
    Payload(TrimSpace(p.name), TrimSpace(p.environment), TrimSpace(p.reference))
  }

  /** What Handle decides before touching the database: a reply, a returned error, or the organization and the trimmed payload to apply. */
  datatype Admission = Rejected(reply: Reply) | Errored(message: String) | Admitted(org: Organization, payload: Payload)

  /**
   * The checks of Handle, in order: token present, organization known and enabled, body read,
   * signature valid, payload decoded, fields non-blank after trimming.
   */
  function Admit(authorization: String, signature: String, read: Result<String, String>,
                 open: String -> DbAnswer, hmacHex: (String, String) -> String,
                 decode: String -> Option<Payload>): (r: Admission)
    ensures LenientBearerToken(authorization).Err? ==> r == Rejected(Reply(StatusUnauthorized, "missing auth token"))
    ensures r.Rejected? ==> r.reply.status == StatusUnauthorized || r.reply.status == StatusBadRequest
    ensures r.Admitted? ==> LenientBearerToken(authorization).Ok? &&
                            LookupOrganization(LenientBearerToken(authorization).value, open) == Ok(r.org)
    ensures r.Admitted? ==> read.Ok? && ValidSignature(read.value, r.org.webhookSecret, signature, hmacHex)
    ensures r.Admitted? ==> decode(read.value).Some? && r.payload == TrimPayload(decode(read.value).value)
    ensures r.Admitted? ==> r.payload.name != "" && r.payload.environment != "" && r.payload.reference != ""
  {
    match LenientBearerToken(authorization)
    case Err(_) => Rejected(Reply(StatusUnauthorized, "missing auth token"))
    case Ok(token) =>
      match LookupOrganization(token, open)
      case Err(Unauthorized) => Rejected(Reply(StatusUnauthorized, "invalid auth token"))
      case Err(StoreError(message)) => Errored(message)
      case Ok(org) =>
        if read.Err? then Rejected(Reply(StatusBadRequest, "invalid payload"))
        else if !ValidSignature(read.value, org.webhookSecret, signature, hmacHex) then
          Rejected(Reply(StatusUnauthorized, "invalid signature"))
        else
          match decode(read.value)
          case None => Rejected(Reply(StatusBadRequest, "invalid payload"))
          case Some(raw) =>
            var p := TrimPayload(raw);
            if p.name == "" || p.environment == "" || p.reference == "" then
              Rejected(Reply(StatusBadRequest, "missing required fields"))
            else Admitted(org, p)
  }

  /** The token is checked before the body is looked at: an unknown token gets the same answer whatever the body. */
  lemma TokenBeforeBody(authorization: String, signature: String, read1: Result<String, String>, read2: Result<String, String>,
                        open: String -> DbAnswer, hmacHex: (String, String) -> String, decode: String -> Option<Payload>)
    requires LenientBearerToken(authorization).Err? ||
             LookupOrganization(LenientBearerToken(authorization).value, open).Err?
    ensures Admit(authorization, signature, read1, open, hmacHex, decode) == Admit(authorization, signature, read2, open, hmacHex, decode)
    ensures !Admit(authorization, signature, read1, open, hmacHex, decode).Admitted?
  {
  }

  // ---------------------------------------------------------------------------
  // The organization's database

  /** One service instance row: its status, last deploy time, revision and commit. */
  datatype ServiceInstance = ServiceInstance(status: String, lastDeployAt: String, revision: String, commitSha: String)

  datatype Deployment = Deployment(serviceId: nat, environmentId: nat, deployedAt: String, status: String, releaseRef: String)

  /**
   * The answers of the store calls applyDeployment makes, in order: getOrCreateService,
   * MarkServiceIntegrationType, getOrCreateEnvironment, UpsertServiceInstance and
   * CreateDeploymentSimple. `None` is success; `Some(message)` is the error that call returns.
   */
  datatype StoreFaults = StoreFaults(service: Option<String>, mark: Option<String>, environment: Option<String>,
                                     instance: Option<String>, deployment: Option<String>)

  /** How many of the calls, from the first, succeed before one fails (5 when all do). */
  function Passed(f: StoreFaults): (n: nat)
    ensures n <= 5
    ensures n == 5 <==> f == StoreFaults(None, None, None, None, None)
  {
    if f.service.Some? then 0
    else if f.mark.Some? then 1
    else if f.environment.Some? then 2
    else if f.instance.Some? then 3
    else if f.deployment.Some? then 4
    else 5
  }

  /** The error of the first failing call, if any. */
  function FirstFault(f: StoreFaults): (r: Option<String>)
    ensures r.None? <==> Passed(f) == 5
    ensures Passed(f) == 0 ==> r == f.service
    ensures Passed(f) == 2 ==> r == f.environment
    ensures Passed(f) == 4 ==> r == f.deployment
  {
    if f.service.Some? then f.service
    else if f.mark.Some? then f.mark
    else if f.environment.Some? then f.environment
    else if f.instance.Some? then f.instance
    else f.deployment
  }

  /**
   * The tables the handler writes: services and environments by name, the integration type of
   * each service, one instance per service and environment, and the deployment log.
   */
  class CustomDatabase {
    var services: map<String, nat>
    var environments: map<String, nat>
    var integrationTypes: map<nat, String>
    var instances: map<(nat, nat), ServiceInstance>
    var deployments: seq<Deployment>
    var nextId: nat

    constructor ()
      ensures services == map[] && environments == map[] && integrationTypes == map[]
      ensures instances == map[] && deployments == [] && nextId == 1
    {
      services := map[];
      environments := map[];
      integrationTypes := map[];
      instances := map[];
      deployments := [];
      nextId := 1;
    }

    /** getOrCreateService: the existing service of that name, else a new one. */
    method GetOrCreateService(name: String) returns (id: nat)
      modifies this
      ensures name in old(services) ==> id == old(services)[name] && nextId == old(nextId)
      ensures name !in old(services) ==> id == old(nextId) && nextId == old(nextId) + 1
      ensures services == old(services)[name := id]
      ensures environments == old(environments) && integrationTypes == old(integrationTypes)
      ensures instances == old(instances) && deployments == old(deployments)
    {
      if name in services {
        id := services[name];
      } else {
        id := nextId;
        services := services[name := id];
        nextId := nextId + 1;
      }
    }

    /** getOrCreateEnvironment: the existing environment of that name, else a new one. */
    method GetOrCreateEnvironment(name: String) returns (id: nat)
      modifies this
      ensures name in old(environments) ==> id == old(environments)[name] && nextId == old(nextId)
      ensures name !in old(environments) ==> id == old(nextId) && nextId == old(nextId) + 1
      ensures environments == old(environments)[name := id]
      ensures services == old(services) && integrationTypes == old(integrationTypes)
      ensures instances == old(instances) && deployments == old(deployments)
    {
      if name in environments {
        id := environments[name];
      } else {
        id := nextId;
        environments := environments[name := id];
        nextId := nextId + 1;
      }
    }

    /**
     * applyDeployment: the service is found or created, marked "custom", the environment found
     * or created, its instance set "synced" at the reference, and a successful deployment
     * logged. The first store call that fails ends it with that error; what the calls before
     * it wrote stays.
     */
    method ApplyDeployment(p: Payload, timestamp: String, faults: StoreFaults) returns (err: Option<String>, serviceId: nat, environmentId: nat)
      modifies this
      ensures err == FirstFault(faults)
      ensures Passed(faults) >= 1 ==> p.name in services && services[p.name] == serviceId
      ensures Passed(faults) >= 1 && p.name in old(services) ==> services == old(services) && serviceId == old(services)[p.name]
      ensures Passed(faults) == 0 ==> services == old(services) && nextId == old(nextId)
      ensures integrationTypes == if Passed(faults) >= 2 then old(integrationTypes)[serviceId := "custom"] else old(integrationTypes)
      ensures Passed(faults) >= 3 ==> p.environment in environments && environments[p.environment] == environmentId
      ensures Passed(faults) >= 3 && p.environment in old(environments) ==> environments == old(environments)
      ensures Passed(faults) < 3 ==> environments == old(environments)
      ensures instances == if Passed(faults) >= 4
                           then old(instances)[(serviceId, environmentId) := ServiceInstance("synced", timestamp, p.reference, p.reference)]
                           else old(instances)
      ensures deployments == if Passed(faults) == 5
                             then old(deployments) + [Deployment(serviceId, environmentId, timestamp, "success", p.reference)]
                             else old(deployments)
    {
      serviceId, environmentId := 0, 0;
      if faults.service.Some? {
        return faults.service, serviceId, environmentId;
      }
      serviceId := GetOrCreateService(p.name);
      if faults.mark.Some? {
        return faults.mark, serviceId, environmentId;
      }
      integrationTypes := integrationTypes[serviceId := "custom"];
      if faults.environment.Some? {
        return faults.environment, serviceId, environmentId;
      }
      environmentId := GetOrCreateEnvironment(p.environment);
      if faults.instance.Some? {
        return faults.instance, serviceId, environmentId;
      }
      instances := instances[(serviceId, environmentId) := ServiceInstance("synced", timestamp, p.reference, p.reference)];
      if faults.deployment.Some? {
        return faults.deployment, serviceId, environmentId;
      }
      deployments := deployments + [Deployment(serviceId, environmentId, timestamp, "success", p.reference)];
      err := None;
    }
  }

  /** The reply for a decision: the rejection's status and message, the error, or 202. */
  function AdmissionReply(a: Admission): (r: HandlerResult)
    ensures a.Admitted? ==> r == Respond(StatusAccepted, "")
    ensures a.Rejected? ==> r.reply == Some(a.reply) && r.err.None?
    ensures r.err.Some? <==> a.Errored?
  {
    match a
    case Rejected(reply) => HandlerResult(Some(reply), None)
    case Errored(message) => Fail(message)
    case Admitted(_, _) => Respond(StatusAccepted, "")
  }

  /** The reply once a decision is carried out: a failed store call's error, else the decision's reply. */
  function CompletionReply(a: Admission, faults: StoreFaults): (r: HandlerResult)
    ensures a.Admitted? ==> (r == Respond(StatusAccepted, "") <==> Passed(faults) == 5)
    ensures a.Admitted? && Passed(faults) < 5 ==> r.reply.None? && r.err == FirstFault(faults)
    ensures !a.Admitted? ==> r == AdmissionReply(a)
  {
    if a.Admitted? && FirstFault(faults).Some? then Fail(FirstFault(faults).value) else AdmissionReply(a)
  }

  /**
   * Carry out a decision: an admitted payload is applied to the database, anything else leaves
   * it as it was. A failed store call leaves the earlier calls' writes in place.
   */
  method Complete(database: CustomDatabase, a: Admission, timestamp: String, faults: StoreFaults) returns (result: HandlerResult)
    modifies database
    ensures result == CompletionReply(a, faults)
    ensures !a.Admitted? ==> unchanged(database)
    ensures a.Admitted? && Passed(faults) >= 1 ==> a.payload.name in database.services
    ensures a.Admitted? && Passed(faults) >= 3 ==> a.payload.environment in database.environments
    ensures a.Admitted? && Passed(faults) == 5 ==>
              database.deployments == old(database.deployments) +
                [Deployment(database.services[a.payload.name], database.environments[a.payload.environment],
                            timestamp, "success", a.payload.reference)]
    ensures a.Admitted? && Passed(faults) < 5 ==> database.deployments == old(database.deployments)
  {
    if a.Admitted? {
      var _, _, _ := database.ApplyDeployment(a.payload, timestamp, faults);
    }
    result := CompletionReply(a, faults);
  }

  /**
   * Handle: the checks, then, for an admitted request, the deployment in the organization's
   * database and 202, or the error of the first store call that failed. `database` is the
   * token's database; nothing is written otherwise.
   */
  method Handle(database: CustomDatabase, authorization: String, signature: String, read: Result<String, String>,
                open: String -> DbAnswer, hmacHex: (String, String) -> String,
                decode: String -> Option<Payload>, timestamp: String, faults: StoreFaults) returns (result: HandlerResult)
    modifies database
    ensures result == CompletionReply(Admit(authorization, signature, read, open, hmacHex, decode), faults)
    ensures result == Respond(StatusAccepted, "") <==>
              Admit(authorization, signature, read, open, hmacHex, decode).Admitted? && Passed(faults) == 5
    ensures !Admit(authorization, signature, read, open, hmacHex, decode).Admitted? ==> unchanged(database)
    ensures var a := Admit(authorization, signature, read, open, hmacHex, decode);
            a.Admitted? && Passed(faults) == 5 ==>
              a.payload.name in database.services && a.payload.environment in database.environments &&
              database.deployments == old(database.deployments) +
                [Deployment(database.services[a.payload.name], database.environments[a.payload.environment],
                            timestamp, "success", a.payload.reference)]
    ensures var a := Admit(authorization, signature, read, open, hmacHex, decode);
            a.Admitted? && Passed(faults) < 5 ==> database.deployments == old(database.deployments)
  {
    result := Complete(database, Admit(authorization, signature, read, open, hmacHex, decode), timestamp, faults);
  }
}
