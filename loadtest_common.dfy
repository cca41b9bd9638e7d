/**
 * The k6 event factory shared by the load-test scripts (loadtest/common.js): short type names
 * mapped to versioned CDEvents types, the service-event payload with its defaults, the signed
 * webhook headers and the two response checks.
 *
 * JavaScript's `a || b` on a string takes `b` when `a` is missing or empty, and on a number
 * when it is missing or zero; a missing value is None. The clock (`new Date()`, `Date.now()`),
 * the HMAC, `JSON.stringify` and the HTTP calls are parameters or left out.
 */
module LoadTestCommon {
  import opened Wrappers
  import opened GoStrings
  import opened CDEvents

  /** `value || fallback` for a string. */
  function OrElse(value: Option<String>, fallback: String): (r: String)
    ensures value.Some? && value.value != "" ==> r == value.value
    ensures value.None? || value.value == "" ==> r == fallback
  {
    if value.Some? && value.value != "" then value.value else fallback
  }

  /** The base URL, token and secret, read from the environment with the scripts' defaults. */
  function EnvOr(env: map<String, String>, key: String, fallback: String): String
  {
    OrElse(if key in env then Some(env[key]) else None, fallback)
  }

  function AuthToken(env: map<String, String>): String
  {
    EnvOr(env, "AUTH_TOKEN", "loadtest-token-01")
  }

  function WebhookSecret(env: map<String, String>): String
  {
    EnvOr(env, "WEBHOOK_SECRET", "loadtest-secret-01")
  }

  function BaseUrl(env: map<String, String>): String
  {
    EnvOr(env, "BASE_URL", "http://localhost:19090")
  }

  /** cdeventType: a known short name becomes its versioned type; anything else is returned as is. */
  function CdeventType(shortType: String): (r: String)
    ensures shortType in VersionedNames ==> r in DeliveryTypes && ShortNames[r] == shortType
    ensures shortType !in VersionedNames ==> r == shortType
  {
    if shortType in VersionedNames then
      VersionedNameOf(shortType);
      VersionedNames[shortType]
    else shortType
  }

  /** A type already versioned passes through cdeventType unchanged. */
  lemma CdeventTypeOfVersioned(t: String)
    requires t in DeliveryTypes
    ensures CdeventType(t) == t
  {
    ShortNamesKeys();
    ShortNameOf(t);
    ShortNameNotVersioned(ShortNames[t]);
  }

  /** The parameters of buildServiceEvent; None is a parameter left undefined. */
  datatype Params = Params(
    eventType: Option<String>, service: Option<String>, environment: Option<String>,
    sequence: Option<int>, chainId: Option<String>, source: Option<String>,
    artifact: Option<String>, pipelineRun: Option<String>, pipelineUrl: Option<String>,
    actor: Option<String>)

  /** The payload buildServiceEvent returns; a missing chainId key is None. */
  datatype LoadEvent = LoadEvent(
    id: String, source: String, eventType: String, timestamp: String, specVersion: String,
    chainId: Option<String>,
    subjectId: String, subjectSource: String, environment: String, artifactId: String,
    runId: String, url: String, actorName: String)

  /** `params.sequence || Date.now()`, printed in decimal: the sequence unless it is missing or zero. */
  function SequenceText(sequence: Option<int>, nowMillis: int): (r: String)
    ensures sequence.Some? && sequence.value != 0 ==> r == IntToString(sequence.value)
  {
    IntToString(if sequence.Some? && sequence.value != 0 then sequence.value else nowMillis)
  }

  function LoadEventId(service: String, sequence: String): String
  {
    "lt-" + service + "-" + sequence
  }

  /** buildServiceEvent, with the clock as `nowIso` and `nowMillis`. */
  function BuildServiceEvent(p: Params, nowIso: String, nowMillis: int): (r: LoadEvent)
    ensures r.environment == OrElse(p.environment, "staging")
    ensures r.eventType == CdeventType(OrElse(p.eventType, "service.deployed"))
    ensures r.source == r.subjectSource == OrElse(p.source, "loadtest/k6")
    ensures r.subjectId == "service/" + OrElse(p.service, "orders")
    ensures r.id == LoadEventId(OrElse(p.service, "orders"), SequenceText(p.sequence, nowMillis))
    ensures r.chainId.Some? <==> p.chainId.Some? && p.chainId.value != ""
    ensures r.chainId.Some? ==> r.chainId == p.chainId
    ensures p.artifact.None? || p.artifact.value == "" ==>
              r.artifactId == "pkg:generic/" + OrElse(p.service, "orders") + "@" + SequenceText(p.sequence, nowMillis)
    ensures r.specVersion == "0.5.0" && r.timestamp == nowIso
  {
    var service := OrElse(p.service, "orders");
    var env := OrElse(p.environment, "staging");
    var eventType := CdeventType(OrElse(p.eventType, "service.deployed"));
    var seqText := SequenceText(p.sequence, nowMillis);
    var artifact := OrElse(p.artifact, "pkg:generic/" + service + "@" + seqText);
    var source := OrElse(p.source, "loadtest/k6");
    LoadEvent(
      LoadEventId(service, seqText), source, eventType, nowIso, "0.5.0",
      if p.chainId.Some? && p.chainId.value != "" then p.chainId else None,
      "service/" + service, source, env, artifact,
      OrElse(p.pipelineRun, "run-" + seqText), OrElse(p.pipelineUrl, ""), OrElse(p.actor, "loadtest-bot"))
  }

  /** Events for one service with distinct non-zero sequences have distinct ids. */
  lemma LoadEventIdInjective(service: String, a: int, b: int)
    requires a != 0 && b != 0
    requires LoadEventId(service, IntToString(a)) == LoadEventId(service, IntToString(b))
    ensures a == b
  {
    var p := "lt-" + service + "-";
    assert LoadEventId(service, IntToString(a)) == p + IntToString(a);
    assert LoadEventId(service, IntToString(b)) == p + IntToString(b);
    assert (p + IntToString(a))[|p|..] == IntToString(a);
    assert (p + IntToString(b))[|p|..] == IntToString(b);
    IntToStringInjective(a, b);
  }

  /** The request headers: the bearer token, the hex HMAC of the body under the secret, and JSON. */
  function WebhookHeaders(body: String, env: map<String, String>, hmacHex: (String, String) -> String): (r: map<String, String>)
    ensures r.Keys == {"Authorization", "X-Webhook-Signature", "Content-Type"}
    ensures r["Authorization"] == "Bearer " + AuthToken(env)
    ensures r["X-Webhook-Signature"] == hmacHex(WebhookSecret(env), body)
    ensures r["Content-Type"] == "application/json"
  {
    map["Authorization" := "Bearer " + AuthToken(env),
        "X-Webhook-Signature" := hmacHex(WebhookSecret(env), body),
        "Content-Type" := "application/json"]
  }

  datatype Request = Request(url: String, body: String, headers: map<String, String>)

  /** postWebhook's request: the body it sends is the body it signs. */
  function WebhookRequest(body: String, env: map<String, String>, hmacHex: (String, String) -> String): (r: Request)
    ensures r.body == body && r.url == BaseUrl(env) + "/webhooks/cdevents"
    ensures "X-Webhook-Signature" in r.headers && r.headers["X-Webhook-Signature"] == hmacHex(WebhookSecret(env), r.body)
  {
    Request(BaseUrl(env) + "/webhooks/cdevents", body, WebhookHeaders(body, env, hmacHex))
  }

  /** The "webhook accepted" check: any status below 300. */
  predicate WebhookAccepted(status: int)
  {
    status < 300
  }

  /** The "dev login redirect" check: 302 or 303 only. */
  predicate DevLoginRedirect(status: int)
  {
    status == 302 || status == 303
  }

  /** devLogin's form, with its defaults for a missing or empty email and next path. */
  function DevLoginForm(email: Option<String>, nextPath: Option<String>): (r: map<String, String>)
    ensures r.Keys == {"email", "nickname", "name", "next"}
    ensures r["email"] == OrElse(email, "loadtest-user@example.local") && r["email"] != ""
    ensures r["next"] == OrElse(nextPath, "/") && r["next"] != ""
  {
    map["email" := OrElse(email, "loadtest-user@example.local"),
        "nickname" := "loadtest-user",
        "name" := "Load Test User",
        "next" := OrElse(nextPath, "/")]
  }
}
