/**
 * The GitHub App ingestor (cmd/githubappingestor/main.go): it receives GitHub webhooks, checks
 * their signature, chooses the dashboard credentials of the installation that sent them, and
 * republishes the converted events; setup intents tie a later GitHub installation to an
 * organization's credentials.
 *
 * The installation store is the value `Installs`, as the handlers' reads see it; each handler
 * returns the store it leaves behind. Store failures, the random setup state, the clock (in
 * seconds), URL escaping, JSON decoding and the conversion of a payload to events are inputs.
 * The handlers call `firstNonEmpty` with two arguments: `FirstOfTwo` is that call, and it equals
 * `Bridge.FirstNonEmpty`, which has the same body as the handlers' helper.
 */
module GitHubAppIngestor {
  import opened Wrappers
  import opened GoStrings
  import opened Bridge
  import opened WebhookAuth
  import opened HttpReply

  // ---------------------------------------------------------------------------
  // Small helpers

  /** maskValue: how the setup page shows a token or a secret. */
  function MaskValue(value: String): (r: String)
    ensures r == "" <==> IsBlank(value)
    ensures 0 < |TrimSpace(value)| <= 8 ==> r == "****"
    ensures var v := TrimSpace(value);
            |v| > 8 ==> |r| == 11 && r[..4] == v[..4] && r[4..7] == "..." && r[7..] == v[|v| - 4..]
  {
    var v := TrimSpace(value);
    if v == "" then ""
    else if |v| <= 8 then "****"
    else v[..4] + "..." + v[|v| - 4..]
  }

  lemma MaskOfStars()
    ensures MaskValue("****") == "****"
  {
    assert TrimSpace("****") == "****";
  }

  lemma MaskOfMasked(v: String)
    requires |v| > 8 && TrimmedBy(v, Spaces)
    ensures var m := v[..4] + "..." + v[|v| - 4..]; MaskValue(m) == m
  {
    var m := v[..4] + "..." + v[|v| - 4..];
    assert m[0] == v[0] && m[10] == v[|v| - 1];
    assert TrimSpace(m) == m;
    assert m[..4] + "..." + m[7..] == m;
  }

  /** Masking a masked value changes nothing: the page never shows more on a second pass. */
  lemma MaskIdempotent(value: String)
    ensures MaskValue(MaskValue(value)) == MaskValue(value)
  {
    var v := TrimSpace(value);
    if v == "" {
    } else if |v| <= 8 {
      MaskOfStars();
    } else {
      MaskOfMasked(v);
    }
  }

  /** valueOrDefault: the trimmed value, or the fallback when it is blank. */
  function ValueOrDefault(value: String, fallback: String): (r: String)
    ensures IsBlank(value) ==> r == fallback
    ensures !IsBlank(value) ==> r == TrimSpace(value) && TrimmedBy(r, Spaces)
  {
    var v := TrimSpace(value);
    if v == "" then fallback else v
  }

  /** firstNonEmpty(a, b): the first argument that is not blank, trimmed, else "". */
  function FirstOfTwo(a: String, b: String): (r: String)
    ensures TrimmedBy(r, Spaces)
    ensures r == "" <==> IsBlank(a) && IsBlank(b)
  {
    if !IsBlank(a) then TrimSpace(a) else TrimSpace(b)
  }

  lemma FirstOfTwoIsFirstNonEmpty(a: String, b: String)
    ensures FirstOfTwo(a, b) == FirstNonEmpty([a, b])
  {
    FirstNonEmpty2(a, b);
  }

  /** With a trimmed, non-blank fallback, valueOrDefault is firstNonEmpty of the two. */
  lemma ValueOrDefaultIsFirstNonEmpty(value: String, fallback: String)
    requires !IsBlank(fallback) && TrimmedBy(fallback, Spaces)
    ensures ValueOrDefault(value, fallback) == FirstNonEmpty([value, fallback])
    ensures !IsBlank(ValueOrDefault(value, fallback))
  {
    FirstNonEmpty2(value, fallback);
  }

  // ---------------------------------------------------------------------------
  // The GitHub signature (X-Hub-Signature-256, an HMAC-SHA256 per section 2 of RFC 2104)

  const SignaturePrefix: String := "sha256="

  /**
   * validGitHubSignature: the header, lower-cased and trimmed, must start with "sha256=" and
   * the rest must equal the hex HMAC of the body under the secret.
   */
  function ValidGitHubSignature(body: String, secret: String, header: String,
                                hmacHex: (String, String) -> String): (r: bool)
    ensures r <==> HasPrefix(Fold(header), SignaturePrefix) &&
                   hmacHex(secret, body) == Fold(header)[|SignaturePrefix|..]
  {
    var h := TrimSpace(ToLower(header));
    TrimSpaceToLower(header);
    if !HasPrefix(h, SignaturePrefix) then false
    else hmacHex(secret, body) == TrimPrefix(h, SignaturePrefix)
  }

  lemma SignaturePrefixLower()
    ensures IsLower(SignaturePrefix) && SignaturePrefix != [] && !IsSpace(SignaturePrefix[0])
  {
  }

  /** The header GitHub sends, "sha256=" and the lower-case hex HMAC, is accepted. */
  lemma GitHubSignatureAccepted(body: String, secret: String, hmacHex: (String, String) -> String)
    requires var h := hmacHex(secret, body); h != "" && IsLower(h) && TrimmedBy(h, Spaces)
    ensures ValidGitHubSignature(body, secret, SignaturePrefix + hmacHex(secret, body), hmacHex)
  {
    var h := hmacHex(secret, body);
    var header := SignaturePrefix + h;
    SignaturePrefixLower();
    IsLowerConcat(SignaturePrefix, h);
    ToLowerIsLower(header);
    TrimSpaceConcat(SignaturePrefix, h);
    PrefixOfConcat(SignaturePrefix, h);
    assert Fold(header)[|SignaturePrefix|..] == h;
  }

  /** The case of the header's letters does not matter. */
  lemma GitHubSignatureCaseInsensitive(body: String, secret: String, header: String,
                                       hmacHex: (String, String) -> String)
    ensures ValidGitHubSignature(body, secret, ToLower(header), hmacHex) ==
            ValidGitHubSignature(body, secret, header, hmacHex)
  {
    ToLowerIdempotent(header);
  }

  /** A header without the "sha256=" prefix is refused, whatever the secret. */
  lemma GitHubSignatureNeedsPrefix(body: String, secret: String, header: String,
                                   hmacHex: (String, String) -> String)
    requires !HasPrefix(Fold(header), SignaturePrefix)
    ensures !ValidGitHubSignature(body, secret, header, hmacHex)
  {
  }

  // ---------------------------------------------------------------------------
  // The setup token

  /**
   * The bearer part of authorizedSetupRequest: the scheme is matched without regard to case,
   * but only "Bearer " and "bearer " are stripped before the token is compared.
   */
  predicate SetupBearer(authorization: String, token: String)
  {
    var auth := TrimSpace(authorization);
    HasPrefix(ToLower(auth), "bearer ") &&
    (TrimSpace(TrimPrefix(auth, BearerPrefix)) == token || TrimSpace(TrimPrefix(auth, "bearer ")) == token)
  }

  /**
   * authorizedSetupRequest: a blank configured token authorizes everything; otherwise the token
   * may come as a bearer header, as the setup_token query parameter, or as the setup_token form
   * value when the form parses (`formToken`).
   */
  function AuthorizedSetupRequest(configured: String, authorization: String, queryToken: String,
                                  formToken: Option<String>): (r: bool)
    ensures IsBlank(configured) ==> r
    ensures !IsBlank(configured) ==>
            (r <==> SetupBearer(authorization, TrimSpace(configured)) ||
                    TrimSpace(queryToken) == TrimSpace(configured) ||
                    (formToken.Some? && TrimSpace(formToken.value) == TrimSpace(configured)))
  {
    var token := TrimSpace(configured);
    if token == "" then true
    else
      SetupBearer(authorization, token)
      || TrimSpace(queryToken) == token
      || (formToken.Some? && TrimSpace(formToken.value) == token)
  }

  /** "Bearer <token>" carries the setup token. */
  lemma SetupBearerUpper(token: String)
    requires token != "" && TrimmedBy(token, Spaces)
    ensures SetupBearer(BearerPrefix + token, token)
  {
    var h := BearerPrefix + token;
    TrimSpaceConcat(BearerPrefix, token);
    PrefixOfConcat(BearerPrefix, token);
    LowerPrefix(h, BearerPrefix);
    SchemeLower();
    assert TrimPrefix(h, BearerPrefix) == token;
  }

  /** "bearer <token>" carries the setup token. */
  lemma SetupBearerLower(token: String)
    requires token != "" && TrimmedBy(token, Spaces)
    ensures SetupBearer("bearer " + token, token)
  {
    var h := "bearer " + token;
    TrimSpaceConcat("bearer ", token);
    PrefixOfConcat("bearer ", token);
    LowerPrefix(h, "bearer ");
    LowerSchemeIsLower();
    ToLowerIsLower("bearer ");
    assert TrimPrefix(h, "bearer ") == token;
  }

  /** Either spelling of the scheme, with the configured token, authorizes a setup request. */
  lemma SetupBearerAccepted(token: String, queryToken: String, formToken: Option<String>)
    requires token != "" && TrimmedBy(token, Spaces)
    ensures AuthorizedSetupRequest(token, BearerPrefix + token, queryToken, formToken)
    ensures AuthorizedSetupRequest(token, "bearer " + token, queryToken, formToken)
  {
    SetupBearerUpper(token);
    SetupBearerLower(token);
  }

  /**
   * A header that starts with neither spelling, "BEARER <token>" say, is compared whole, so it
   * does not carry a shorter token, although its scheme passes the case-insensitive test.
   */
  lemma UnstrippedRefused(h: String, token: String)
    requires TrimmedBy(h, Spaces) && !HasPrefix(h, BearerPrefix) && !HasPrefix(h, "bearer ") && |h| > |token|
    ensures !SetupBearer(h, token)
  {
  }

  // ---------------------------------------------------------------------------
  // The installation store

  /** How long a setup intent stays valid, in seconds. */
  const SetupIntentLifetime: int := 15 * 60

  datatype SetupPayload = SetupPayload(
    organizationId: int, organizationLabel: String, endpoint: String, authToken: String,
    webhookSecret: String, defaultEnvironment: String)

  datatype SetupIntent = SetupIntent(
    state: String, organizationId: int, organizationLabel: String, endpoint: String,
    authToken: String, webhookSecret: String, defaultEnvironment: String, expiresAt: int)

  datatype Mapping = Mapping(
    installationId: int, organizationId: int, organizationLabel: String, endpoint: String,
    authToken: String, webhookSecret: String, defaultEnvironment: String, enabled: bool)

  /** The setup intents by state and the installation mappings by installation id. */
  datatype Installs = Installs(intents: map<String, SetupIntent>, mappings: map<int, Mapping>)

  /** The outcome of createSetupIntent and the store it leaves. */
  datatype SetupOutcome = SetupOutcome(result: Result<(SetupIntent, String), String>, installs: Installs)

  const CallbackPath: String := "/setup/callback?state="

  /** The intent createSetupIntent saves for a payload, a random state and the time it is made. */
  function IntentOf(payload: SetupPayload, defaultEnv: String, state: String, now: int): (intent: SetupIntent)
    ensures intent.state == state && intent.organizationId == payload.organizationId
    ensures intent.organizationLabel == TrimSpace(payload.organizationLabel)
    ensures intent.endpoint == TrimSpace(payload.endpoint) && intent.authToken == TrimSpace(payload.authToken)
    ensures intent.webhookSecret == TrimSpace(payload.webhookSecret)
    ensures intent.defaultEnvironment == ValueOrDefault(payload.defaultEnvironment, TrimSpace(defaultEnv))
    ensures intent.expiresAt == now + SetupIntentLifetime
  {
    SetupIntent(state, payload.organizationId, TrimSpace(payload.organizationLabel),
                TrimSpace(payload.endpoint), TrimSpace(payload.authToken), TrimSpace(payload.webhookSecret),
                ValueOrDefault(payload.defaultEnvironment, TrimSpace(defaultEnv)), now + SetupIntentLifetime)
  }

  /** Credentials that are required are not blank. */
  predicate HasCredentials(payload: SetupPayload)
  {
    !IsBlank(payload.endpoint) && !IsBlank(payload.authToken) && !IsBlank(payload.webhookSecret)
  }

  /**
   * createSetupIntent: the three credentials are required; the environment falls back to the
   * default; the intent, valid for fifteen minutes from `now`, is saved under the random state;
   * the redirect is the local callback when no install URL is configured, else the install URL
   * with the state added (`appendState`, which may fail after the intent is saved).
   */
  function CreateSetupIntent(installs: Installs, installUrl: String, defaultEnv: String, payload: SetupPayload,
                             randomState: Result<String, String>, now: int, saveFails: bool,
                             queryEscape: String -> String,
                             appendState: (String, String) -> Result<String, String>): (r: SetupOutcome)
    ensures !HasCredentials(payload) ==> r.result.Err? && r.installs == installs
    ensures r.result.Ok? ==>
            HasCredentials(payload) && randomState.Ok? &&
            var intent := IntentOf(payload, defaultEnv, randomState.value, now);
            r.result.value.0 == intent && r.installs == installs.(intents := installs.intents[intent.state := intent])
    ensures r.installs != installs ==>
              HasCredentials(payload) && randomState.Ok? && !saveFails &&
              var intent := IntentOf(payload, defaultEnv, randomState.value, now);
              r.installs == installs.(intents := installs.intents[intent.state := intent])
    ensures r.result.Ok? && IsBlank(installUrl) ==> r.result.value.1 == CallbackPath + queryEscape(randomState.value)
  {
    if !HasCredentials(payload) then
      SetupOutcome(Err("ddash_endpoint, ddash_auth_token, ddash_webhook_secret are required"), installs)
    else
      match randomState
      case Err(_) => SetupOutcome(Err("failed to create setup state"), installs)
      case Ok(state) =>
        SaveSetupIntent(installs, installUrl, IntentOf(payload, defaultEnv, state, now), saveFails, queryEscape, appendState)
  }

  /** A saved intent carries the trimmed credentials, none of them blank. */
  lemma SavedIntentCredentials(payload: SetupPayload, defaultEnv: String, state: String, now: int)
    requires HasCredentials(payload)
    ensures var intent := IntentOf(payload, defaultEnv, state, now);
            !IsBlank(intent.endpoint) && !IsBlank(intent.authToken) && !IsBlank(intent.webhookSecret)
  {
    TrimSpaceIdempotent(payload.endpoint);
    TrimSpaceIdempotent(payload.authToken);
    TrimSpaceIdempotent(payload.webhookSecret);
  }

  /** The second half of createSetupIntent: save the intent, then build the redirect. */
  function SaveSetupIntent(installs: Installs, installUrl: String, intent: SetupIntent, saveFails: bool,
                           queryEscape: String -> String,
                           appendState: (String, String) -> Result<String, String>): (r: SetupOutcome)
    ensures saveFails ==> r.result.Err? && r.installs == installs
    ensures !saveFails ==> r.installs == installs.(intents := installs.intents[intent.state := intent])
    ensures r.result.Ok? ==> r.result.value.0 == intent
    ensures r.result.Ok? && IsBlank(installUrl) ==> r.result.value.1 == CallbackPath + queryEscape(intent.state)
  {
    if saveFails then SetupOutcome(Err("failed to save setup intent"), installs)
    else
      var saved := installs.(intents := installs.intents[intent.state := intent]);
      if TrimSpace(installUrl) == "" then SetupOutcome(Ok((intent, CallbackPath + queryEscape(intent.state))), saved)
      else
        match appendState(installUrl, intent.state)
        case Err(_) => SetupOutcome(Err("invalid install url"), saved)
        case Ok(url) => SetupOutcome(Ok((intent, url)), saved)
  }

  /** A rejected install URL is reported as an error, yet the intent it was made for stays saved. */
  lemma InvalidInstallUrlKeepsIntent(installs: Installs, installUrl: String, defaultEnv: String, payload: SetupPayload,
                                     state: String, now: int, queryEscape: String -> String,
                                     appendState: (String, String) -> Result<String, String>)
    requires HasCredentials(payload) && !IsBlank(installUrl) && appendState(installUrl, state).Err?
    ensures var r := CreateSetupIntent(installs, installUrl, defaultEnv, payload, Ok(state), now, false, queryEscape, appendState);
            r.result.Err? && state in r.installs.intents && r.installs.intents[state].expiresAt == now + SetupIntentLifetime
  {
  }

  /** The setup start page's query parameters, each defaulted by firstNonEmpty. */
  datatype SetupQuery = SetupQuery(
    organizationId: String, organization: String, endpoint: String, authToken: String,
    webhookSecret: String, defaultEnvironment: String)

  /** The configured defaults: the dashboard credentials and the default environment, all trimmed. */
  datatype Defaults = Defaults(endpoint: String, token: String, secret: String, environment: String)

  /**
   * The payload the setup start page builds from its query; an unparsable organization id is 0.
   * The handler trims each firstNonEmpty result again, which changes nothing.
   */
  function SetupPayloadOf(q: SetupQuery, d: Defaults): SetupPayload
  {
    SetupPayload(ParseInt64OrZero(TrimSpace(q.organizationId)), TrimSpace(q.organization),
                 FirstOfTwo(q.endpoint, d.endpoint),
                 FirstOfTwo(q.authToken, d.token),
                 FirstOfTwo(q.webhookSecret, d.secret),
                 FirstOfTwo(q.defaultEnvironment, d.environment))
  }

  /** A query parameter overrides its default unless it is blank. */
  lemma SetupPayloadDefaults(q: SetupQuery, d: Defaults)
    ensures var p := SetupPayloadOf(q, d);
            p.endpoint == TrimSpace(if IsBlank(q.endpoint) then d.endpoint else q.endpoint) &&
            p.authToken == TrimSpace(if IsBlank(q.authToken) then d.token else q.authToken) &&
            p.webhookSecret == TrimSpace(if IsBlank(q.webhookSecret) then d.secret else q.webhookSecret) &&
            p.defaultEnvironment == TrimSpace(if IsBlank(q.defaultEnvironment) then d.environment else q.defaultEnvironment)
  {
    FirstNonEmptyTrimmed(q.endpoint, d.endpoint);
    FirstNonEmptyTrimmed(q.authToken, d.token);
    FirstNonEmptyTrimmed(q.webhookSecret, d.secret);
    FirstNonEmptyTrimmed(q.defaultEnvironment, d.environment);
  }

  lemma FirstNonEmptyTrimmed(a: String, b: String)
    ensures FirstOfTwo(a, b) == TrimSpace(if IsBlank(a) then b else a)
  {
    TrimSpaceIdempotent(a);
    TrimSpaceIdempotent(b);
  }

  /** The reply of a handler and the store it leaves. */
  datatype Handled = Handled(reply: Reply, installs: Installs)

  /**
   * The setup start page: an unauthorized request is 401; a setup intent that cannot be made is
   * 400 with its message; otherwise the browser is redirected (302) to the install URL.
   */
  function StartSetup(installs: Installs, setupToken: String, authorized: bool, installUrl: String,
                      q: SetupQuery, d: Defaults, randomState: Result<String, String>, now: int,
                      saveFails: bool, queryEscape: String -> String,
                      appendState: (String, String) -> Result<String, String>): (h: Handled)
    ensures setupToken != "" && !authorized ==> h == Handled(Reply(StatusUnauthorized, "unauthorized"), installs)
    ensures h.reply.status in {StatusUnauthorized, StatusBadRequest, StatusFound}
    ensures h.reply.status == StatusFound ==>
            var o := CreateSetupIntent(installs, installUrl, d.environment, SetupPayloadOf(q, d), randomState, now, saveFails, queryEscape, appendState);
            o.result.Ok? && h.reply.message == o.result.value.1 && h.installs == o.installs
  {
    if setupToken != "" && !authorized then Handled(Reply(StatusUnauthorized, "unauthorized"), installs)
    else
      var o := CreateSetupIntent(installs, installUrl, d.environment, SetupPayloadOf(q, d), randomState, now, saveFails, queryEscape, appendState);
      match o.result
      case Err(message) => Handled(Reply(StatusBadRequest, message), o.installs)
      case Ok((_, url)) => Handled(Reply(StatusFound, url), o.installs)
  }

  // ---------------------------------------------------------------------------
  // The setup callback

  const MappedPage: String := "GitHub installation mapped successfully."

  const MissingParameters: String := "missing state or installation_id"
  const InvalidInstallationId: String := "invalid installation_id"

  /**
   * The callback's installation id text: `installation_id`, else `installationId`, trimmed
   * (the handler trims the result of firstNonEmpty again, which changes nothing).
   */
  function CallbackIdText(idParam: String, idAlt: String): String
  {
    FirstOfTwo(idParam, idAlt)
  }

  /** Why the callback's installation id is refused, and the message of each reason. */
  datatype IdError = MissingId | InvalidId
  {
    function Message(): String
    {
      match this
      case MissingId => MissingParameters
      case InvalidId => InvalidInstallationId
    }
  }

  /** The callback's installation id: a positive 64-bit integer. */
  function CallbackInstallationId(idParam: String, idAlt: String): (r: Result<int, IdError>)
    ensures r.Ok? ==> r.value > 0 && ParseInt64(CallbackIdText(idParam, idAlt)) == Some(r.value)
    ensures r == Err(MissingId) <==> CallbackIdText(idParam, idAlt) == ""
  {
    var raw := CallbackIdText(idParam, idAlt);
    if raw == "" then Err(MissingId)
    else
      match ParseInt64(raw)
      case None => Err(InvalidId)
      case Some(id) => if id <= 0 then Err(InvalidId) else Ok(id)
  }

  /** The decimal form of a positive 64-bit id is read back. */
  lemma CallbackInstallationIdRoundTrip(id: int)
    requires 0 < id <= Int64Max
    ensures CallbackInstallationId(IntToString(id), "") == Ok(id)
  {
    var s := IntToString(id);
    DecimalTrimmed(id);

    assert CallbackIdText(s, "") == s;
    ParseIntToString(id);
    assert ParseInt64(s) == Some(id);
  }

  /** A number printed in decimal has no surrounding space. */
  lemma DecimalTrimmed(n: int)
    requires n > 0
    ensures var s := IntToString(n); s != [] && TrimmedBy(s, Spaces) && TrimSpace(s) == s && !IsBlank(s)
  {
    var s := NatToString(n);
    assert IsDigit(s[0]) && IsDigit(s[|s| - 1]);
  }

  /**
   * The setup callback: the state and an installation id (`installation_id`, else
   * `installationId`) are required, the id must be a positive 64-bit integer, and the state
   * must name a saved intent (a store failure is 500). An intent whose expiry is before `now`
   * is deleted and answered 410; otherwise an enabled mapping with the intent's credentials is
   * upserted under the id (a failure is 500 and keeps the intent) and the intent is deleted.
   */
  function Callback(installs: Installs, stateParam: String, installationIdParam: String, installationIdAlt: String,
                    readFails: bool, upsertFails: bool, now: int): (h: Handled)
    ensures h.reply.status in {StatusOK, StatusBadRequest, StatusNotFound, StatusGone, StatusInternalServerError}
    ensures IsBlank(stateParam) ==> h.reply == Reply(StatusBadRequest, MissingParameters)
    ensures h.reply.status == StatusGone ==>
            var state := TrimSpace(stateParam);
            state in installs.intents && now > installs.intents[state].expiresAt &&
            h.installs == installs.(intents := installs.intents - {state})
    ensures h.reply.status == StatusOK ==>
            var state := TrimSpace(stateParam);
            var id := CallbackInstallationId(installationIdParam, installationIdAlt);
            state in installs.intents && now <= installs.intents[state].expiresAt && id.Ok? &&
            var intent := installs.intents[state];
            h.installs == Installs(installs.intents - {state},
                                   installs.mappings[id.value := Mapping(id.value, intent.organizationId, intent.organizationLabel,
                                     intent.endpoint, intent.authToken, intent.webhookSecret, intent.defaultEnvironment, true)])
    ensures h.reply.status !in {StatusOK, StatusGone} ==> h.installs == installs
  {
    var state := TrimSpace(stateParam);
    if state == "" then Handled(Reply(StatusBadRequest, MissingParameters), installs)
    else
      match CallbackInstallationId(installationIdParam, installationIdAlt)
      case Err(e) => Handled(Reply(StatusBadRequest, e.Message()), installs)
      case Ok(id) =>
        if readFails then Handled(Reply(StatusInternalServerError, "failed to resolve setup state"), installs)
        else if state !in installs.intents then Handled(Reply(StatusNotFound, "unknown setup state"), installs)
        else
          var intent := installs.intents[state];
          if now > intent.expiresAt then
            Handled(Reply(StatusGone, "setup state expired"), installs.(intents := installs.intents - {state}))
          else if upsertFails then
            Handled(Reply(StatusInternalServerError, "failed to save installation mapping"), installs)
          else
            var mapping := Mapping(id, intent.organizationId, intent.organizationLabel, intent.endpoint,
                                   intent.authToken, intent.webhookSecret, intent.defaultEnvironment, true);
            Handled(Reply(StatusOK, MappedPage), Installs(installs.intents - {state}, installs.mappings[id := mapping]))
  }

  /** A setup state is used at most once: after a successful or an expired callback it is gone. */
  lemma CallbackConsumesState(installs: Installs, stateParam: String, idParam: String, idAlt: String,
                              readFails: bool, upsertFails: bool, now: int)
    requires Callback(installs, stateParam, idParam, idAlt, readFails, upsertFails, now).reply.status in {StatusOK, StatusGone}
    ensures var h := Callback(installs, stateParam, idParam, idAlt, readFails, upsertFails, now);
            TrimSpace(stateParam) !in h.installs.intents &&
            Callback(h.installs, stateParam, idParam, idAlt, false, false, now).reply.status == StatusNotFound
  {
  }

  /** A callback for a live intent, with a valid id and no store failure, maps the installation. */
  lemma CallbackMaps(installs: Installs, state: String, idParam: String, idAlt: String, now: int)
    requires state != "" && TrimmedBy(state, Spaces) && state in installs.intents
    requires now <= installs.intents[state].expiresAt && CallbackInstallationId(idParam, idAlt).Ok?
    ensures var h := Callback(installs, state, idParam, idAlt, false, false, now);
            var id := CallbackInstallationId(idParam, idAlt).value;
            var intent := installs.intents[state];
            h.reply.status == StatusOK && id in h.installs.mappings &&
            h.installs.mappings[id] == Mapping(id, intent.organizationId, intent.organizationLabel, intent.endpoint,
                                               intent.authToken, intent.webhookSecret, intent.defaultEnvironment, true)
  {
  }

  /** An intent made by the setup start and completed within fifteen minutes maps the installation. */
  lemma SetupThenCallbackMaps(installs: Installs, installUrl: String, defaultEnv: String, payload: SetupPayload,
                              state: String, now: int, later: int, id: int,
                              queryEscape: String -> String, appendState: (String, String) -> Result<String, String>)
    requires CreateSetupIntent(installs, installUrl, defaultEnv, payload, Ok(state), now, false, queryEscape, appendState).result.Ok?
    requires state != "" && TrimmedBy(state, Spaces)
    requires now <= later <= now + SetupIntentLifetime && 0 < id <= Int64Max
    ensures var created := CreateSetupIntent(installs, installUrl, defaultEnv, payload, Ok(state), now, false, queryEscape, appendState).installs;
            var h := Callback(created, state, IntToString(id), "", false, false, later);
            h.reply.status == StatusOK && id in h.installs.mappings && h.installs.mappings[id].enabled &&
            h.installs.mappings[id].authToken == TrimSpace(payload.authToken) &&
            h.installs.mappings[id].endpoint == TrimSpace(payload.endpoint)
  {
    var created := CreateSetupIntent(installs, installUrl, defaultEnv, payload, Ok(state), now, false, queryEscape, appendState).installs;
    var intent := IntentOf(payload, defaultEnv, state, now);
    assert created.intents[state] == intent;
    CallbackInstallationIdRoundTrip(id);
    CallbackMaps(created, state, IntToString(id), "", later);
  }

  // ---------------------------------------------------------------------------
  // The webhook

  datatype Credentials = Credentials(endpoint: String, token: String, secret: String)

  /** All three credentials are set, so the converted events can be published. */
  predicate Complete(c: Credentials)
  {
    !IsBlank(c.endpoint) && !IsBlank(c.token) && !IsBlank(c.secret)
  }

  /**
   * The credentials and default environment a delivery is published with: those of the enabled
   * mapping of its installation (its environment only when not blank), else the defaults; a
   * store failure other than a missing row is an error.
   */
  function ResolvePublishing(installs: Installs, lookupFails: bool, installation: Option<int>, d: Defaults):
    (r: Result<(Credentials, String), String>)
    ensures r.Err? <==> installation.Some? && lookupFails
    ensures r.Ok? && installation.Some? && installation.value in installs.mappings &&
            installs.mappings[installation.value].enabled ==>
            var m := installs.mappings[installation.value];
            r.value.0 == Credentials(m.endpoint, m.authToken, m.webhookSecret) &&
            r.value.1 == ValueOrDefault(m.defaultEnvironment, d.environment)
    ensures r.Ok? && (installation.None? || installation.value !in installs.mappings ||
                      !installs.mappings[installation.value].enabled) ==>
            r.value == (Credentials(d.endpoint, d.token, d.secret), d.environment)
  {
    var defaults := (Credentials(d.endpoint, d.token, d.secret), d.environment);
    match installation
    case None => Ok(defaults)
    case Some(id) =>
      if lookupFails then Err("mapping resolution failed")
      else if id in installs.mappings && installs.mappings[id].enabled then
        var m := installs.mappings[id];
        Ok((Credentials(m.endpoint, m.authToken, m.webhookSecret), ValueOrDefault(m.defaultEnvironment, d.environment)))
      else Ok(defaults)
  }

  /** Where the webhook stands before publishing: answered already, or events to publish. */
  datatype WebhookStep<E> = Answer(reply: Reply) | Publish(client: Credentials, events: seq<E>)

  const Ignored: String := "ignored"

  /**
   * The webhook up to publishing: POST only (405), a readable body (400), a valid signature
   * (401), the credentials resolved (500); incomplete credentials are 202 "ignored", a payload
   * that does not convert is 400, and zero events are 202 "ignored". `installationOf` reads the
   * installation id out of the body; `convert` converts it under a default environment.
   */
  function WebhookDecision<E>(isPost: bool, read: Result<String, String>, signatureHeader: String, secret: String,
                              hmacHex: (String, String) -> String, installationOf: String -> Option<int>,
                              installs: Installs, lookupFails: bool, d: Defaults,
                              convert: String -> Result<seq<E>, String>): (r: WebhookStep<E>)
    ensures !isPost ==> r == Answer(Reply(StatusMethodNotAllowed, "method not allowed"))
    ensures isPost && read.Ok? && !ValidGitHubSignature(read.value, secret, signatureHeader, hmacHex) ==>
            r == Answer(Reply(StatusUnauthorized, "invalid signature"))
    ensures r.Publish? ==>
            isPost && read.Ok? && ValidGitHubSignature(read.value, secret, signatureHeader, hmacHex) &&
            var resolved := ResolvePublishing(installs, lookupFails, installationOf(read.value), d);
            resolved.Ok? && r.client == resolved.value.0 && Complete(r.client) &&
            convert(resolved.value.1) == Ok(r.events) && |r.events| > 0
    ensures isPost && read.Ok? && ValidGitHubSignature(read.value, secret, signatureHeader, hmacHex) ==>
            var resolved := ResolvePublishing(installs, lookupFails, installationOf(read.value), d);
            resolved.Ok? && !Complete(resolved.value.0) ==> r == Answer(Reply(StatusAccepted, Ignored))
    ensures r.Answer? && r.reply.status == StatusAccepted ==> r.reply.message == Ignored
  {
    if !isPost then Answer(Reply(StatusMethodNotAllowed, "method not allowed"))
    else
      match read
      case Err(_) => Answer(Reply(StatusBadRequest, "invalid payload"))
      case Ok(body) =>
        if !ValidGitHubSignature(body, secret, signatureHeader, hmacHex) then Answer(Reply(StatusUnauthorized, "invalid signature"))
        else
          match ResolvePublishing(installs, lookupFails, installationOf(body), d)
          case Err(message) => Answer(Reply(StatusInternalServerError, message))
          case Ok((client, environment)) =>
            if !Complete(client) then Answer(Reply(StatusAccepted, Ignored))
            else
              match convert(environment)
              case Err(_) => Answer(Reply(StatusBadRequest, "invalid github payload"))
              case Ok(events) =>
                if |events| == 0 then Answer(Reply(StatusAccepted, Ignored))
                else Publish(client, events)
  }

  /**
   * The publishing loop: the events are published in order and the first failure is answered
   * 502, so later events are not sent; `sent` counts the publish calls made.
   */
  method PublishAll<E>(client: Credentials, events: seq<E>, publish: (Credentials, E) -> bool)
    returns (reply: Reply, sent: nat)
    ensures sent <= |events|
    ensures reply.status == StatusAccepted <==> forall i :: 0 <= i < |events| ==> publish(client, events[i])
    ensures reply.status == StatusAccepted ==> sent == |events| && reply.message == "published=" + NatToString(|events|)
    ensures reply.status != StatusAccepted ==>
            reply == Reply(StatusBadGateway, "publish failed") && 0 < sent && !publish(client, events[sent - 1]) &&
            forall i :: 0 <= i < sent - 1 ==> publish(client, events[i])
  {
    var published := 0;
    while published < |events|
      invariant 0 <= published <= |events|
      invariant forall i :: 0 <= i < published ==> publish(client, events[i])
    {
      if !publish(client, events[published]) {
        return Reply(StatusBadGateway, "publish failed"), published + 1;
      }
      published := published + 1;
    }
    return Reply(StatusAccepted, "published=" + NatToString(published)), published;
  }

  /** The webhook: the decision, then the publishing loop when there are events to publish. */
  method HandleWebhook<E>(isPost: bool, read: Result<String, String>, signatureHeader: String, secret: String,
                          hmacHex: (String, String) -> String, installationOf: String -> Option<int>,
                          installs: Installs, lookupFails: bool, d: Defaults,
                          convert: String -> Result<seq<E>, String>, publish: (Credentials, E) -> bool)
    returns (reply: Reply, sent: nat)
    ensures var step := WebhookDecision(isPost, read, signatureHeader, secret, hmacHex, installationOf, installs, lookupFails, d, convert);
            step.Answer? ==> reply == step.reply && sent == 0
    ensures sent > 0 ==>
            var step := WebhookDecision(isPost, read, signatureHeader, secret, hmacHex, installationOf, installs, lookupFails, d, convert);
            step.Publish? && Complete(step.client) && sent <= |step.events| &&
            isPost && read.Ok? && ValidGitHubSignature(read.value, secret, signatureHeader, hmacHex)
    ensures reply.status == StatusAccepted && reply.message != Ignored ==>
            var step := WebhookDecision(isPost, read, signatureHeader, secret, hmacHex, installationOf, installs, lookupFails, d, convert);
            step.Publish? && sent == |step.events| && sent > 0 &&
            forall i :: 0 <= i < |step.events| ==> publish(step.client, step.events[i])
  {
    var step := WebhookDecision(isPost, read, signatureHeader, secret, hmacHex, installationOf, installs, lookupFails, d, convert);
    if step.Answer? {
      return step.reply, 0;
    }
    reply, sent := PublishAll(step.client, step.events, publish);
  }
}
