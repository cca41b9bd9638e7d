/**
 * Webhook authentication: the three bearer-token parsers (section 2.1 of RFC 6750 names the
 * scheme "Bearer") and the HMAC-SHA256 signature check (section 2 of RFC 2104).
 *
 * - `BearerToken`: both ingestion services (apps/ddash/internal/app/services/ingestion.go and
 *   internal/app/services/ingestion.go), the scheme matched case-sensitively, an empty token refused;
 * - `LenientBearerToken`: the legacy custom webhook (internal/webhooks/custom/handler.go), the
 *   scheme matched case-sensitively, an empty token returned;
 * - `ValidBearerToken`: the GitHub-app ingest endpoint
 *   (apps/ddash/internal/webhooks/custom/handler_github_app.go), the scheme matched
 *   case-insensitively and the token compared with the expected one.
 *
 * The keyed hash is the parameter `hmacHex(secret, body)`, the lower-case hex of HMAC-SHA256;
 * request bodies are character sequences.
 */
module WebhookAuth {
  import opened Wrappers
  import opened GoStrings

  const BearerPrefix: String := "Bearer "

  /** bearerToken of both ingestion services. */
  function BearerToken(value: String): (r: Result<String, String>)
    ensures r.Ok? ==> r.value != "" && TrimmedBy(r.value, Spaces)
    ensures r.Ok? ==> HasPrefix(TrimSpace(value), BearerPrefix)
  {
    var trimmed := TrimSpace(value);
    if !HasPrefix(trimmed, BearerPrefix) then Err("missing bearer prefix")
    else
      var token := TrimSpace(TrimPrefix(trimmed, BearerPrefix));
      if token == "" then Err("empty token") else Ok(token)
  }

  /** bearerToken of the legacy custom webhook: the remainder, trimmed, possibly empty. */
  function LenientBearerToken(value: String): (r: Result<String, String>)
    ensures r.Ok? ==> TrimmedBy(r.value, Spaces)
    ensures r.Ok? <==> HasPrefix(TrimSpace(value), BearerPrefix)
  {
    var trimmed := TrimSpace(value);
    if !HasPrefix(trimmed, BearerPrefix) then Err("unauthorized")
    else Ok(TrimSpace(TrimPrefix(trimmed, BearerPrefix)))
  }

  /** The strict parser is the lenient one that also refuses an empty token. */
  lemma StrictIsLenientNonEmpty(value: String)
    ensures BearerToken(value).Ok? <==> LenientBearerToken(value).Ok? && LenientBearerToken(value).value != ""
    ensures BearerToken(value).Ok? ==> BearerToken(value).value == LenientBearerToken(value).value
  {
  }

  /**
   * The lenient parser never yields an empty token: the trimmed header ends in a non-space, so
   * it is longer than "Bearer " and so is what follows the prefix. Both parsers therefore
   * accept the same headers, and the empty-token branches are never taken.
   */
  lemma LenientTokenNotEmpty(value: String)
    ensures LenientBearerToken(value).Ok? ==> LenientBearerToken(value).value != ""
    ensures BearerToken(value).Ok? <==> LenientBearerToken(value).Ok?
  {
    var t := TrimSpace(value);
    if HasPrefix(t, BearerPrefix) {
      RestNotBlank(t);
    }
    StrictIsLenientNonEmpty(value);
  }

  /** In a trimmed header, something that is not a space follows "Bearer ". */
  lemma RestNotBlank(t: String)
    requires TrimmedBy(t, Spaces) && HasPrefix(t, BearerPrefix)
    ensures TrimSpace(TrimPrefix(t, BearerPrefix)) != ""
  {
    assert t[|BearerPrefix| - 1] == ' ';
    assert |t| > |BearerPrefix|;
    var rest := TrimPrefix(t, BearerPrefix);
    assert rest[|rest| - 1] == t[|t| - 1];
    assert !IsSpace(rest[|rest| - 1]);
  }

  /** A header written "Bearer <token>" for a trimmed, non-empty token parses back to that token. */
  lemma BearerTokenRoundTrip(token: String)
    requires token != "" && TrimmedBy(token, Spaces)
    ensures BearerToken(BearerPrefix + token) == Ok(token)
    ensures LenientBearerToken(BearerPrefix + token) == Ok(token)
  {
    var h := BearerPrefix + token;
    TrimSpaceConcat(BearerPrefix, token);
    PrefixOfConcat(BearerPrefix, token);
    assert TrimPrefix(h, BearerPrefix) == token;
  }

  /** validBearerToken of the GitHub-app endpoint. */
  function ValidBearerToken(raw: String, expected: String): (r: bool)
    ensures r ==> !IsBlank(raw) && !IsBlank(expected)
    ensures r <==> var t := TrimSpace(raw);
                   !IsBlank(expected) && HasPrefix(ToLower(t), "bearer ")
                   && TrimSpace(t[|BearerPrefix|..]) == TrimSpace(expected)
  {
    var rawT := TrimSpace(raw);
    var expectedT := TrimSpace(expected);
    if rawT == "" || expectedT == "" then false
    else if !HasPrefix(ToLower(rawT), "bearer ") then false
    else
      var token := TrimSpace(rawT[|BearerPrefix|..]);
      token != "" && token == expectedT
  }

  /**
   * Any spelling of the scheme whose letters lower-case to "bearer " is accepted, followed by
   * the expected token.
   */
  lemma AnySchemeCaseAccepted(scheme: String, token: String)
    requires |scheme| == |BearerPrefix| && ToLower(scheme) == "bearer "
    requires token != "" && TrimmedBy(token, Spaces)
    ensures ValidBearerToken(scheme + token, token)
  {
    var h := scheme + token;
    assert scheme[0] != ' ' by {
      assert LowerChar(scheme[0]) == 'b';
    }
    TrimSpaceConcat(scheme, token);
    PrefixOfConcat(scheme, token);
    LowerPrefix(h, scheme);
    assert h[|BearerPrefix|..] == token;
  }

  lemma SchemeLower()
    ensures ToLower(BearerPrefix) == "bearer "
  {
  }

  lemma LowerSchemeIsLower()
    ensures IsLower("bearer ")
  {
  }

  /** The lower-cased prefix of a string is the prefix of its lower-cased form. */
  lemma LowerPrefix(s: String, p: String)
    requires HasPrefix(s, p)
    ensures HasPrefix(ToLower(s), ToLower(p))
  {
    assert ToLower(s)[..|p|] == ToLower(p);
  }

  /** A header the strict parser accepts passes the GitHub-app check for the same token. */
  lemma StrictImpliesValid(raw: String, expected: String)
    requires BearerToken(raw).Ok? && BearerToken(raw).value == TrimSpace(expected)
    ensures ValidBearerToken(raw, expected)
  {
    var rawT := TrimSpace(raw);
    LowerPrefix(rawT, BearerPrefix);
    SchemeLower();
    assert TrimPrefix(rawT, BearerPrefix) == rawT[|BearerPrefix|..];
  }

  lemma LowerSchemeNotStrict(h: String)
    requires HasPrefix(h, "bearer ")
    ensures !HasPrefix(h, BearerPrefix)
  {
    assert h[0] == "bearer "[0];
  }

  /** The parsers differ on case: "bearer <t>" is refused by the ingestion services and accepted on the GitHub-app endpoint. */
  lemma SchemeCaseDiffers(token: String)
    requires token != "" && TrimmedBy(token, Spaces)
    ensures BearerToken("bearer " + token).Err?
    ensures LenientBearerToken("bearer " + token).Err?
    ensures ValidBearerToken("bearer " + token, token)
  {
    var h := "bearer " + token;
    TrimSpaceConcat("bearer ", token);
    PrefixOfConcat("bearer ", token);
    LowerSchemeNotStrict(h);
    LowerSchemeIsLower();
    ToLowerIsLower("bearer ");
    LowerPrefix(h, "bearer ");
    assert h[|BearerPrefix|..] == token;
  }

  /** validSignature: the trimmed header, lower-cased, must be non-empty and equal the hex HMAC of the body. */
  function ValidSignature(body: String, secret: String, signature: String, hmacHex: (String, String) -> String): (r: bool)
    ensures r <==> Fold(signature) != "" && hmacHex(secret, body) == Fold(signature)
  {
    var sig := ToLower(TrimSpace(signature));
    if sig == "" then false else hmacHex(secret, body) == sig
  }

  /** The signature a sender computes with the same secret over the same body is accepted. */
  lemma SignatureAccepted(body: String, secret: String, hmacHex: (String, String) -> String)
    requires var h := hmacHex(secret, body); h != "" && IsLower(h) && TrimmedBy(h, Spaces)
    ensures ValidSignature(body, secret, hmacHex(secret, body), hmacHex)
  {
    var h := hmacHex(secret, body);
    ToLowerIsLower(h);
  }

  /** Only the case of the header's letters does not matter. */
  lemma SignatureCaseInsensitive(body: String, secret: String, signature: String, hmacHex: (String, String) -> String)
    ensures ValidSignature(body, secret, ToLower(signature), hmacHex) == ValidSignature(body, secret, signature, hmacHex)
  {
    TrimSpaceToLower(signature);
    ToLowerIdempotent(TrimSpace(signature));
  }
}
