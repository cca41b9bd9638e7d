/**
 * The session helpers of the dashboard's authentication routes
 * (apps/ddash/internal/server/routes/auth_session.go): reading the signed-in user's id and the
 * active organization from the "ddash-auth" session, writing the active organization and the
 * user record back, and the type-switch decoders that turn a stored session value into an id or
 * a user.
 *
 * What the cookie store yields for a request is a parameter: the session's `Values` map, or the
 * error `gothic.Store.Get` returned. Cookies cleared in the response are reported by name.
 */
module AuthSession {
  import opened Wrappers
  import opened GoStrings

  const AuthSessionName: String := "ddash-auth"
  const GothSessionName: String := "_gothic_session"
  const UserIdKey: String := "userID"
  const ActiveOrgIdKey: String := "activeOrgID"
  const UserKey: String := "user"
  const SaveErrorPrefix: String := "save auth session: "

  /** The user the OAuth callback resolved, as kept in the request context and the session. */
  datatype AuthUser = AuthUser(id: int, name: String, nickName: String, email: String, avatarUrl: String)

  /** The struct older sessions stored under "user": the same fields under another type name. */
  datatype LegacyAuthUser = LegacyAuthUser(id: int, name: String, nickName: String, email: String, avatarUrl: String)

  /**
   * A Go `any` as far as these helpers look at it: nil, the three integer types and float64,
   * a string, the two user structs, a decoded `map[string]any`, or anything else. A float64 is
   * represented by the value its `int64(...)` conversion yields.
   */
  datatype Value =
    | Nil
    | Int64(i: int)
    | Int(i: int)
    | Int32(i: int)
    | Float64(truncated: int)
    | Str(s: String)
    | User(user: AuthUser)
    | LegacyUser(legacy: LegacyAuthUser)
    | Fields(fields: map<String, Value>)
    | Other

  /** The error `gothic.Store.Get` returned. */
  datatype StoreError = StoreError(message: String)

  /** What a read helper answers: the value (Go's `ok` is `Some`) and the cookies it cleared. */
  datatype SessionRead<T> = SessionRead(value: Option<T>, cleared: seq<String>)

  /** What SetActiveOrganizationID answers: the error it returned and the cookies it cleared. */
  datatype SetOutcome = SetOutcome(err: Option<String>, cleared: seq<String>)

  // ---------------------------------------------------------------------------
  // Decoders

  /** Reading a Go map: a missing key yields nil. */
  function Field(fields: map<String, Value>, key: String): (r: Value)
    ensures key !in fields ==> r == Nil
    ensures key in fields ==> r == fields[key]
  {
    if key in fields then fields[key] else Nil
  }

  /** toInt64: the four numeric types convert; everything else, nil included, is rejected. */
  function ToInt64(v: Value): (r: Option<int>)
    ensures r.Some? <==> v.Int64? || v.Int? || v.Int32? || v.Float64?
    ensures (v.Int64? || v.Int? || v.Int32?) ==> r == Some(v.i)
    ensures v.Float64? ==> r == Some(v.truncated)
  {
    if v.Int64? || v.Int? || v.Int32? then Some(v.i)
    else if v.Float64? then Some(v.truncated)
    else None
  }

  /** toString: a string is trimmed; any other value reads as "". */
  function ToString(v: Value): (r: String)
    ensures v.Str? ==> r == TrimSpace(v.s)
    ensures !v.Str? ==> r == []
    ensures TrimmedBy(r, Spaces)
  {
    if v.Str? then TrimSpace(v.s) else []
  }

  /** The conversion `AuthUser(legacy)`: field for field. */
  function FromLegacy(legacy: LegacyAuthUser): (r: AuthUser)
    ensures r.id == legacy.id && r.name == legacy.name && r.nickName == legacy.nickName
    ensures r.email == legacy.email && r.avatarUrl == legacy.avatarUrl
  {
    AuthUser(legacy.id, legacy.name, legacy.nickName, legacy.email, legacy.avatarUrl)
  }

  /** The user a decoded map describes, when its "id" converts to a positive integer. */
  function FromFields(fields: map<String, Value>): (r: Option<AuthUser>)
    ensures r.Some? <==> ToInt64(Field(fields, "id")).Some? && ToInt64(Field(fields, "id")).value > 0
    ensures r.Some? ==> r.value.id == ToInt64(Field(fields, "id")).value
    ensures r.Some? ==> r.value.name == ToString(Field(fields, "name"))
    ensures r.Some? ==> r.value.nickName == ToString(Field(fields, "nickname"))
    ensures r.Some? ==> r.value.email == ToString(Field(fields, "email"))
    ensures r.Some? ==> r.value.avatarUrl == ToString(Field(fields, "avatar_url"))
  {
    var id := ToInt64(Field(fields, "id"));
    if id.None? || id.value <= 0 then None
    else
      Some(AuthUser(id.value,
                    ToString(Field(fields, "name")),
                    ToString(Field(fields, "nickname")),
                    ToString(Field(fields, "email")),
                    ToString(Field(fields, "avatar_url"))))
  }

  /**
   * authUserFromSessionValue: a stored AuthUser as is, a legacy struct converted, a decoded map
   * when its id is positive; nothing else.
   */
  function FromSessionValue(v: Value): (r: Option<AuthUser>)
    ensures v.User? ==> r == Some(v.user)
    ensures v.LegacyUser? ==> r == Some(FromLegacy(v.legacy))
    ensures v.Fields? ==> r == FromFields(v.fields)
    ensures r.Some? <==> v.User? || v.LegacyUser? || (v.Fields? && FromFields(v.fields).Some?)
    ensures r.Some? && v.Fields? ==> r.value.id > 0
  {
    if v.User? then Some(v.user)
    else if v.LegacyUser? then Some(FromLegacy(v.legacy))
    else if v.Fields? then FromFields(v.fields)
    else None
  }

  /** The map form an AuthUser takes once a session is decoded generically. */
  function FieldsOf(u: AuthUser): map<String, Value>
  {
    map["id" := Int64(u.id), "name" := Str(u.name), "nickname" := Str(u.nickName),
        "email" := Str(u.email), "avatar_url" := Str(u.avatarUrl)]
  }

  /**
   * A user with a positive id and trimmed fields survives the map form unchanged; a non-positive
   * id never does.
   */
  lemma FieldsRoundTrip(u: AuthUser)
    ensures u.id > 0 && TrimmedBy(u.name, Spaces) && TrimmedBy(u.nickName, Spaces) &&
            TrimmedBy(u.email, Spaces) && TrimmedBy(u.avatarUrl, Spaces)
            ==> FromSessionValue(Fields(FieldsOf(u))) == Some(u)
    ensures u.id <= 0 ==> FromSessionValue(Fields(FieldsOf(u))).None?
  {
    var m := FieldsOf(u);
    assert Field(m, "id") == Int64(u.id);
    assert Field(m, "name") == Str(u.name);
    assert Field(m, "nickname") == Str(u.nickName);
    assert Field(m, "email") == Str(u.email);
    assert Field(m, "avatar_url") == Str(u.avatarUrl);
  }

  /** The map form's string fields are always trimmed, whatever the stored strings were. */
  lemma FromFieldsTrimmed(fields: map<String, Value>)
    requires FromFields(fields).Some?
    ensures TrimmedBy(FromFields(fields).value.name, Spaces)
    ensures TrimmedBy(FromFields(fields).value.nickName, Spaces)
    ensures TrimmedBy(FromFields(fields).value.email, Spaces)
    ensures TrimmedBy(FromFields(fields).value.avatarUrl, Spaces)
  {
    var u := FromFields(fields).value;
    assert u.name == ToString(Field(fields, "name"));
    assert u.nickName == ToString(Field(fields, "nickname"));
    assert u.email == ToString(Field(fields, "email"));
    assert u.avatarUrl == ToString(Field(fields, "avatar_url"));
  }

  // ---------------------------------------------------------------------------
  // Reading the session

  /**
   * isInvalidSecureCookieError (auth_cookie.go): a securecookie error about an invalid value or
   * an unregistered type, matched case-insensitively on the message.
   */
  predicate IsInvalidSecureCookieError(e: StoreError)
  {
    var msg := ToLower(e.message);
    Contains(msg, "securecookie") && (Contains(msg, "not valid") || Contains(msg, "name not registered for interface"))
  }

  /** The cookies a failed store read clears: both session cookies when the cookie is invalid. */
  function ClearedBy(e: StoreError): (r: seq<String>)
    ensures IsInvalidSecureCookieError(e) ==> r == [AuthSessionName, GothSessionName]
    ensures !IsInvalidSecureCookieError(e) ==> r == []
  {
    if IsInvalidSecureCookieError(e) then [AuthSessionName, GothSessionName] else []
  }

  /** GetAuthUser: the context's "authUser" value when it holds an AuthUser. */
  function GetAuthUser(ctx: Value): (r: Option<AuthUser>)
    ensures r.Some? <==> ctx.User?
    ensures r.Some? ==> r.value == ctx.user
  {
    if ctx.User? then Some(ctx.user) else None
  }

  /** The shared tail of the id readers: the session's value under `key`, converted by toInt64. */
  function ReadId(loaded: Result<map<String, Value>, StoreError>, key: String): (r: SessionRead<int>)
    ensures loaded.Err? ==> r == SessionRead(None, ClearedBy(loaded.error))
    ensures loaded.Ok? ==> r == SessionRead(ToInt64(Field(loaded.value, key)), [])
  {
    if loaded.Err? then SessionRead(None, ClearedBy(loaded.error))
    else if key !in loaded.value || loaded.value[key] == Nil then SessionRead(None, [])
    else SessionRead(ToInt64(loaded.value[key]), [])
  }

  /**
   * GetAuthUserID: a context user with a positive id wins and the session is not read;
   * otherwise the session's "userID" converted by toInt64, with a failed read answering no id.
   */
  function GetAuthUserID(ctx: Value, loaded: Result<map<String, Value>, StoreError>): (r: SessionRead<int>)
    ensures ctx.User? && ctx.user.id > 0 ==> r == SessionRead(Some(ctx.user.id), [])
    ensures !(ctx.User? && ctx.user.id > 0) && loaded.Err? ==> r == SessionRead(None, ClearedBy(loaded.error))
    ensures !(ctx.User? && ctx.user.id > 0) && loaded.Ok? ==>
              r == SessionRead(ToInt64(Field(loaded.value, UserIdKey)), [])
  {
    var user := GetAuthUser(ctx);
    if user.Some? && user.value.id > 0 then SessionRead(Some(user.value.id), [])
    else ReadId(loaded, UserIdKey)
  }

  /** GetActiveOrganizationID: the session's "activeOrgID" converted by toInt64. */
  function GetActiveOrganizationID(loaded: Result<map<String, Value>, StoreError>): (r: SessionRead<int>)
    ensures loaded.Err? ==> r == SessionRead(None, ClearedBy(loaded.error))
    ensures loaded.Ok? ==> r == SessionRead(ToInt64(Field(loaded.value, ActiveOrgIdKey)), [])
  {
    ReadId(loaded, ActiveOrgIdKey)
  }

  /** authUserFromSession: the session's "user" value decoded by authUserFromSessionValue. */
  function AuthUserFromSession(loaded: Result<map<String, Value>, StoreError>): (r: SessionRead<AuthUser>)
    ensures loaded.Err? ==> r == SessionRead(None, ClearedBy(loaded.error))
    ensures loaded.Ok? ==> r == SessionRead(FromSessionValue(Field(loaded.value, UserKey)), [])
  {
    if loaded.Err? then SessionRead(None, ClearedBy(loaded.error))
    else if UserKey !in loaded.value then SessionRead(None, [])
    else SessionRead(FromSessionValue(loaded.value[UserKey]), [])
  }

  /** Once a context user with a positive id is present, the session cannot change the answer. */
  lemma ContextUserPrecedence(u: AuthUser, a: Result<map<String, Value>, StoreError>, b: Result<map<String, Value>, StoreError>)
    requires u.id > 0
    ensures GetAuthUserID(User(u), a) == GetAuthUserID(User(u), b)
    ensures GetAuthUserID(User(u), a).value == Some(u.id)
  {
  }

  /** A context user without a positive id, or a context value of another type, defers to the session. */
  lemma SessionFallback(ctx: Value, loaded: Result<map<String, Value>, StoreError>)
    requires !ctx.User? || ctx.user.id <= 0
    ensures GetAuthUserID(ctx, loaded) == ReadId(loaded, UserIdKey)
  {
  }

  // ---------------------------------------------------------------------------
  // Writing the session

  /** A session as `gothic.Store.Get` hands it out: its `Values` map, changed in place. */
  class Session {
    var values: map<String, Value>

    constructor (values: map<String, Value>)
      ensures this.values == values
    {
      this.values := values;
    }

    /** setSessionAuthUser: the user record replaces "user"; nothing else changes. */
    method SetAuthUser(user: AuthUser)
      modifies this
      ensures values == old(values)[UserKey := User(user)]
      ensures AuthUserFromSession(Ok(values)) == SessionRead(Some(user), [])
    {
      values := values[UserKey := User(user)];
    }
  }

  /**
   * SetActiveOrganizationID: an invalid cookie is cleared and the call succeeds without writing;
   * any other store error is returned as is; otherwise "activeOrgID" is set in place and the
   * session saved, a save failure being returned wrapped. `saveError` is what `session.Save`
   * returns.
   */
  method SetActiveOrganizationID(loaded: Result<Session, StoreError>, organizationId: int, saveError: Option<String>)
    returns (r: SetOutcome)
    modifies if loaded.Ok? then {loaded.value} else {}
    ensures loaded.Err? && IsInvalidSecureCookieError(loaded.error) ==>
              r == SetOutcome(None, [AuthSessionName, GothSessionName])
    ensures loaded.Err? && !IsInvalidSecureCookieError(loaded.error) ==>
              r == SetOutcome(Some(loaded.error.message), [])
    ensures loaded.Ok? ==> loaded.value.values == old(loaded.value.values)[ActiveOrgIdKey := Int64(organizationId)]
    ensures loaded.Ok? && saveError.None? ==> r == SetOutcome(None, [])
    ensures loaded.Ok? && saveError.Some? ==> r == SetOutcome(Some(SaveErrorPrefix + saveError.value), [])
    ensures loaded.Ok? ==> GetActiveOrganizationID(Ok(loaded.value.values)) == SessionRead(Some(organizationId), [])
  {
    if loaded.Err? {
      if IsInvalidSecureCookieError(loaded.error) {
        return SetOutcome(None, [AuthSessionName, GothSessionName]);
      }
      return SetOutcome(Some(loaded.error.message), []);
    }
    var session := loaded.value;
    session.values := session.values[ActiveOrgIdKey := Int64(organizationId)];
    if saveError.Some? {
      return SetOutcome(Some(SaveErrorPrefix + saveError.value), []);
    }
    return SetOutcome(None, []);
  }

  /** Writing the active organization reads back as written and leaves the signed-in user alone. */
  lemma ActiveOrganizationRoundTrip(ctx: Value, values: map<String, Value>, organizationId: int)
    ensures GetActiveOrganizationID(Ok(values[ActiveOrgIdKey := Int64(organizationId)])) == SessionRead(Some(organizationId), [])
    ensures GetAuthUserID(ctx, Ok(values[ActiveOrgIdKey := Int64(organizationId)])) == GetAuthUserID(ctx, Ok(values))
    ensures AuthUserFromSession(Ok(values[ActiveOrgIdKey := Int64(organizationId)])) == AuthUserFromSession(Ok(values))
  {
    var w := values[ActiveOrgIdKey := Int64(organizationId)];
    assert Field(w, UserIdKey) == Field(values, UserIdKey);
    assert Field(w, UserKey) == Field(values, UserKey);
  }
}
