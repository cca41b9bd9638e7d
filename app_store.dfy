/**
 * The sqlite adapter of the application store (apps/ddash/internal/adapters/sqlite/store.go):
 * the guards and normalisation it applies before a statement reaches the database, and the two
 * multi-statement transactions, UpdateOrganizationSettings and ReplaceServiceMetadata.
 *
 * A statement is the value the adapter hands to the generated query layer. The database is its
 * answers: one per statement sent, in order. A transaction sends its statements one at a time
 * and stops at the first that fails; it then commits or rolls back as store.go decides.
 */
module AppStore {
  import opened Wrappers
  import opened GoStrings
  import opened ServiceRead
  import opened SqliteReadStore
  import OrgConfig
  import MetadataWrite

  // ---------------------------------------------------------------------------
  // Column helpers

  /** sql.NullString. */
  datatype NullString = NullString(str: String, valid: bool)

  /** nullString: the trimmed text, or NULL when that is empty. */
  function NullStringOf(value: String): (r: NullString)
    ensures r.valid <==> !IsBlank(value)
    ensures r.valid ==> r.str == TrimSpace(value) && r.str != [] && TrimmedBy(r.str, Spaces)
    ensures !r.valid ==> r == NullString([], false)
  {
    var trimmed := TrimSpace(value);
    if trimmed == [] then NullString([], false) else NullString(trimmed, true)
  }

  /** Storing a stored value again stores the same thing. */
  lemma NullStringStable(value: String)
    requires NullStringOf(value).valid
    ensures NullStringOf(NullStringOf(value).str) == NullStringOf(value)
  {
  }

  /** sql.NullInt64. */
  datatype NullInt64 = NullInt64(n: int, valid: bool)

  /** nullInt64: the value when it is positive, else NULL. */
  function NullInt64Of(value: int): (r: NullInt64)
    ensures r.valid <==> value > 0
    ensures r.valid ==> r.n == value
    ensures !r.valid ==> r == NullInt64(0, false)
  {
    if value <= 0 then NullInt64(0, false) else NullInt64(value, true)
  }

  /** boolToInt64: a flag as the 0/1 integer column; reading it back (`!= 0`) gives the flag. */
  function BoolToInt64(value: bool): (r: int)
    ensures r == 0 || r == 1
    ensures (r != 0) == value
  {
    if value then 1 else 0
  }

  // ---------------------------------------------------------------------------
  // Statements

  datatype Statement =
    | OrganizationInsert(name: String, authToken: String, joinCode: NullString, webhookSecret: String, enabled: int)
    | NameUpdate(organizationId: int, name: String)
    | EnabledUpdate(organizationId: int, state: bool)
    | OrganizationDelete(organizationId: int)
    | MappingDelete(installationId: int, organizationId: int)
    | JoinRequestUpsert(organizationId: int, userId: int, requestCode: String)
    | JoinRequestStatusUpdate(status: String, reviewedBy: NullInt64, organizationId: int, userId: int)
    | SecretsUpdate(authToken: String, webhookSecret: String, enabled: int, organizationId: int)
    | FeatureUpsert(organizationId: int, featureKey: String, isEnabled: int)
    | PreferenceUpsert(organizationId: int, preferenceKey: String, preferenceValue: String)
    | RequiredFieldsDelete(organizationId: int)
    | RequiredFieldInsert(organizationId: int, fieldLabel: String, fieldType: String, sortOrder: int, isFilterable: int)
    | PrioritiesDelete(organizationId: int)
    | PriorityInsert(organizationId: int, environment: String, sortOrder: int)
    | MetadataDelete(organizationId: int, serviceName: String)
    | MetadataUpsert(organizationId: int, serviceName: String, fieldLabel: String, value: String)

  // ---------------------------------------------------------------------------
  // Single-statement operations

  datatype CreateOrganizationInput = CreateOrganizationInput(
    name: String, authToken: String, joinCode: String, webhookSecret: String, enabled: bool)

  /**
   * CreateOrganization: the insert always runs; its text columns are trimmed, a blank join code
   * is stored as NULL and the flag as 0/1.
   */
  function CreateOrganization(input: CreateOrganizationInput): (s: Statement)
    ensures s.OrganizationInsert?
    ensures s.name == TrimSpace(input.name) && s.authToken == TrimSpace(input.authToken)
    ensures s.webhookSecret == TrimSpace(input.webhookSecret)
    ensures s.joinCode.valid <==> !IsBlank(input.joinCode)
    ensures s.joinCode.valid ==> s.joinCode.str == TrimSpace(input.joinCode)
    ensures !s.joinCode.valid ==> s.joinCode == NullString([], false)
    ensures (s.enabled == 0 || s.enabled == 1) && (s.enabled != 0) == input.enabled
  {
    OrganizationInsert(TrimSpace(input.name), TrimSpace(input.authToken), NullStringOf(input.joinCode),
                       TrimSpace(input.webhookSecret), BoolToInt64(input.enabled))
  }

  /** Creating from what was stored stores the same row again. */
  lemma CreateOrganizationStable(input: CreateOrganizationInput)
    ensures var s := CreateOrganization(input);
            CreateOrganization(CreateOrganizationInput(s.name, s.authToken, s.joinCode.str, s.webhookSecret, s.enabled != 0)) == s
  {
    var s := CreateOrganization(input);
    TrimSpaceIdempotent(input.name);
    TrimSpaceIdempotent(input.authToken);
    TrimSpaceIdempotent(input.webhookSecret);
    TrimSpaceIdempotent(input.joinCode);
  }

  /** UpdateOrganizationName: nothing is sent for a non-positive id or a blank name. */
  function UpdateOrganizationName(organizationId: int, name: String): (call: Option<Statement>)
    ensures call.None? <==> organizationId <= 0 || IsBlank(name)
    ensures call.Some? ==> call.value.NameUpdate? && call.value.organizationId == organizationId
    ensures call.Some? ==> call.value.name == TrimSpace(name) && call.value.name != []
  {
    var trimmed := TrimSpace(name);
    if organizationId <= 0 || trimmed == [] then None else Some(NameUpdate(organizationId, trimmed))
  }

  /** UpdateOrganizationEnabled: nothing is sent for a non-positive id. */
  function UpdateOrganizationEnabled(organizationId: int, enabled: bool): (call: Option<Statement>)
    ensures call.None? <==> organizationId <= 0
    ensures call.Some? ==> call.value == EnabledUpdate(organizationId, enabled)
  {
    if organizationId <= 0 then None else Some(EnabledUpdate(organizationId, enabled))
  }

  /** DeleteOrganization: nothing is sent for a non-positive id. */
  function DeleteOrganization(organizationId: int): (call: Option<Statement>)
    ensures call.None? <==> organizationId <= 0
    ensures call.Some? ==> call.value == OrganizationDelete(organizationId)
  {
    if organizationId <= 0 then None else Some(OrganizationDelete(organizationId))
  }

  /** UpsertOrganizationJoinRequest: nothing is sent unless both ids are positive; the code is trimmed. */
  function UpsertOrganizationJoinRequest(organizationId: int, userId: int, requestCode: String): (call: Option<Statement>)
    ensures call.None? <==> organizationId <= 0 || userId <= 0
    ensures call.Some? ==> call.value.JoinRequestUpsert? && call.value.organizationId == organizationId
                           && call.value.userId == userId && call.value.requestCode == TrimSpace(requestCode)
  {
    if organizationId <= 0 || userId <= 0 then None
    else Some(JoinRequestUpsert(organizationId, userId, TrimSpace(requestCode)))
  }

  /**
   * SetOrganizationJoinRequestStatus: nothing is sent unless all three ids are positive, so the
   * reviewed-by column written is never NULL.
   */
  function SetOrganizationJoinRequestStatus(organizationId: int, userId: int, status: String, reviewedBy: int): (call: Option<Statement>)
    ensures call.None? <==> organizationId <= 0 || userId <= 0 || reviewedBy <= 0
    ensures call.Some? ==> call.value.JoinRequestStatusUpdate? && call.value.status == TrimSpace(status)
                           && call.value.organizationId == organizationId && call.value.userId == userId
    ensures call.Some? ==> call.value.reviewedBy == NullInt64(reviewedBy, true)
  {
    if organizationId <= 0 || userId <= 0 || reviewedBy <= 0 then None
    else Some(JoinRequestStatusUpdate(TrimSpace(status), NullInt64Of(reviewedBy), organizationId, userId))
  }

  /**
   * DeleteGitHubInstallationMapping: the delete always runs; the database's error is returned,
   * and a delete that removed nothing is reported as sql.ErrNoRows.
   */
  function DeleteGitHubInstallationMapping(installationId: int, organizationId: int, deleted: Result<int, DbError>): (r: Option<RowError>)
    ensures r.None? <==> deleted.Ok? && deleted.value != 0
    ensures r == Some(NoRows) <==> deleted == Ok(0)
    ensures deleted.Err? ==> r == Some(RowFailed(deleted.error.message))
  {
    match deleted
    case Err(e) => Some(RowFailed(e.message))
    case Ok(n) => if n == 0 then Some(NoRows) else None
  }

  // ---------------------------------------------------------------------------
  // Kept rows: a loop that turns each element into at most one statement

  /**
   * The statements a loop over `xs` sends, where `row(x, index)` is the statement for element
   * `x` at `index`, or None when the loop skips it.
   */
  function Kept<T>(xs: seq<T>, row: (T, nat) -> Option<Statement>): (r: seq<Statement>)
    ensures |r| <= |xs|
  {
    if xs == [] then []
    else
      var rest := Kept(xs[..|xs| - 1], row);
      match row(xs[|xs| - 1], |xs| - 1)
      case None => rest
      case Some(s) => rest + [s]
  }

  /** The index of the element each kept statement came from. */
  function KeptIndices<T>(xs: seq<T>, row: (T, nat) -> Option<Statement>): (r: seq<nat>)
  {
    if xs == [] then []
    else
      var rest := KeptIndices(xs[..|xs| - 1], row);
      if row(xs[|xs| - 1], |xs| - 1).None? then rest else rest + [|xs| - 1]
  }

  /** Each kept statement is the row of the element at its recorded index. */
  lemma {:induction false} KeptAt<T>(xs: seq<T>, row: (T, nat) -> Option<Statement>, k: nat)
    requires k < |Kept(xs, row)|
    ensures |KeptIndices(xs, row)| == |Kept(xs, row)|
    ensures KeptIndices(xs, row)[k] < |xs|
    ensures row(xs[KeptIndices(xs, row)[k]], KeptIndices(xs, row)[k]) == Some(Kept(xs, row)[k])
  {
    var front := xs[..|xs| - 1];
    KeptLength(front, row);
    if k < |Kept(front, row)| {
      KeptAt(front, row, k);
      assert front[KeptIndices(front, row)[k]] == xs[KeptIndices(front, row)[k]];
    }
  }

  lemma {:induction false} KeptLength<T>(xs: seq<T>, row: (T, nat) -> Option<Statement>)
    ensures |KeptIndices(xs, row)| == |Kept(xs, row)|
    ensures forall k :: 0 <= k < |KeptIndices(xs, row)| ==> KeptIndices(xs, row)[k] < |xs|
  {
    if xs != [] {
      KeptLength(xs[..|xs| - 1], row);
    }
  }

  /** The kept statements keep the order of their elements. */
  lemma {:induction false} KeptOrdered<T>(xs: seq<T>, row: (T, nat) -> Option<Statement>, k: nat, m: nat)
    requires k < m < |Kept(xs, row)|
    ensures |KeptIndices(xs, row)| == |Kept(xs, row)|
    ensures KeptIndices(xs, row)[k] < KeptIndices(xs, row)[m]
  {
    var front := xs[..|xs| - 1];
    KeptLength(front, row);
    KeptLength(xs, row);
    if m < |Kept(front, row)| {
      KeptOrdered(front, row, k, m);
    }
  }

  /** Every element the loop does not skip has its statement sent. */
  lemma {:induction false} KeptComplete<T>(xs: seq<T>, row: (T, nat) -> Option<Statement>, i: nat) returns (j: nat)
    requires i < |xs| && row(xs[i], i).Some?
    ensures j < |Kept(xs, row)| && Kept(xs, row)[j] == row(xs[i], i).value
  {
    var front := xs[..|xs| - 1];
    if i < |xs| - 1 {
      assert front[i] == xs[i];
      j := KeptComplete(front, row, i);
    } else {
      j := |Kept(front, row)|;
    }
  }

  /** When no element is skipped, statement i is element i's row. */
  lemma {:induction false} KeptAll<T>(xs: seq<T>, row: (T, nat) -> Option<Statement>, i: nat)
    requires forall j :: 0 <= j < |xs| ==> row(xs[j], j).Some?
    requires i < |xs|
    ensures |Kept(xs, row)| == |xs| && Kept(xs, row)[i] == row(xs[i], i).value
  {
    var front := xs[..|xs| - 1];
    assert forall j :: 0 <= j < |front| ==> front[j] == xs[j];
    if i < |xs| - 1 {
      KeptAll(front, row, i);
    } else if front != [] {
      KeptAll(front, row, 0);
    }
  }

  /** The loop itself, sending one statement per element it does not skip. */
  method KeepRows<T>(xs: seq<T>, row: (T, nat) -> Option<Statement>) returns (rows: seq<Statement>)
    ensures rows == Kept(xs, row)
  {
    rows := [];
    for index := 0 to |xs|
      invariant rows == Kept(xs[..index], row)
    {
      assert xs[..index + 1][..index] == xs[..index];
      var s := row(xs[index], index);
      if s.Some? {
        rows := rows + [s.value];
      }
    }
    assert xs[..|xs|] == xs;
  }

  // ---------------------------------------------------------------------------
  // Transactions

  /** The answer to the statement sent at position i; statements past the listed answers succeed. */
  function AnswerAt(answers: seq<Option<DbError>>, i: nat): Option<DbError>
  {
    if i < |answers| then answers[i] else None
  }

  /** The position of the first of statements from..n-1 that fails, or n when none does. */
  function FirstFailure(answers: seq<Option<DbError>>, n: nat, from: nat): (k: nat)
    requires from <= n
    ensures from <= k <= n
    ensures forall j :: from <= j < k ==> AnswerAt(answers, j).None?
    ensures k < n ==> AnswerAt(answers, k).Some?
    decreases n - from
  {
    if from == n then n
    else if AnswerAt(answers, from).Some? then from
    else FirstFailure(answers, n, from + 1)
  }

  /** The first failure is the one position that fails after only successes. */
  lemma {:induction false} FirstFailureAt(answers: seq<Option<DbError>>, n: nat, from: nat, j: nat)
    requires from <= j <= n
    requires forall i :: from <= i < j ==> AnswerAt(answers, i).None?
    requires j < n ==> AnswerAt(answers, j).Some?
    ensures FirstFailure(answers, n, from) == j
    decreases j - from
  {
    if from < j {
      FirstFailureAt(answers, n, from + 1, j);
    }
  }

  /**
   * What a transaction did: whether it began, the statements sent, the statements whose effects
   * persist (all of them on commit, none on rollback, never the one that failed), and the error
   * returned.
   */
  datatype TxOutcome = TxOutcome(began: bool, sent: seq<Statement>, applied: seq<Statement>, err: Option<DbError>)

  /** No transaction opened. */
  const NotStarted := TxOutcome(false, [], [], None)

  /**
   * A transaction sending `head` then `tolerant`. The first failure aborts it and rolls it back,
   * except that a missing environment-priority table reported by a statement of `tolerant`
   * ends it successfully: what was sent before it commits.
   */
  function Transaction(head: seq<Statement>, tolerant: seq<Statement>, answers: seq<Option<DbError>>): (out: TxOutcome)
    ensures out.began
  {
    var plan := head + tolerant;
    var k := FirstFailure(answers, |plan|, 0);
    if k == |plan| then TxOutcome(true, plan, plan, None)
    else if k >= |head| && IsMissingEnvPriorityTable(AnswerAt(answers, k).value) then
      TxOutcome(true, plan[..k + 1], plan[..k], None)
    else TxOutcome(true, plan[..k + 1], [], AnswerAt(answers, k))
  }

  /**
   * Whatever the answers: the statements are sent in plan order with nothing skipped, only the
   * last one sent may have failed, an error means nothing persists, and what persists is a
   * prefix of what was sent in which every statement succeeded.
   */
  lemma TransactionShape(head: seq<Statement>, tolerant: seq<Statement>, answers: seq<Option<DbError>>)
    ensures var out := Transaction(head, tolerant, answers);
            out.sent <= head + tolerant && out.applied <= out.sent
            && (forall j :: 0 <= j < |out.sent| - 1 ==> AnswerAt(answers, j).None?)
            && (forall j :: 0 <= j < |out.applied| ==> AnswerAt(answers, j).None?)
            && (out.err.Some? ==> out.applied == [] && out.err == AnswerAt(answers, |out.sent| - 1))
  {
  }

  /** Everything commits exactly when every statement succeeds. */
  lemma TransactionCommitsAll(head: seq<Statement>, tolerant: seq<Statement>, answers: seq<Option<DbError>>)
    ensures var out := Transaction(head, tolerant, answers);
            (out.err.None? && out.applied == head + tolerant)
            <==> (forall j :: 0 <= j < |head + tolerant| ==> AnswerAt(answers, j).None?)
  {
    var plan := head + tolerant;
    if forall j :: 0 <= j < |plan| ==> AnswerAt(answers, j).None? {
      FirstFailureAt(answers, |plan|, 0, |plan|);
    }
  }

  /** A failure in `head` rolls everything back and returns that error; nothing after it is sent. */
  lemma TransactionRollsBack(head: seq<Statement>, tolerant: seq<Statement>, answers: seq<Option<DbError>>, j: nat)
    requires j < |head| && AnswerAt(answers, j).Some?
    requires forall i :: 0 <= i < j ==> AnswerAt(answers, i).None?
    ensures Transaction(head, tolerant, answers) == TxOutcome(true, head[..j + 1], [], AnswerAt(answers, j))
  {
    FirstFailureAt(answers, |head + tolerant|, 0, j);
    assert (head + tolerant)[..j + 1] == head[..j + 1];
  }

  /**
   * A missing environment-priority table reported in `tolerant` ends the transaction without an
   * error: everything before it commits and nothing after it is sent.
   */
  lemma TransactionToleratesMissingTable(head: seq<Statement>, tolerant: seq<Statement>, answers: seq<Option<DbError>>, j: nat)
    requires |head| <= j < |head + tolerant|
    requires forall i :: 0 <= i < j ==> AnswerAt(answers, i).None?
    requires AnswerAt(answers, j).Some? && IsMissingEnvPriorityTable(AnswerAt(answers, j).value)
    ensures Transaction(head, tolerant, answers) == TxOutcome(true, (head + tolerant)[..j + 1], (head + tolerant)[..j], None)
    ensures head <= Transaction(head, tolerant, answers).applied
  {
    FirstFailureAt(answers, |head + tolerant|, 0, j);
    assert (head + tolerant)[..j][..|head|] == head;
  }

  /** Any other failure in `tolerant` still rolls everything back. */
  lemma TransactionOtherErrorRollsBack(head: seq<Statement>, tolerant: seq<Statement>, answers: seq<Option<DbError>>, j: nat)
    requires |head| <= j < |head + tolerant|
    requires forall i :: 0 <= i < j ==> AnswerAt(answers, i).None?
    requires AnswerAt(answers, j).Some? && !IsMissingEnvPriorityTable(AnswerAt(answers, j).value)
    ensures Transaction(head, tolerant, answers) == TxOutcome(true, (head + tolerant)[..j + 1], [], AnswerAt(answers, j))
  {
    FirstFailureAt(answers, |head + tolerant|, 0, j);
  }

  /** The transaction body: send the statements one at a time, stopping at the first failure. */
  method RunTransaction(head: seq<Statement>, tolerant: seq<Statement>, answers: seq<Option<DbError>>) returns (out: TxOutcome)
    ensures out == Transaction(head, tolerant, answers)
  {
    var plan := head + tolerant;
    var i := 0;
    while i < |plan| && AnswerAt(answers, i).None?
      invariant i <= |plan|
      invariant FirstFailure(answers, |plan|, i) == FirstFailure(answers, |plan|, 0)
      decreases |plan| - i
    {
      i := i + 1;
    }
    if i == |plan| {
      out := TxOutcome(true, plan, plan, None);
    } else {
      var e := AnswerAt(answers, i).value;
      if i >= |head| && IsMissingEnvPriorityTable(e) {
        out := TxOutcome(true, plan[..i + 1], plan[..i], None);
      } else {
        out := TxOutcome(true, plan[..i + 1], [], Some(e));
      }
    }
  }

  // ---------------------------------------------------------------------------
  // UpdateOrganizationSettings

  /** The feature keys, in the order the settings transaction writes them. */
  const FeatureKeys: seq<String> := [
    "show_sync_status", "show_metadata_badges", "show_environment_column", "enable_sse_live_updates",
    "show_deployment_history", "show_metadata_filters", "strict_metadata_enforcement",
    "mask_sensitive_metadata_values", "allow_service_metadata_editing", "show_onboarding_hints",
    "show_integration_type_badges", "show_service_detail_insights", "show_service_dependencies"]

  const RetentionKey: String := "deployment_retention_days"
  const ViewKey: String := "default_dashboard_view"
  const SemanticsKey: String := "status_semantics_mode"

  /** A flag of the update; a flag the update does not carry is off (Go's zero value). */
  function FlagValue(flags: map<String, bool>, key: String): bool
  {
    if key in flags then flags[key] else false
  }

  function FeatureRow(organizationId: int, flags: map<String, bool>, key: String): Option<Statement>
  {
    Some(FeatureUpsert(organizationId, key, BoolToInt64(FlagValue(flags, key))))
  }

  function FeatureRowOf(organizationId: int, flags: map<String, bool>): (String, nat) -> Option<Statement>
  {
    (key, index) => FeatureRow(organizationId, flags, key)
  }

  /** A preference with its value already trimmed. */
  datatype Preference = Preference(key: String, value: String)

  /** The three preferences: the retention printed in decimal, the view and the semantics, each trimmed. */
  function PreferencesOf(p: OrgConfig.Preferences): seq<Preference>
  {
    PreferenceList(TrimSpace(IntToString(p.retentionDays)), TrimSpace(p.view), TrimSpace(p.semantics))
  }

  function PreferenceList(retention: String, view: String, semantics: String): seq<Preference>
  {
    [Preference(RetentionKey, retention), Preference(ViewKey, view), Preference(SemanticsKey, semantics)]
  }

  /** An empty preference value is not written. */
  function PreferenceRow(organizationId: int, p: Preference): Option<Statement>
  {
    if p.value == [] then None else Some(PreferenceUpsert(organizationId, p.key, p.value))
  }

  function PreferenceRowOf(organizationId: int): (Preference, nat) -> Option<Statement>
  {
    (p, index) => PreferenceRow(organizationId, p)
  }

  /** A required field with a blank label or type is not written; the sort order is its index in the form. */
  function FieldRow(organizationId: int, f: RequiredField, index: nat): Option<Statement>
  {
    var trimmed := TrimSpace(f.fieldLabel);
    var fieldType := TrimSpace(f.fieldType);
    if trimmed == [] || fieldType == [] then None
    else Some(RequiredFieldInsert(organizationId, trimmed, fieldType, index, BoolToInt64(f.filterable)))
  }

  function FieldRowOf(organizationId: int): (RequiredField, nat) -> Option<Statement>
  {
    (f: RequiredField, index: nat) => FieldRow(organizationId, f, index)
  }

  /** A blank environment is not written; the sort order is its index in the form. */
  function PriorityRow(organizationId: int, environment: String, index: nat): Option<Statement>
  {
    var value := TrimSpace(environment);
    if value == [] then None else Some(PriorityInsert(organizationId, value, index))
  }

  function PriorityRowOf(organizationId: int): (String, nat) -> Option<Statement>
  {
    (environment: String, index: nat) => PriorityRow(organizationId, environment, index)
  }

  /** The feature rows: one per key, in order. */
  function FeatureRows(organizationId: int, flags: map<String, bool>): seq<Statement>
  {
    Kept(FeatureKeys, FeatureRowOf(organizationId, flags))
  }

  /** The preference rows. */
  function PreferenceRows(organizationId: int, p: OrgConfig.Preferences): seq<Statement>
  {
    Kept(PreferencesOf(p), PreferenceRowOf(organizationId))
  }

  /** The required-field rows. */
  function FieldRows(organizationId: int, fields: seq<RequiredField>): seq<Statement>
  {
    Kept(fields, FieldRowOf(organizationId))
  }

  /** The environment-priority rows. */
  function PriorityRows(organizationId: int, order: seq<String>): seq<Statement>
  {
    Kept(order, PriorityRowOf(organizationId))
  }

  /** The statements before the environment priorities: secrets, features, preferences, required fields. */
  function SettingsHead(organizationId: int, u: OrgConfig.SettingsUpdate): seq<Statement>
  {
    [SecretsUpdate(TrimSpace(u.authToken), TrimSpace(u.webhookSecret), BoolToInt64(u.enabled), organizationId)]
    + FeatureRows(organizationId, u.flags)
    + PreferenceRows(organizationId, u.preferences)
    + [RequiredFieldsDelete(organizationId)]
    + FieldRows(organizationId, u.requiredFields)
  }

  /** The environment-priority statements, where a missing table ends the transaction successfully. */
  function SettingsPriorities(organizationId: int, u: OrgConfig.SettingsUpdate): seq<Statement>
  {
    [PrioritiesDelete(organizationId)] + PriorityRows(organizationId, u.environmentOrder)
  }

  /** UpdateOrganizationSettings: one transaction over the settings statements. */
  method UpdateOrganizationSettings(organizationId: int, u: OrgConfig.SettingsUpdate, answers: seq<Option<DbError>>)
    returns (out: TxOutcome)
    ensures out == Transaction(SettingsHead(organizationId, u), SettingsPriorities(organizationId, u), answers)
  {
    var features := KeepRows(FeatureKeys, FeatureRowOf(organizationId, u.flags));
    var preferences := KeepRows(PreferencesOf(u.preferences), PreferenceRowOf(organizationId));
    var fields := KeepRows(u.requiredFields, FieldRowOf(organizationId));
    var priorities := KeepRows(u.environmentOrder, PriorityRowOf(organizationId));
    var head := [SecretsUpdate(TrimSpace(u.authToken), TrimSpace(u.webhookSecret), BoolToInt64(u.enabled), organizationId)]
                + features + preferences + [RequiredFieldsDelete(organizationId)] + fields;
    out := RunTransaction(head, [PrioritiesDelete(organizationId)] + priorities, answers);
  }

  /** All thirteen features are written, in order, each with its flag as 0/1. */
  lemma FeatureRowsAll(organizationId: int, flags: map<String, bool>, i: nat)
    requires i < |FeatureKeys|
    ensures |FeatureRows(organizationId, flags)| == |FeatureKeys|
    ensures FeatureRows(organizationId, flags)[i]
            == FeatureUpsert(organizationId, FeatureKeys[i], BoolToInt64(FlagValue(flags, FeatureKeys[i])))
  {
    KeptAll(FeatureKeys, FeatureRowOf(organizationId, flags), i);
  }

  /**
   * Among preferences with distinct keys, a key is written exactly when its value is not empty,
   * and then with that value.
   */
  lemma PreferenceWritten(organizationId: int, prefs: seq<Preference>, i: nat)
    requires i < |prefs|
    requires forall j :: 0 <= j < |prefs| && j != i ==> prefs[j].key != prefs[i].key
    ensures (exists s :: s in Kept(prefs, PreferenceRowOf(organizationId)) && s.PreferenceUpsert? && s.preferenceKey == prefs[i].key)
            <==> prefs[i].value != []
    ensures prefs[i].value != [] ==> PreferenceUpsert(organizationId, prefs[i].key, prefs[i].value) in Kept(prefs, PreferenceRowOf(organizationId))
  {
    var row := PreferenceRowOf(organizationId);
    var rows := Kept(prefs, row);
    if prefs[i].value != [] {
      var _ := KeptComplete(prefs, row, i);
    }
    forall s | s in rows && s.PreferenceUpsert? && s.preferenceKey == prefs[i].key
      ensures prefs[i].value != []
    {
      var k :| 0 <= k < |rows| && rows[k] == s;
      KeptAt(prefs, row, k);
    }
  }

  /** The three preferences have distinct keys, so each is written exactly when its value is not empty. */
  lemma PreferenceListWritten(organizationId: int, retention: String, view: String, semantics: String, i: nat)
    requires i < 3
    ensures var prefs := PreferenceList(retention, view, semantics);
            (exists s :: s in Kept(prefs, PreferenceRowOf(organizationId)) && s.PreferenceUpsert? && s.preferenceKey == prefs[i].key)
            <==> prefs[i].value != []
    ensures var prefs := PreferenceList(retention, view, semantics);
            prefs[i].value != [] ==> PreferenceUpsert(organizationId, prefs[i].key, prefs[i].value) in Kept(prefs, PreferenceRowOf(organizationId))
  {
    var prefs := PreferenceList(retention, view, semantics);
    assert forall j :: 0 <= j < |prefs| && j != i ==> prefs[j].key != prefs[i].key by {
      assert |RetentionKey| == 25 && |ViewKey| == 22 && |SemanticsKey| == 21;
    }
    PreferenceWritten(organizationId, prefs, i);
  }

  /** The retention is always written, as its decimal text. */
  lemma RetentionAlwaysWritten(organizationId: int, p: OrgConfig.Preferences)
    ensures PreferenceUpsert(organizationId, RetentionKey, IntToString(p.retentionDays)) in PreferenceRows(organizationId, p)
  {
    IntToStringTrimmed(p.retentionDays);
    var _ := KeptComplete(PreferencesOf(p), PreferenceRowOf(organizationId), 0);
  }

  /** The dashboard view is written exactly when it is not blank, trimmed. */
  lemma ViewWrittenUnlessBlank(organizationId: int, p: OrgConfig.Preferences)
    ensures (exists s :: s in PreferenceRows(organizationId, p) && s.PreferenceUpsert? && s.preferenceKey == ViewKey)
            <==> !IsBlank(p.view)
    ensures !IsBlank(p.view) ==> PreferenceUpsert(organizationId, ViewKey, TrimSpace(p.view)) in PreferenceRows(organizationId, p)
  {
    PreferenceListWritten(organizationId, TrimSpace(IntToString(p.retentionDays)), TrimSpace(p.view), TrimSpace(p.semantics), 1);
  }

  /** The status semantics are written exactly when they are not blank, trimmed. */
  lemma SemanticsWrittenUnlessBlank(organizationId: int, p: OrgConfig.Preferences)
    ensures (exists s :: s in PreferenceRows(organizationId, p) && s.PreferenceUpsert? && s.preferenceKey == SemanticsKey)
            <==> !IsBlank(p.semantics)
    ensures !IsBlank(p.semantics) ==> PreferenceUpsert(organizationId, SemanticsKey, TrimSpace(p.semantics)) in PreferenceRows(organizationId, p)
  {
    PreferenceListWritten(organizationId, TrimSpace(IntToString(p.retentionDays)), TrimSpace(p.view), TrimSpace(p.semantics), 2);
  }

  /**
   * Every stored required field comes from a field of the form with a non-blank label and type,
   * trimmed, with the field's index as its sort order.
   */
  lemma FieldRowsSound(organizationId: int, fields: seq<RequiredField>, k: nat)
    requires k < |FieldRows(organizationId, fields)|
    ensures var s := FieldRows(organizationId, fields)[k];
            s.RequiredFieldInsert? && s.organizationId == organizationId
            && 0 <= s.sortOrder < |fields| && s.fieldLabel != [] && s.fieldType != []
            && s.fieldLabel == TrimSpace(fields[s.sortOrder].fieldLabel)
            && s.fieldType == TrimSpace(fields[s.sortOrder].fieldType)
            && (s.isFilterable != 0) == fields[s.sortOrder].filterable
  {
    KeptAt(fields, FieldRowOf(organizationId), k);
  }

  /** The stored sort orders increase in row order. */
  lemma FieldRowsOrdered(organizationId: int, fields: seq<RequiredField>, k: nat, m: nat)
    requires k < m < |FieldRows(organizationId, fields)|
    ensures FieldRows(organizationId, fields)[k].RequiredFieldInsert? && FieldRows(organizationId, fields)[m].RequiredFieldInsert?
    ensures FieldRows(organizationId, fields)[k].sortOrder < FieldRows(organizationId, fields)[m].sortOrder
  {
    FieldRowIndex(organizationId, fields, k);
    FieldRowIndex(organizationId, fields, m);
    KeptOrdered(fields, FieldRowOf(organizationId), k, m);
  }

  /** A stored field's sort order is the index its row was kept from. */
  lemma FieldRowIndex(organizationId: int, fields: seq<RequiredField>, k: nat)
    requires k < |FieldRows(organizationId, fields)|
    ensures |KeptIndices(fields, FieldRowOf(organizationId))| == |FieldRows(organizationId, fields)|
    ensures FieldRows(organizationId, fields)[k].RequiredFieldInsert?
    ensures FieldRows(organizationId, fields)[k].sortOrder == KeptIndices(fields, FieldRowOf(organizationId))[k]
  {
    KeptAt(fields, FieldRowOf(organizationId), k);
  }

  /** Every field of the form with a non-blank label and type is stored. */
  lemma FieldRowsComplete(organizationId: int, fields: seq<RequiredField>, i: nat)
    requires i < |fields| && !IsBlank(fields[i].fieldLabel) && !IsBlank(fields[i].fieldType)
    ensures RequiredFieldInsert(organizationId, TrimSpace(fields[i].fieldLabel), TrimSpace(fields[i].fieldType), i,
                                BoolToInt64(fields[i].filterable)) in FieldRows(organizationId, fields)
  {
    var _ := KeptComplete(fields, FieldRowOf(organizationId), i);
  }

  /** Every stored priority is a trimmed, non-blank environment of the form at its own index. */
  lemma PriorityRowsSound(organizationId: int, order: seq<String>, k: nat)
    requires k < |PriorityRows(organizationId, order)|
    ensures var s := PriorityRows(organizationId, order)[k];
            s.PriorityInsert? && s.organizationId == organizationId && 0 <= s.sortOrder < |order|
            && s.environment == TrimSpace(order[s.sortOrder]) && s.environment != []
  {
    KeptAt(order, PriorityRowOf(organizationId), k);
  }

  /** Every non-blank environment of the form is stored at its index. */
  lemma PriorityRowsComplete(organizationId: int, order: seq<String>, i: nat)
    requires i < |order| && !IsBlank(order[i])
    ensures PriorityInsert(organizationId, TrimSpace(order[i]), i) in PriorityRows(organizationId, order)
  {
    var _ := KeptComplete(order, PriorityRowOf(organizationId), i);
  }

  /**
   * A missing priority table met by the delete or by any priority insert commits the secrets,
   * features, preferences and required fields, returns no error, and sends no later priority.
   */
  lemma SettingsMissingTableCommits(organizationId: int, u: OrgConfig.SettingsUpdate, answers: seq<Option<DbError>>, j: nat)
    requires var n := |SettingsHead(organizationId, u)|; n <= j < n + |SettingsPriorities(organizationId, u)|
    requires forall i :: 0 <= i < j ==> AnswerAt(answers, i).None?
    requires AnswerAt(answers, j).Some? && IsMissingEnvPriorityTable(AnswerAt(answers, j).value)
    ensures var out := Transaction(SettingsHead(organizationId, u), SettingsPriorities(organizationId, u), answers);
            out.err.None? && |out.sent| == j + 1 && SettingsHead(organizationId, u) <= out.applied
  {
    var head := SettingsHead(organizationId, u);
    var tail := SettingsPriorities(organizationId, u);
    TransactionToleratesMissingTable(head, tail, answers, j);
  }

  // ---------------------------------------------------------------------------
  // ReplaceServiceMetadata

  /** An entry with a blank label or value is not written; both are stored trimmed. */
  function MetadataRow(organizationId: int, serviceName: String, v: MetadataValue): Option<Statement>
  {
    var trimmed := TrimSpace(v.fieldLabel);
    var value := TrimSpace(v.value);
    if trimmed == [] || value == [] then None else Some(MetadataUpsert(organizationId, serviceName, trimmed, value))
  }

  function MetadataRowOf(organizationId: int, serviceName: String): (MetadataValue, nat) -> Option<Statement>
  {
    (v, index) => MetadataRow(organizationId, serviceName, v)
  }

  /** The statements of a replacement: delete the service's rows, then upsert the kept entries. */
  function ReplacePlan(organizationId: int, serviceName: String, values: seq<MetadataValue>): seq<Statement>
  {
    [MetadataDelete(organizationId, serviceName)] + Kept(values, MetadataRowOf(organizationId, serviceName))
  }

  /** ReplaceServiceMetadata: nothing for a blank service name; otherwise one transaction. */
  function ReplaceServiceMetadataOutcome(organizationId: int, serviceName: String, values: seq<MetadataValue>,
                                         answers: seq<Option<DbError>>): (out: TxOutcome)
    ensures IsBlank(serviceName) <==> out == NotStarted
  {
    var name := TrimSpace(serviceName);
    if name == [] then NotStarted else Transaction(ReplacePlan(organizationId, name, values), [], answers)
  }

  method ReplaceServiceMetadata(organizationId: int, serviceName: String, values: seq<MetadataValue>,
                                answers: seq<Option<DbError>>) returns (out: TxOutcome)
    ensures out == ReplaceServiceMetadataOutcome(organizationId, serviceName, values, answers)
  {
    var name := TrimSpace(serviceName);
    if name == [] {
      return NotStarted;
    }
    var rows := KeepRows(values, MetadataRowOf(organizationId, name));
    out := RunTransaction([MetadataDelete(organizationId, name)] + rows, [], answers);
  }

  /** With nothing tolerated, a replacement either commits every statement or persists nothing. */
  lemma ReplaceAllOrNothing(organizationId: int, serviceName: String, values: seq<MetadataValue>, answers: seq<Option<DbError>>)
    requires !IsBlank(serviceName)
    ensures var out := ReplaceServiceMetadataOutcome(organizationId, serviceName, values, answers);
            out.err.None? ==> out.applied == ReplacePlan(organizationId, TrimSpace(serviceName), values)
    ensures var out := ReplaceServiceMetadataOutcome(organizationId, serviceName, values, answers);
            out.err.Some? ==> out.applied == []
  {
    var plan := ReplacePlan(organizationId, TrimSpace(serviceName), values);
    assert plan + [] == plan;
  }

  // The metadata table, to state what a committed replacement leaves behind.

  datatype MetadataKey = MetadataKey(organizationId: int, serviceName: String, fieldLabel: String)

  type MetadataTable = map<MetadataKey, String>

  /** The effect of one statement on the metadata table (an upsert keyed by organization, service, label). */
  function ApplyMetadata(t: MetadataTable, s: Statement): MetadataTable
  {
    if s.MetadataDelete? then map k | k in t && (k.organizationId != s.organizationId || k.serviceName != s.serviceName) :: t[k]
    else if s.MetadataUpsert? then t[MetadataKey(s.organizationId, s.serviceName, s.fieldLabel) := s.value]
    else t
  }

  function ApplyAll(t: MetadataTable, ss: seq<Statement>): MetadataTable
  {
    if ss == [] then t else ApplyMetadata(ApplyAll(t, ss[..|ss| - 1]), ss[|ss| - 1])
  }

  /** Whether a kept entry of `values` has this (trimmed) label. */
  predicate KeptLabel(values: seq<MetadataValue>, l: String)
  {
    exists i :: 0 <= i < |values| && !IsBlank(values[i].fieldLabel) && !IsBlank(values[i].value)
                && TrimSpace(values[i].fieldLabel) == l
  }

  /** Every statement of `rows` upserts a row of this service. */
  predicate UpsertsFor(rows: seq<Statement>, organizationId: int, serviceName: String)
  {
    forall j :: 0 <= j < |rows| ==>
      rows[j].MetadataUpsert? && rows[j].organizationId == organizationId && rows[j].serviceName == serviceName
  }

  /**
   * Deleting a service's rows and then upserting rows of it leaves one row per upserted label,
   * holding the value of an upsert of that label, and leaves other services alone.
   */
  lemma {:induction false} DeleteThenUpsert(t: MetadataTable, organizationId: int, serviceName: String,
                                            rows: seq<Statement>, k: MetadataKey)
    requires UpsertsFor(rows, organizationId, serviceName)
    ensures var t' := ApplyAll(t, [MetadataDelete(organizationId, serviceName)] + rows);
            k.organizationId == organizationId && k.serviceName == serviceName ==>
              (k in t' <==> exists j :: 0 <= j < |rows| && rows[j].fieldLabel == k.fieldLabel)
    ensures var t' := ApplyAll(t, [MetadataDelete(organizationId, serviceName)] + rows);
            k in t' && k.organizationId == organizationId && k.serviceName == serviceName ==>
              exists j :: 0 <= j < |rows| && rows[j].fieldLabel == k.fieldLabel && t'[k] == rows[j].value
  {
    var plan := [MetadataDelete(organizationId, serviceName)] + rows;
    if rows == [] {
      assert plan[..0] == [];
    } else {
      var front := rows[..|rows| - 1];
      var last := rows[|rows| - 1];
      assert forall j :: 0 <= j < |front| ==> front[j] == rows[j];
      DeleteThenUpsert(t, organizationId, serviceName, front, k);
      assert plan[..|plan| - 1] == [MetadataDelete(organizationId, serviceName)] + front;
      var t0 := ApplyAll(t, [MetadataDelete(organizationId, serviceName)] + front);
      var t' := ApplyAll(t, plan);
      assert t' == t0[MetadataKey(organizationId, serviceName, last.fieldLabel) := last.value];
      if k.organizationId == organizationId && k.serviceName == serviceName && k.fieldLabel != last.fieldLabel {
        if k in t' {
          var j :| 0 <= j < |front| && front[j].fieldLabel == k.fieldLabel && t0[k] == front[j].value;
          assert rows[j] == front[j];
        }
        if exists j :: 0 <= j < |rows| && rows[j].fieldLabel == k.fieldLabel {
          var j :| 0 <= j < |rows| && rows[j].fieldLabel == k.fieldLabel;
          assert j < |front|;
        }
      }
    }
  }

  /** Rows of other services are left alone. */
  lemma {:induction false} DeleteThenUpsertOthers(t: MetadataTable, organizationId: int, serviceName: String,
                                                  rows: seq<Statement>, k: MetadataKey)
    requires UpsertsFor(rows, organizationId, serviceName)
    requires k.organizationId != organizationId || k.serviceName != serviceName
    ensures var t' := ApplyAll(t, [MetadataDelete(organizationId, serviceName)] + rows);
            (k in t' <==> k in t) && (k in t ==> t'[k] == t[k])
  {
    var plan := [MetadataDelete(organizationId, serviceName)] + rows;
    if rows == [] {
      assert plan[..0] == [];
    } else {
      var front := rows[..|rows| - 1];
      assert forall j :: 0 <= j < |front| ==> front[j] == rows[j];
      DeleteThenUpsertOthers(t, organizationId, serviceName, front, k);
      assert plan[..|plan| - 1] == [MetadataDelete(organizationId, serviceName)] + front;
    }
  }

  /** The rows of a replacement are upserts of its service. */
  lemma MetadataRowsUpsert(organizationId: int, serviceName: String, values: seq<MetadataValue>)
    ensures UpsertsFor(Kept(values, MetadataRowOf(organizationId, serviceName)), organizationId, serviceName)
  {
    var row := MetadataRowOf(organizationId, serviceName);
    forall j | 0 <= j < |Kept(values, row)|
      ensures Kept(values, row)[j].MetadataUpsert? && Kept(values, row)[j].organizationId == organizationId
              && Kept(values, row)[j].serviceName == serviceName
    {
      KeptAt(values, row, j);
    }
  }

  /** An upserted label is the trimmed label of a kept entry, with that entry's trimmed value. */
  lemma MetadataRowSource(organizationId: int, serviceName: String, values: seq<MetadataValue>, j: nat)
    requires j < |Kept(values, MetadataRowOf(organizationId, serviceName))|
    ensures var s := Kept(values, MetadataRowOf(organizationId, serviceName))[j];
            exists i :: 0 <= i < |values| && !IsBlank(values[i].fieldLabel) && !IsBlank(values[i].value)
                        && s == MetadataUpsert(organizationId, serviceName, TrimSpace(values[i].fieldLabel), TrimSpace(values[i].value))
  {
    KeptAt(values, MetadataRowOf(organizationId, serviceName), j);
  }

  /**
   * After the delete and the upserts of a replacement, the service has exactly one row per kept
   * label, whose value is the trimmed value of an entry with that label; other services keep
   * their rows.
   */
  lemma ReplaceLeaves(t: MetadataTable, organizationId: int, serviceName: String,
                      values: seq<MetadataValue>, k: MetadataKey)
    ensures var t' := ApplyAll(t, ReplacePlan(organizationId, serviceName, values));
            k.organizationId == organizationId && k.serviceName == serviceName ==> (k in t' <==> KeptLabel(values, k.fieldLabel))
    ensures var t' := ApplyAll(t, ReplacePlan(organizationId, serviceName, values));
            k in t' && k.organizationId == organizationId && k.serviceName == serviceName ==>
              exists i :: 0 <= i < |values| && TrimSpace(values[i].fieldLabel) == k.fieldLabel && t'[k] == TrimSpace(values[i].value)
    ensures var t' := ApplyAll(t, ReplacePlan(organizationId, serviceName, values));
            k.organizationId != organizationId || k.serviceName != serviceName ==> (k in t' <==> k in t) && (k in t ==> t'[k] == t[k])
  {
    var row := MetadataRowOf(organizationId, serviceName);
    var rows := Kept(values, row);
    var t' := ApplyAll(t, ReplacePlan(organizationId, serviceName, values));
    MetadataRowsUpsert(organizationId, serviceName, values);
    DeleteThenUpsert(t, organizationId, serviceName, rows, k);
    if k.organizationId != organizationId || k.serviceName != serviceName {
      DeleteThenUpsertOthers(t, organizationId, serviceName, rows, k);
    } else {
      if k in t' {
        var j :| 0 <= j < |rows| && rows[j].fieldLabel == k.fieldLabel && t'[k] == rows[j].value;
        MetadataRowSource(organizationId, serviceName, values, j);
      }
      if KeptLabel(values, k.fieldLabel) {
        var i :| 0 <= i < |values| && !IsBlank(values[i].fieldLabel) && !IsBlank(values[i].value)
                 && TrimSpace(values[i].fieldLabel) == k.fieldLabel;
        var j := KeptComplete(values, row, i);
      }
    }
  }

  /**
   * The metadata service and the store together: a committed strict-or-lenient write leaves the
   * service with exactly the persisted values, one row per label, each with its own value.
   */
  lemma PersistedStoredExactly(t: MetadataTable, organizationId: int, serviceName: String,
                               required: seq<RequiredField>, fields: seq<MetadataValue>, i: nat)
    requires i < |MetadataWrite.Persisted(required, fields)|
    ensures var p := MetadataWrite.Persisted(required, fields);
            var t' := ApplyAll(t, ReplacePlan(organizationId, serviceName, p));
            var k := MetadataKey(organizationId, serviceName, p[i].fieldLabel);
            k in t' && t'[k] == p[i].value
  {
    var p := MetadataWrite.Persisted(required, fields);
    forall j | 0 <= j < |p|
      ensures TrimSpace(p[j].fieldLabel) == p[j].fieldLabel && p[j].fieldLabel != []
      ensures TrimSpace(p[j].value) == p[j].value && p[j].value != []
    {
      MetadataWrite.PersistedEntries(required, fields, p[j]);
    }
    forall a, b | 0 <= a < b < |p|
      ensures p[a].fieldLabel != p[b].fieldLabel
    {
      MetadataWrite.PersistedDistinct(required, fields, a, b);
    }
    CleanStoredExactly(t, organizationId, serviceName, p, i);
  }

  /** Entries already trimmed and non-blank, with distinct labels, are stored as they are. */
  predicate CleanEntries(p: seq<MetadataValue>)
  {
    (forall j :: 0 <= j < |p| ==> TrimSpace(p[j].fieldLabel) == p[j].fieldLabel && p[j].fieldLabel != []
                                  && TrimSpace(p[j].value) == p[j].value && p[j].value != [])
    && (forall a, b :: 0 <= a < b < |p| ==> p[a].fieldLabel != p[b].fieldLabel)
  }

  lemma CleanStoredExactly(t: MetadataTable, organizationId: int, serviceName: String, p: seq<MetadataValue>, i: nat)
    requires CleanEntries(p) && i < |p|
    ensures var t' := ApplyAll(t, ReplacePlan(organizationId, serviceName, p));
            var k := MetadataKey(organizationId, serviceName, p[i].fieldLabel);
            k in t' && t'[k] == p[i].value
  {
    var t' := ApplyAll(t, ReplacePlan(organizationId, serviceName, p));
    var k := MetadataKey(organizationId, serviceName, p[i].fieldLabel);
    ReplaceLeaves(t, organizationId, serviceName, p, k);
    assert KeptLabel(p, k.fieldLabel);
    var j :| 0 <= j < |p| && TrimSpace(p[j].fieldLabel) == k.fieldLabel && t'[k] == TrimSpace(p[j].value);
  }
}
