/**
 * The SQLite read store behind the service views (apps/ddash/internal/adapters/sqlite/service_read_store.go,
 * and the older internal/adapters/sqlite/service_read_store.go, which holds the same status
 * mappers, toString, ListEnvironmentPriorities and ListServiceInstances): status parsing, the
 * conversions of loosely typed column values, relative-age buckets, the trimmed name lists,
 * the dependency write guards and the defaults for missing rows.
 *
 * Each query is its result (or a function from its argument to its result); the SQL itself is
 * not modelled.
 */
module SqliteReadStore {
  import opened Wrappers
  import opened GoStrings
  import ServiceRead
  import ServiceCatalog

  // ---------------------------------------------------------------------------
  // mapServiceStatus and mapDeploymentStatus

  /** domain.ServiceStatus. */
  datatype ServiceStatus = Synced | Progressing | OutOfSync | Warning | Unknown | All

  /** domain.DeploymentStatus. */
  datatype DeploymentStatus = Queued | Processing | Success | Error

  /** The string each status stands for in the domain package. */
  function ServiceStatusValue(s: ServiceStatus): String
  {
    match s
    case Synced => "synced"
    case Progressing => "progressing"
    case OutOfSync => "out-of-sync"
    case Warning => "warning"
    case Unknown => "unknown"
    case All => "all"
  }

  function DeploymentStatusValue(s: DeploymentStatus): String
  {
    match s
    case Queued => "queued"
    case Processing => "processing"
    case Success => "success"
    case Error => "error"
  }

  /** The switch of mapServiceStatus over the folded value. */
  function ServiceStatusOfKey(key: String): ServiceStatus
  {
    if key == "synced" then Synced
    else if key == "progressing" then Progressing
    else if key == "out-of-sync" || key == "out_of_sync" || key == "outofsync" then OutOfSync
    else if key == "warning" then Warning
    else if key == "all" then All
    else Unknown
  }

  /** mapServiceStatus: the trimmed, lower-cased value decides; anything unrecognised is Unknown. */
  function MapServiceStatus(value: String): ServiceStatus
  {
    ServiceStatusOfKey(Fold(value))
  }

  function DeploymentStatusOfKey(key: String): DeploymentStatus
  {
    if key == "processing" then Processing
    else if key == "success" then Success
    else if key == "error" then Error
    else Queued
  }

  /** mapDeploymentStatus: as mapServiceStatus, with Queued for anything unrecognised. */
  function MapDeploymentStatus(value: String): DeploymentStatus
  {
    DeploymentStatusOfKey(Fold(value))
  }

  /** Spaces around the value and its letter case do not matter. */
  lemma MapStatusInsensitive(value: String)
    ensures MapServiceStatus(Fold(value)) == MapServiceStatus(value)
    ensures MapDeploymentStatus(Fold(value)) == MapDeploymentStatus(value)
  {
    FoldIdempotent(value);
  }

  /** The three spellings of "out of sync", and only they, give OutOfSync. */
  lemma MapServiceStatusOutOfSync(value: String)
    ensures MapServiceStatus(value) == OutOfSync
            <==> Fold(value) == "out-of-sync" || Fold(value) == "out_of_sync" || Fold(value) == "outofsync"
  {
  }

  /** A value that is none of the known names is Unknown. */
  lemma MapServiceStatusUnknown(value: String)
    requires Fold(value) !in {"synced", "progressing", "out-of-sync", "out_of_sync", "outofsync", "warning", "all"}
    ensures MapServiceStatus(value) == Unknown
  {
  }

  /** Every status's own string maps back to it. */
  lemma ServiceStatusRoundTrip(s: ServiceStatus)
    ensures MapServiceStatus(ServiceStatusValue(s)) == s
  {
    ServiceStatusValueFolded(s);
    assert ServiceStatusOfKey(ServiceStatusValue(s)) == s;
  }

  lemma ServiceStatusValueFolded(s: ServiceStatus)
    ensures Fold(ServiceStatusValue(s)) == ServiceStatusValue(s)
  {
    match s
    case Synced => FoldedLiteral("synced");
    case Progressing => FoldedLiteral("progressing");
    case OutOfSync => FoldedLiteral("out-of-sync");
    case Warning => FoldedLiteral("warning");
    case Unknown => FoldedLiteral("unknown");
    case All => FoldedLiteral("all");
  }

  /** A lower-case literal with letters and dashes at its ends folds to itself. */
  lemma FoldedLiteral(v: String)
    requires v != [] && forall i :: 0 <= i < |v| ==> 'a' <= v[i] <= 'z' || v[i] == '-'
    ensures Fold(v) == v
  {
    FoldOfFolded(v);
  }

  lemma DeploymentStatusRoundTrip(s: DeploymentStatus)
    ensures MapDeploymentStatus(DeploymentStatusValue(s)) == s
  {
    var v := DeploymentStatusValue(s);
    assert IsLower(v) && TrimmedBy(v, Spaces);
    FoldOfFolded(v);
  }

  /** Anything other than the three other names is Queued. */
  lemma MapDeploymentStatusDefault(value: String)
    requires Fold(value) != "processing" && Fold(value) != "success" && Fold(value) != "error"
    ensures MapDeploymentStatus(value) == Queued
  {
  }

  // ---------------------------------------------------------------------------
  // toString and toInt64

  /**
   * A column value as the driver returns it (an `interface{}`). A float is carried by its
   * truncation toward zero and its fmt.Sprint text; any other kind by its fmt.Sprint text.
   */
  datatype SqlValue =
    | NullValue
    | Int64Value(i: int)
    | Int32Value(i: int)
    | IntValue(i: int)
    | FloatValue(truncated: int, printed: String)
    | BytesValue(text: String)
    | TextValue(text: String)
    | OtherValue(printed: String)

  /** fmt.Sprint of a value of a kind toString does not special-case. */
  function Printed(v: SqlValue): String
  {
    match v
    case NullValue => ""
    case Int64Value(i) => IntToString(i)
    case Int32Value(i) => IntToString(i)
    case IntValue(i) => IntToString(i)
    case FloatValue(_, printed) => printed
    case BytesValue(text) => text
    case TextValue(text) => text
    case OtherValue(printed) => printed
  }

  /** toString: "" for NULL, text and bytes unchanged, anything else printed and trimmed. */
  function ToString(v: SqlValue): (r: String)
    ensures v.TextValue? || v.BytesValue? ==> r == v.text
    ensures !(v.TextValue? || v.BytesValue?) ==> TrimmedBy(r, Spaces)
  {
    match v
    case NullValue => ""
    case TextValue(text) => text
    case BytesValue(text) => text
    case _ => TrimSpace(Printed(v))
  }

  /** strconv.ParseInt(s, 10, 64) with 0 on any error, as toInt64 uses it. */
  function ParseOrZero(s: String): (r: int)
    ensures Int64Min <= r <= Int64Max
  {
    match ParseInt64(s)
    case None => 0
    case Some(n) => n
  }

  /**
   * toInt64: 0 for NULL, integer kinds widened, floats truncated, and text, bytes and other
   * kinds parsed after trimming, with 0 when they are not a 64-bit decimal number.
   */
  function ToInt64(v: SqlValue): (r: int)
    ensures v.TextValue? || v.BytesValue? ==> Int64Min <= r <= Int64Max
  {
    match v
    case NullValue => 0
    case Int64Value(i) => i
    case Int32Value(i) => i
    case IntValue(i) => i
    case FloatValue(truncated, _) => truncated
    case BytesValue(text) => ParseOrZero(TrimSpace(text))
    case TextValue(text) => ParseOrZero(TrimSpace(text))
    case OtherValue(printed) => ParseOrZero(TrimSpace(printed))
  }

  /** A decimal number printed with %d has no space at either end. */
  lemma IntToStringTrimmed(n: int)
    ensures TrimmedBy(IntToString(n), Spaces)
  {
    var s := IntToString(n);
    var d := if n < 0 then NatToString(-n) else NatToString(n);
    assert s[|s| - 1] == d[|d| - 1];
    assert IsDigit(d[|d| - 1]);
  }

  /** A 64-bit number stored as text reads back as itself, and so does its printed form. */
  lemma ToInt64OfText(n: int)
    requires Int64Min <= n <= Int64Max
    ensures ToInt64(TextValue(IntToString(n))) == n
    ensures ToInt64(BytesValue(IntToString(n))) == n
    ensures ToString(Int64Value(n)) == IntToString(n)
  {
    ParseIntToString(n);
    IntToStringTrimmed(n);
  }

  /** Text that is not a 64-bit decimal number, after trimming, reads as 0. */
  lemma ToInt64OfJunk(text: String)
    requires ParseInt64(TrimSpace(text)).None?
    ensures ToInt64(TextValue(text)) == 0 && ToInt64(BytesValue(text)) == 0
  {
  }

  /** Spaces around a stored number are ignored. */
  lemma ToInt64IgnoresSpaces(text: String)
    ensures ToInt64(TextValue(TrimSpace(text))) == ToInt64(TextValue(text))
  {
    TrimSpaceIdempotent(text);
  }

  // ---------------------------------------------------------------------------
  // The name lists of ListServiceDependencies, ListServiceDependants and ListEnvironmentPriorities

  /** Every value trimmed, the blank ones dropped, in order. */
  function TrimmedNonBlank(rows: seq<String>): (r: seq<String>)
    ensures |r| <= |rows|
  {
    if rows == [] then []
    else
      var rest := TrimmedNonBlank(rows[..|rows| - 1]);
      var value := TrimSpace(rows[|rows| - 1]);
      if value == [] then rest else rest + [value]
  }

  /** The loop that builds `out`. */
  method TrimNonBlank(rows: seq<String>) returns (out: seq<String>)
    ensures out == TrimmedNonBlank(rows)
  {
    out := [];
    var i := 0;
    while i < |rows|
      invariant 0 <= i <= |rows|
      invariant out == TrimmedNonBlank(rows[..i])
    {
      assert rows[..i + 1][..i] == rows[..i];
      var value := TrimSpace(rows[i]);
      if value != [] {
        out := out + [value];
      }
      i := i + 1;
    }
    assert rows[..i] == rows;
  }

  /** The list holds exactly the non-blank trimmed values, each trimmed and non-empty. */
  lemma {:induction false} TrimmedNonBlankMembers(rows: seq<String>, x: String)
    ensures x in TrimmedNonBlank(rows) <==> x != [] && x in ServiceRead.TrimAll(rows)
    ensures forall k :: 0 <= k < |TrimmedNonBlank(rows)| ==>
              TrimmedNonBlank(rows)[k] != [] && TrimmedBy(TrimmedNonBlank(rows)[k], Spaces)
  {
    if rows != [] {
      var init := rows[..|rows| - 1];
      TrimmedNonBlankMembers(init, x);
      assert ServiceRead.TrimAll(rows) == ServiceRead.TrimAll(init) + [TrimSpace(rows[|rows| - 1])];
    }
  }

  /** Cleaning a cleaned list changes nothing. */
  lemma {:induction false} TrimmedNonBlankIdempotent(rows: seq<String>)
    ensures TrimmedNonBlank(TrimmedNonBlank(rows)) == TrimmedNonBlank(rows)
  {
    if rows != [] {
      var init := rows[..|rows| - 1];
      TrimmedNonBlankIdempotent(init);
      var rest := TrimmedNonBlank(init);
      var value := TrimSpace(rows[|rows| - 1]);
      if value != [] {
        TrimSpaceIdempotent(rows[|rows| - 1]);
        assert (rest + [value])[..|rest|] == rest;
      }
    }
  }

  /** A database error, by its message. */
  datatype DbError = DbError(message: String)

  /**
   * ListServiceDependencies and ListServiceDependants: the query runs with the trimmed service
   * name, and its rows are trimmed with blanks dropped.
   */
  method ListServiceNames(service: String, query: String -> Result<seq<String>, DbError>)
    returns (r: Result<seq<String>, DbError>)
    ensures query(TrimSpace(service)).Err? ==> r == Err(query(TrimSpace(service)).error)
    ensures query(TrimSpace(service)).Ok? ==> r == Ok(TrimmedNonBlank(query(TrimSpace(service)).value))
  {
    var rows := query(TrimSpace(service));
    if rows.Err? {
      return Err(rows.error);
    }
    var out := TrimNonBlank(rows.value);
    r := Ok(out);
  }

  /** isMissingEnvPriorityTableErr: the message names a missing organization_environment_priorities table. */
  predicate IsMissingEnvPriorityTable(e: DbError)
  {
    Contains(ToLower(e.message), "no such table") && Contains(ToLower(e.message), "organization_environment_priorities")
  }

  /** The test ignores letter case. */
  lemma IsMissingEnvPriorityTableInsensitive(message: String)
    ensures IsMissingEnvPriorityTable(DbError(ToLower(message))) == IsMissingEnvPriorityTable(DbError(message))
  {
    ToLowerIdempotent(message);
  }

  /**
   * ListEnvironmentPriorities: a missing priorities table is no priorities and no error; any
   * other error is returned; the environments are trimmed with blanks dropped.
   */
  method ListEnvironmentPriorities(rows: Result<seq<String>, DbError>) returns (r: Result<seq<String>, DbError>)
    ensures rows.Err? && IsMissingEnvPriorityTable(rows.error) ==> r == Ok([])
    ensures rows.Err? && !IsMissingEnvPriorityTable(rows.error) ==> r == rows
    ensures rows.Ok? ==> r == Ok(TrimmedNonBlank(rows.value))
  {
    if rows.Err? {
      if IsMissingEnvPriorityTable(rows.error) {
        return Ok([]);
      }
      return rows;
    }
    var out := TrimNonBlank(rows.value);
    r := Ok(out);
  }

  // ---------------------------------------------------------------------------
  // UpsertServiceDependency and DeleteServiceDependency

  /** The write UpsertServiceDependency issues: none for a blank side or a self pair ignoring case. */
  function StoreUpsertDependency(serviceName: String, dependsOn: String): (r: Option<ServiceCatalog.Dependency>)
    ensures r.Some? ==> r.value == ServiceCatalog.Dependency(TrimSpace(serviceName), TrimSpace(dependsOn))
  {
    var service := TrimSpace(serviceName);
    var target := TrimSpace(dependsOn);
    if service == [] || target == [] || EqualFold(service, target) then None
    else Some(ServiceCatalog.Dependency(service, target))
  }

  /** The write DeleteServiceDependency issues: none only for a blank side. */
  function StoreDeleteDependency(serviceName: String, dependsOn: String): (r: Option<ServiceCatalog.Dependency>)
    ensures r.Some? <==> !IsBlank(serviceName) && !IsBlank(dependsOn)
    ensures r.Some? ==> r.value == ServiceCatalog.Dependency(TrimSpace(serviceName), TrimSpace(dependsOn))
  {
    var service := TrimSpace(serviceName);
    var target := TrimSpace(dependsOn);
    if service == [] || target == [] then None
    else Some(ServiceCatalog.Dependency(service, target))
  }

  /** The store's upsert guard is the catalog's NormalizeDependencyInput. */
  lemma StoreUpsertIsNormalize(serviceName: String, dependsOn: String)
    ensures StoreUpsertDependency(serviceName, dependsOn) == ServiceCatalog.NormalizeDependencyInput(serviceName, dependsOn)
  {
  }

  /** Deleting a self pair is written to the database, while upserting it is not. */
  lemma DeleteAllowsSelfPair(name: String)
    requires !IsBlank(name)
    ensures StoreUpsertDependency(name, name).None?
    ensures StoreDeleteDependency(name, name) == Some(ServiceCatalog.Dependency(TrimSpace(name), TrimSpace(name)))
  {
  }

  /** Re-applying a guard to the pair it let through lets it through unchanged. */
  lemma StoreGuardsIdempotent(serviceName: String, dependsOn: String)
    ensures var d := StoreDeleteDependency(serviceName, dependsOn);
            d.Some? ==> StoreDeleteDependency(d.value.service, d.value.dependsOn) == d
  {
    TrimSpaceIdempotent(serviceName);
    TrimSpaceIdempotent(dependsOn);
  }

  // ---------------------------------------------------------------------------
  // ListServiceInstances

  /** The two queries ListServiceInstances chooses between. */
  datatype InstanceQuery = AllInstances | InstancesInEnvironment(env: String)

  /** "" and "all" list every instance; any other value filters by that exact environment. */
  function InstanceQueryFor(env: String): (q: InstanceQuery)
    ensures q == AllInstances <==> env == "" || env == "all"
    ensures q.InstancesInEnvironment? ==> q.env == env
  {
    if env == "" || env == "all" then AllInstances else InstancesInEnvironment(env)
  }

  /** A row of either instance query. */
  datatype InstanceRow = InstanceRow(serviceName: SqlValue, environment: SqlValue, status: String, artifactId: SqlValue)

  /** The fields of domain.Service that the mapper sets from a row, the timestamp aside. */
  datatype ServiceInstance = ServiceInstance(title: String, environment: String, status: ServiceStatus,
                                             revision: String, commitSha: String, deployDuration: String)

  /** mapServiceInstancesRows and mapServiceInstancesByEnvRows, one row at a time. */
  function MapServiceInstance(row: InstanceRow): (s: ServiceInstance)
    ensures s.revision == s.commitSha && s.deployDuration == "-"
  {
    ServiceInstance(ToString(row.serviceName), ToString(row.environment), MapServiceStatus(row.status),
                    ToString(row.artifactId), ToString(row.artifactId), "-")
  }

  /** Both mappers build one service per row, in order. */
  function MapServiceInstances(rows: seq<InstanceRow>): (r: seq<ServiceInstance>)
    ensures |r| == |rows|
  {
    seq(|rows|, i requires 0 <= i < |rows| => MapServiceInstance(rows[i]))
  }

  /** ListServiceInstances over the two queries' results. */
  function ListServiceInstances(env: String, listAll: Result<seq<InstanceRow>, DbError>,
                                listByEnv: String -> Result<seq<InstanceRow>, DbError>)
    : (r: Result<seq<ServiceInstance>, DbError>)
    ensures var rows := match InstanceQueryFor(env)
                        case AllInstances => listAll
                        case InstancesInEnvironment(e) => listByEnv(e);
            (r.Err? <==> rows.Err?) && (rows.Ok? ==> r.value == MapServiceInstances(rows.value))
  {
    var rows := if env == "" || env == "all" then listAll else listByEnv(env);
    match rows
    case Err(e) => Err(e)
    case Ok(rs) => Ok(MapServiceInstances(rs))
  }

  // ---------------------------------------------------------------------------
  // GetServiceCurrentState, GetServiceDeliveryStats30d and GetOrganizationRenderVersion

  /** A single-row query failing: no row at all (sql.ErrNoRows), or another error. */
  datatype RowError = NoRows | RowFailed(message: String)

  datatype CurrentStateRow = CurrentStateRow(latestStatus: String, latestEventTsMs: int, driftCount: int, failedStreak: int)

  datatype ServiceCurrentState = ServiceCurrentState(lastStatus: String, lastEventTsMs: int, driftCount: int, failedStreak: int)

  /** GetServiceCurrentState: no row gives the zero state; the status is trimmed. */
  function CurrentStateOf(row: Result<CurrentStateRow, RowError>): (r: Result<ServiceCurrentState, RowError>)
    ensures row == Err(NoRows) ==> r == Ok(ServiceCurrentState([], 0, 0, 0))
    ensures r.Err? <==> row.Err? && row.error.RowFailed?
    ensures r.Err? ==> r == Err(row.error)
    ensures row.Ok? ==> r.value.lastStatus == TrimSpace(row.value.latestStatus)
                        && r.value.lastEventTsMs == row.value.latestEventTsMs
                        && r.value.driftCount == row.value.driftCount && r.value.failedStreak == row.value.failedStreak
  {
    match row
    case Err(NoRows) => Ok(ServiceCurrentState([], 0, 0, 0))
    case Err(e) => Err(e)
    case Ok(x) => Ok(ServiceCurrentState(TrimSpace(x.latestStatus), x.latestEventTsMs, x.driftCount, x.failedStreak))
  }

  datatype DeliveryStatsRow = DeliveryStatsRow(deploySuccessCount: SqlValue, deployFailureCount: SqlValue, rollbackCount: SqlValue)

  datatype ServiceDeliveryStats = ServiceDeliveryStats(success30d: int, failures30d: int, rollbacks30d: int)

  /** GetServiceDeliveryStats30d: no row gives zero counts; each count goes through toInt64. */
  function DeliveryStatsOf(row: Result<DeliveryStatsRow, RowError>): (r: Result<ServiceDeliveryStats, RowError>)
    ensures row == Err(NoRows) ==> r == Ok(ServiceDeliveryStats(0, 0, 0))
    ensures r.Err? <==> row.Err? && row.error.RowFailed?
    ensures r.Err? ==> r == Err(row.error)
    ensures row.Ok? ==> r.value == ServiceDeliveryStats(ToInt64(row.value.deploySuccessCount),
                                                        ToInt64(row.value.deployFailureCount),
                                                        ToInt64(row.value.rollbackCount))
  {
    match row
    case Err(NoRows) => Ok(ServiceDeliveryStats(0, 0, 0))
    case Err(e) => Err(e)
    case Ok(x) => Ok(ServiceDeliveryStats(ToInt64(x.deploySuccessCount), ToInt64(x.deployFailureCount), ToInt64(x.rollbackCount)))
  }

  /** Both single-row reads turn a missing row into zero values and never report it. */
  lemma MissingRowIsNotAnError(a: Result<CurrentStateRow, RowError>, b: Result<DeliveryStatsRow, RowError>)
    ensures CurrentStateOf(a).Err? ==> CurrentStateOf(a).error != NoRows
    ensures DeliveryStatsOf(b).Err? ==> DeliveryStatsOf(b).error != NoRows
  {
  }
}
