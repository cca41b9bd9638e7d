/**
 * The view helpers of the dashboard's router (internal/server/routes/utils.go, and the copy of
 * nextServiceStatus in apps/ddash/internal/server/routes/utils.go): nullable-column defaults,
 * the status parsers, the demo status cycle, the deployment filter and the service row mapper.
 *
 * A `sql.NullString` or `sql.NullInt64` is an `Option`: `None` when the column is NULL.
 */
module RouteUtils {
  import opened Wrappers
  import opened GoStrings
  import SqliteReadStore

  // ---------------------------------------------------------------------------
  // Nullable columns

  /** nullString: the value, or "" for NULL. */
  function NullString(value: Option<String>): (r: String)
    ensures value.Some? ==> r == value.value
    ensures value.None? ==> r == []
  {
    if value.Some? then value.value else []
  }

  /** nullStringOr: the value, or the fallback for NULL. */
  function NullStringOr(value: Option<String>, fallback: String): (r: String)
    ensures value.Some? ==> r == value.value
    ensures value.None? ==> r == fallback
  {
    if value.Some? then value.value else fallback
  }

  /** valueOr: the primary column when it is not NULL, else the fallback column, else "". */
  function ValueOr(primary: Option<String>, fallback: Option<String>): (r: String)
    ensures primary.Some? ==> r == primary.value
    ensures primary.None? && fallback.Some? ==> r == fallback.value
    ensures primary.None? && fallback.None? ==> r == []
  {
    if primary.Some? then primary.value
    else if fallback.Some? then fallback.value
    else []
  }

  /** valueOr is nullString of the first valid column: it never invents a value. */
  lemma ValueOrIsFirstValid(primary: Option<String>, fallback: Option<String>)
    ensures ValueOr(primary, fallback) == NullString(if primary.Some? then primary else fallback)
    ensures ValueOr(primary, fallback) != [] ==>
              ValueOr(primary, fallback) in (if primary.Some? then {primary.value} else {}) +
                                            (if fallback.Some? then {fallback.value} else {})
  {
  }

  // ---------------------------------------------------------------------------
  // statusFromString and deploymentStatusFromString

  /**
   * components.Status: a string type, so besides the six named values it can hold any other
   * string, which nextServiceStatus's default branch handles.
   */
  datatype Status = Synced | Progressing | OutOfSync | Warning | Unknown | All | OtherStatus(value: String)

  /** components.DeploymentStatus. */
  datatype DeploymentStatus = DeploymentQueued | DeploymentProcessing | DeploymentSuccess | DeploymentError

  /** The switch of statusFromString over the folded value. */
  function StatusOfKey(key: String): Status
  {
    if key == "synced" then Synced
    else if key == "progressing" then Progressing
    else if key == "out-of-sync" || key == "out_of_sync" || key == "outofsync" then OutOfSync
    else if key == "warning" then Warning
    else if key == "unknown" then Unknown
    else if key == "all" then All
    else Unknown
  }

  /** statusFromString: trimmed and lower-cased, unknown names are Unknown. */
  function StatusFromString(value: String): (r: Status)
    ensures !r.OtherStatus?
  {
    StatusOfKey(Fold(value))
  }

  function DeploymentStatusOfKey(key: String): DeploymentStatus
  {
    if key == "queued" then DeploymentQueued
    else if key == "processing" then DeploymentProcessing
    else if key == "success" then DeploymentSuccess
    else if key == "error" then DeploymentError
    else DeploymentQueued
  }

  /** deploymentStatusFromString: trimmed and lower-cased, unknown names are Queued. */
  function DeploymentStatusFromString(value: String): DeploymentStatus
  {
    DeploymentStatusOfKey(Fold(value))
  }

  /** The view status a store status stands for. */
  function FromStoreStatus(s: SqliteReadStore.ServiceStatus): Status
  {
    match s
    case Synced => Synced
    case Progressing => Progressing
    case OutOfSync => OutOfSync
    case Warning => Warning
    case Unknown => Unknown
    case All => All
  }

  function FromStoreDeploymentStatus(s: SqliteReadStore.DeploymentStatus): DeploymentStatus
  {
    match s
    case Queued => DeploymentQueued
    case Processing => DeploymentProcessing
    case Success => DeploymentSuccess
    case Error => DeploymentError
  }

  /**
   * The router's parsers and the read store's mappers agree on every input: the explicit
   * "unknown" case of statusFromString changes nothing, and so does the explicit "queued".
   */
  lemma StatusParsersAgree(value: String)
    ensures StatusFromString(value) == FromStoreStatus(SqliteReadStore.MapServiceStatus(value))
    ensures DeploymentStatusFromString(value) == FromStoreDeploymentStatus(SqliteReadStore.MapDeploymentStatus(value))
  {
    var key := Fold(value);
    KeysAgree(key);
  }

  lemma KeysAgree(key: String)
    ensures StatusOfKey(key) == FromStoreStatus(SqliteReadStore.ServiceStatusOfKey(key))
    ensures DeploymentStatusOfKey(key) == FromStoreDeploymentStatus(SqliteReadStore.DeploymentStatusOfKey(key))
  {
  }

  /** The three spellings of "out of sync" all parse to OutOfSync, whatever the case and spacing. */
  lemma OutOfSyncSpellings(value: String)
    requires Fold(value) in {"out-of-sync", "out_of_sync", "outofsync"}
    ensures StatusFromString(value) == OutOfSync
  {
  }

  // ---------------------------------------------------------------------------
  // formatDuration

  /**
   * time.Duration.String for a whole, positive number of seconds: "45s", "2m5s", "1h0m3s" —
   * the hours and minutes appear once the duration reaches them.
   */
  function DurationText(seconds: int): (r: String)
    requires seconds > 0
    ensures r != [] && r[|r| - 1] == 's'
    ensures seconds >= 3600 ==>
              r == IntToString(seconds / 3600) + "h" + IntToString(seconds % 3600 / 60) + "m" + IntToString(seconds % 60) + "s"
    ensures 60 <= seconds < 3600 ==> r == IntToString(seconds / 60) + "m" + IntToString(seconds % 60) + "s"
    ensures seconds < 60 ==> r == IntToString(seconds) + "s"
  {
    var h := seconds / 3600;
    var m := (seconds % 3600) / 60;
    var s := seconds % 60;
    if h > 0 then IntToString(h) + "h" + IntToString(m) + "m" + IntToString(s) + "s"
    else if m > 0 then IntToString(m) + "m" + IntToString(s) + "s"
    else IntToString(s) + "s"
  }

  /** formatDuration: "-" for NULL or a non-positive number of seconds, else the duration text. */
  function FormatDuration(value: Option<int>): (r: String)
    ensures r == "-" <==> value.None? || value.value <= 0
    ensures value.Some? && value.value > 0 ==> r == DurationText(value.value)
  {
    if value.None? || value.value <= 0 then "-" else DurationText(value.value)
  }

  /** Under a minute the text is the number of seconds alone. */
  lemma DurationTextSeconds(seconds: int)
    requires 0 < seconds < 60
    ensures DurationText(seconds) == IntToString(seconds) + "s"
  {
  }

  // ---------------------------------------------------------------------------
  // nextServiceStatus

  /** nextServiceStatus: Synced, OutOfSync, Progressing in a cycle; anything else restarts at Synced. */
  function NextServiceStatus(status: Status): (r: Status)
    ensures r in {Synced, OutOfSync, Progressing}
    ensures status !in {Synced, OutOfSync} ==> r == Synced
  {
    match status
    case Synced => OutOfSync
    case OutOfSync => Progressing
    case Progressing => Synced
    case _ => Synced
  }

  /** Applying the step `n` times. */
  function NextServiceStatusN(status: Status, n: nat): Status
    decreases n
  {
    if n == 0 then status else NextServiceStatusN(NextServiceStatus(status), n - 1)
  }

  /** Three steps return to the start on the cycle. */
  lemma NextServiceStatusCycle(status: Status)
    requires status in {Synced, OutOfSync, Progressing}
    ensures NextServiceStatusN(status, 3) == status
    ensures NextServiceStatusN(status, 1) != status && NextServiceStatusN(status, 2) != status
  {
  }

  /** From any status, one step reaches the cycle and every three steps after that repeat. */
  lemma {:induction false} NextServiceStatusPeriodic(status: Status, n: nat)
    ensures NextServiceStatusN(status, n + 4) == NextServiceStatusN(status, n + 1)
    decreases n
  {
    if n == 0 {
      NextServiceStatusCycle(NextServiceStatus(status));
    } else {
      NextServiceStatusPeriodic(NextServiceStatus(status), n - 1);
    }
  }

  // ---------------------------------------------------------------------------
  // deploymentMatchesFilter

  datatype DeploymentRow = DeploymentRow(service: String, environment: String, deployedAt: String,
                                         status: DeploymentStatus, jobUrl: String)

  /** A filter value that matches everything. */
  predicate IsWildcard(filter: String)
  {
    filter == [] || filter == "all"
  }

  /** deploymentMatchesFilter: "" and "all" match anything; any other value must equal the row's field exactly. */
  function DeploymentMatchesFilter(row: DeploymentRow, env: String, service: String): (r: bool)
    ensures r <==> (IsWildcard(env) || row.environment == env) && (IsWildcard(service) || row.service == service)
  {
    if env != "" && env != "all" && row.environment != env then false
    else if service != "" && service != "all" && row.service != service then false
    else true
  }

  /** With both filters wild every row matches, and a row always matches its own environment and service. */
  lemma DeploymentFilterWildcards(row: DeploymentRow)
    ensures DeploymentMatchesFilter(row, "", "all")
    ensures DeploymentMatchesFilter(row, row.environment, row.service)
  {
  }

  /** Narrowing a filter never lets in a row the wider filter refused. */
  lemma DeploymentFilterNarrows(row: DeploymentRow, env: String, service: String)
    requires DeploymentMatchesFilter(row, env, service)
    ensures DeploymentMatchesFilter(row, env, "") && DeploymentMatchesFilter(row, "", service)
  {
  }

  // ---------------------------------------------------------------------------
  // mapServiceInstanceRow

  /** The columns of a service instance row. */
  datatype InstanceRow = InstanceRow(
    name: String, environment: String, status: String,
    context: Option<String>, team: Option<String>, description: Option<String>,
    repoUrl: Option<String>, logsUrl: Option<String>, endpointUrl: Option<String>,
    lastDeploy: Option<String>, deployDurationSeconds: Option<int>, revision: Option<String>,
    commitSha: Option<String>, commitUrl: Option<String>, actionLabel: Option<String>,
    actionKind: Option<String>, actionDisabled: int)

  /** components.Service. */
  datatype Service = Service(
    title: String, description: String, context: String, environment: String, team: String,
    status: Status, lastDeploy: String, deployDuration: String, revision: String, commitSha: String,
    commitUrl: String, repoUrl: String, logsUrl: String, endpoint: String,
    actionLabel: String, actionKind: String, actionDisabled: bool)

  /** A nullable text column is shown as its value, or as "" when it is NULL. */
  predicate Shows(column: Option<String>, text: String)
  {
    if column.Some? then text == column.value else text == []
  }

  /**
   * mapServiceInstanceRow: NULL text columns become "", the last deploy and revision "-", the
   * commit is the commit SHA or else the revision ("-" when that is blank), and the action is
   * disabled for any non-zero flag.
   */
  function MapServiceInstanceRow(row: InstanceRow): (s: Service)
    ensures s.title == row.name && s.environment == row.environment
    ensures s.status == StatusFromString(row.status)
    ensures s.lastDeploy == NullStringOr(row.lastDeploy, "-") && s.revision == NullStringOr(row.revision, "-")
    ensures s.commitSha == "-" <==> IsBlank(ValueOr(row.commitSha, row.revision)) || ValueOr(row.commitSha, row.revision) == "-"
    ensures !IsBlank(s.commitSha)
    ensures s.commitSha != "-" ==> s.commitSha == ValueOr(row.commitSha, row.revision)
    ensures Shows(row.description, s.description) && Shows(row.context, s.context) && Shows(row.team, s.team)
    ensures Shows(row.commitUrl, s.commitUrl) && Shows(row.repoUrl, s.repoUrl)
            && Shows(row.logsUrl, s.logsUrl) && Shows(row.endpointUrl, s.endpoint)
    ensures Shows(row.actionLabel, s.actionLabel) && Shows(row.actionKind, s.actionKind)
    ensures s.deployDuration == FormatDuration(row.deployDurationSeconds)
    ensures s.actionDisabled <==> row.actionDisabled != 0
  {
    var commit := ValueOr(row.commitSha, row.revision);
    var commitSha := if TrimSpace(commit) == [] then "-" else commit;
    NotBlankByHead("-");
    Service(row.name, NullString(row.description), NullString(row.context), row.environment,
            NullString(row.team), StatusFromString(row.status), NullStringOr(row.lastDeploy, "-"),
            FormatDuration(row.deployDurationSeconds), NullStringOr(row.revision, "-"), commitSha,
            NullString(row.commitUrl), NullString(row.repoUrl), NullString(row.logsUrl),
            NullString(row.endpointUrl), NullString(row.actionLabel), NullString(row.actionKind),
            row.actionDisabled != 0)
  }

  /** A row without commit SHA and revision shows "-" for both, and for its last deploy when that is NULL. */
  lemma MapServiceInstanceRowDefaults(row: InstanceRow)
    requires row.commitSha.None? && row.revision.None? && row.lastDeploy.None?
    ensures var s := MapServiceInstanceRow(row);
            s.commitSha == "-" && s.revision == "-" && s.lastDeploy == "-"
  {
  }

  /** mapServiceInstances and mapServiceInstancesByEnv: one service per row, in order. */
  function MapServiceInstances(rows: seq<InstanceRow>): (r: seq<Service>)
    ensures |r| == |rows|
    ensures forall i :: 0 <= i < |rows| ==> r[i] == MapServiceInstanceRow(rows[i])
  {
    seq(|rows|, i requires 0 <= i < |rows| => MapServiceInstanceRow(rows[i]))
  }
}
