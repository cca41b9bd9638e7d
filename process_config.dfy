/**
 * Process configuration (internal/config/config.go). The process environment is a map from
 * viper key (the lower-cased variable name) to its value. OTLP header lists are parsed into
 * maps and merged, the port is validated, batch settings are clamped, names fall back to
 * defaults, and the session secret is required outside local development.
 */
module ProcessConfig {
  import opened Wrappers
  import opened GoStrings

  /** A header map as Go holds it: None is the nil map. */
  type Headers = Option<map<String, String>>

  /** Reading a header map: the nil map has no entries. */
  function Entries(h: Headers): map<String, String>
  {
    if h.Some? then h.value else map[]
  }

  // ---------------------------------------------------------------------------
  // OTLP header lists: "k1=v1,k2=v2"

  /**
   * One comma-separated entry, trimmed and split at its first "=". It yields a pair only when
   * it has an "=" and both sides are non-blank once trimmed.
   */
  function HeaderPair(part: String): (r: Option<(String, String)>)
    ensures r.Some? ==> r.value.0 != [] && TrimmedBy(r.value.0, Spaces) && '=' !in r.value.0
    ensures r.Some? ==> r.value.1 != [] && TrimmedBy(r.value.1, Spaces)
  {
    SplitPair(TrimSpace(part))
  }

  /** A trimmed entry split at its first "=", with both sides trimmed. */
  function SplitPair(p: String): (r: Option<(String, String)>)
    ensures r.Some? ==> r.value.0 != [] && TrimmedBy(r.value.0, Spaces) && '=' !in r.value.0
    ensures r.Some? ==> r.value.1 != [] && TrimmedBy(r.value.1, Spaces)
  {
    var i := IndexOfAny(p, {'='});
    TrimSpaceWithin(p[..i], '=');
    SplitAt(p, i)
  }

  /** The entry split around position `i`: nothing when `i` is past the end or either side is blank. */
  function SplitAt(p: String, i: nat): (r: Option<(String, String)>)
    requires i <= |p|
    ensures r.Some? ==> r.value.0 != [] && r.value.1 != []
  {
    if i == |p| then None
    else
      var key := TrimSpace(p[..i]);
      var value := TrimSpace(p[i + 1..]);
      if key == [] || value == [] then None else Some((key, value))
  }

  /** A parsed entry, when there is one. */
  type Pair = Option<(String, String)>

  /** The parsed entry sets header `key`. */
  predicate Sets(p: Pair, key: String)
  {
    p.Some? && p.value.0 == key
  }

  /** The parsed entries of a list, one per comma-separated part. */
  function Pairs(parts: seq<String>): (r: seq<Pair>)
    ensures |r| == |parts|
    ensures forall i :: 0 <= i < |parts| ==> r[i] == HeaderPair(parts[i])
  {
    if parts == [] then [] else Pairs(parts[..|parts| - 1]) + [HeaderPair(parts[|parts| - 1])]
  }

  /** The map the parsing loop builds from parsed entries, in order: a later entry overwrites an earlier one. */
  function Collect(pairs: seq<Pair>): map<String, String>
  {
    if pairs == [] then map[]
    else
      var m := Collect(pairs[..|pairs| - 1]);
      var last := pairs[|pairs| - 1];
      if last.Some? then m[last.value.0 := last.value.1] else m
  }

  /** The headers of a list of comma-separated parts. */
  function HeadersOf(parts: seq<String>): map<String, String>
  {
    Collect(Pairs(parts))
  }

  /** parseOTLPHeaders as a value: nil for blank input and when no entry survives. */
  function ParsedHeaders(raw: String): Headers
  {
    var t := TrimSpace(raw);
    if t == [] then None
    else
      var m := HeadersOf(Split(t, ','));
      if |m| == 0 then None else Some(m)
  }

  /** parseOTLPHeaders: the entries are split at commas and collected into a map one by one. */
  method ParseOTLPHeaders(raw: String) returns (r: Headers)
    ensures r == ParsedHeaders(raw)
  {
    var t := TrimSpace(raw);
    if t == [] {
      return None;
    }
    var out := CollectHeaders(Split(t, ','));
    if |out| == 0 {
      return None;
    }
    return Some(out);
  }

  /** The loop of parseOTLPHeaders: each part that parses to a pair sets its header. */
  method CollectHeaders(parts: seq<String>) returns (out: map<String, String>)
    ensures out == HeadersOf(parts)
  {
    ghost var pairs := Pairs(parts);
    out := map[];
    for i := 0 to |parts|
      invariant out == Collect(pairs[..i])
    {
      CollectStep(pairs, i);
      var pair := HeaderPair(parts[i]);
      if pair.Some? {
        out := out[pair.value.0 := pair.value.1];
      }
    }
    assert pairs[..|parts|] == pairs;
  }

  /** Collecting one more entry adds its header, if it has one, over the ones before. */
  lemma CollectStep(pairs: seq<Pair>, i: nat)
    requires i < |pairs|
    ensures Collect(pairs[..i + 1]) ==
      if pairs[i].Some? then Collect(pairs[..i])[pairs[i].value.0 := pairs[i].value.1] else Collect(pairs[..i])
  {
    assert pairs[..i + 1][..i] == pairs[..i];
  }

  /** Every collected header comes from an entry that sets it, and no later entry sets it again. */
  lemma {:induction false} CollectSound(pairs: seq<Pair>, key: String) returns (i: nat)
    requires key in Collect(pairs)
    ensures i < |pairs| && pairs[i] == Some((key, Collect(pairs)[key]))
    ensures forall j :: i < j < |pairs| ==> !Sets(pairs[j], key)
  {
    var init := pairs[..|pairs| - 1];
    if Sets(pairs[|pairs| - 1], key) {
      i := |pairs| - 1;
    } else {
      i := CollectSound(init, key);
      assert forall j :: i < j < |pairs| - 1 ==> pairs[j] == init[j];
    }
  }

  /** The last entry that sets a header decides its value. */
  lemma {:induction false} CollectLastWins(pairs: seq<Pair>, i: nat, key: String, value: String)
    requires i < |pairs| && pairs[i] == Some((key, value))
    requires forall j :: i < j < |pairs| ==> !Sets(pairs[j], key)
    ensures key in Collect(pairs) && Collect(pairs)[key] == value
  {
    if i < |pairs| - 1 {
      var init := pairs[..|pairs| - 1];
      assert init[i] == pairs[i];
      assert forall j :: i < j < |init| ==> init[j] == pairs[j];
      CollectLastWins(init, i, key, value);
    }
  }

  /** Some entry that sets `key` is enough for the map to hold `key`. */
  lemma {:induction false} CollectHolds(pairs: seq<Pair>, i: nat, key: String)
    requires i < |pairs| && Sets(pairs[i], key)
    ensures key in Collect(pairs)
    decreases |pairs| - i
  {
    if exists j :: i < j < |pairs| && Sets(pairs[j], key) {
      var j :| i < j < |pairs| && Sets(pairs[j], key);
      CollectHolds(pairs, j, key);
    } else {
      CollectLastWins(pairs, i, key, pairs[i].value.1);
    }
  }

  /** Every parsed header has a non-blank, trimmed key without "=" and a non-blank, trimmed value. */
  lemma HeadersClean(parts: seq<String>, key: String)
    requires key in HeadersOf(parts)
    ensures key != [] && TrimmedBy(key, Spaces) && '=' !in key
    ensures HeadersOf(parts)[key] != [] && TrimmedBy(HeadersOf(parts)[key], Spaces)
  {
    var i := CollectSound(Pairs(parts), key);
    assert HeaderPair(parts[i]) == Some((key, HeadersOf(parts)[key]));
  }

  /** The first separator of `s` is at `i` when `s[i]` is one and nothing before it is. */
  lemma IndexOfAnyAt(s: String, seps: set<char>, i: nat)
    requires i < |s| && s[i] in seps
    requires forall j :: 0 <= j < i ==> s[j] !in seps
    ensures IndexOfAny(s, seps) == i
  {
  }

  /** A trimmed entry is split at its first "=". */
  lemma SplitPairAt(p: String, i: nat)
    requires i < |p| && p[i] == '='
    requires forall j :: 0 <= j < i ==> p[j] != '='
    ensures SplitPair(p) == SplitAt(p, i)
  {
    IndexOfAnyAt(p, {'='}, i);
  }

  /** An entry made of a key, "=" and a value, split at that "=", gives the key and the value. */
  lemma SinglePairEntry(p: String, key: String, value: String)
    requires key != [] && TrimmedBy(key, Spaces) && '=' !in key
    requires value != [] && TrimmedBy(value, Spaces)
    requires |p| == |key| + 1 + |value| && p[..|key|] == key && p[|key|] == '=' && p[|key| + 1..] == value
    ensures HeaderPair(p) == Some((key, value))
  {
    assert p[0] == key[0] && p[|p| - 1] == value[|value| - 1];
    assert TrimSpace(p) == p;
    assert forall j :: 0 <= j < |key| ==> p[j] == key[j];
    SplitPairAt(p, |key|);
  }

  /** A list with no comma is a single part. */
  lemma SplitWithoutComma(s: String)
    requires ',' !in s
    ensures Split(s, ',') == [s]
  {
  }

  /** A single "key=value" entry parses to that one header. */
  lemma ParsedSinglePair(key: String, value: String)
    requires key != [] && TrimmedBy(key, Spaces) && '=' !in key && ',' !in key
    requires value != [] && TrimmedBy(value, Spaces) && ',' !in value
    ensures ParsedHeaders(key + "=" + value) == Some(map[key := value])
  {
    var s := key + "=" + value;
    assert ',' !in s;
    assert s[..|key|] == key && s[|key| + 1..] == value;
    ParsedSingleEntry(s, key, value);
  }

  lemma ParsedSingleEntry(p: String, key: String, value: String)
    requires key != [] && TrimmedBy(key, Spaces) && '=' !in key
    requires value != [] && TrimmedBy(value, Spaces)
    requires |p| == |key| + 1 + |value| && p[..|key|] == key && p[|key|] == '=' && p[|key| + 1..] == value
    requires ',' !in p
    ensures ParsedHeaders(p) == Some(map[key := value])
  {
    SinglePairEntry(p, key, value);
    HeadersOfSingle(p, key, value);
    assert TrimSpace(p) == p;
    SplitWithoutComma(p);
  }

  /** A list of one part that parses to a pair holds just that header. */
  lemma HeadersOfSingle(p: String, key: String, value: String)
    requires HeaderPair(p) == Some((key, value))
    ensures HeadersOf([p]) == map[key := value]
  {
    PairsSingle(p);
    CollectSingle(HeaderPair(p));
  }

  lemma PairsSingle(p: String)
    ensures Pairs([p]) == [HeaderPair(p)]
  {
  }

  lemma CollectSingle(pair: Pair)
    ensures Collect([pair]) == if pair.Some? then map[pair.value.0 := pair.value.1] else map[]
  {
    assert [pair][..0] == [];
  }

  /** A blank header list, and one in which no entry survives, are both the nil map. */
  lemma ParsedHeadersNil(raw: String)
    ensures IsBlank(raw) ==> ParsedHeaders(raw).None?
    ensures ParsedHeaders(raw).Some? ==> |ParsedHeaders(raw).value| > 0
    ensures ParsedHeaders(raw).None? && !IsBlank(raw) ==>
      forall j :: 0 <= j < |Split(TrimSpace(raw), ',')| ==> HeaderPair(Split(TrimSpace(raw), ',')[j]).None?
  {
    var t := TrimSpace(raw);
    if ParsedHeaders(raw).None? && t != [] {
      var parts := Split(t, ',');
      var pairs := Pairs(parts);
      forall j | 0 <= j < |parts|
        ensures HeaderPair(parts[j]).None?
      {
        if pairs[j].Some? {
          CollectHolds(pairs, j, pairs[j].value.0);
        }
      }
    }
  }

  // ---------------------------------------------------------------------------
  // Merging the common list with a signal-specific one

  /** mergeHeaderMaps as a value: nil when both are empty, else the union with the override winning. */
  function MergedHeaders(base: Headers, override: Headers): Headers
  {
    if |Entries(base)| == 0 && |Entries(override)| == 0 then None
    else Some(Entries(base) + Entries(override))
  }

  /** The merge is nil only when both are empty; otherwise it holds every key of either, and the override wins. */
  lemma MergedHeadersEntries(base: Headers, override: Headers, key: String)
    ensures MergedHeaders(base, override).None? <==> |Entries(base)| == 0 && |Entries(override)| == 0
    ensures MergedHeaders(base, override).Some? ==>
      (key in MergedHeaders(base, override).value <==> key in Entries(base) || key in Entries(override))
    ensures key in Entries(override) ==> MergedHeaders(base, override).value[key] == Entries(override)[key]
    ensures key in Entries(base) && key !in Entries(override) ==> MergedHeaders(base, override).value[key] == Entries(base)[key]
  {
    if key in Entries(override) {
      assert |Entries(override)| > 0;
    } else if key in Entries(base) {
      assert |Entries(base)| > 0;
    }
  }

  /** mergeHeaderMaps: copy the base entries, then the override entries over them. */
  method MergeHeaderMaps(base: Headers, override: Headers) returns (r: Headers)
    ensures r == MergedHeaders(base, override)
  {
    var b := Entries(base);
    var o := Entries(override);
    if |b| == 0 && |o| == 0 {
      return None;
    }
    var out: map<String, String> := map[];
    var todo := b.Keys;
    while todo != {}
      invariant todo <= b.Keys
      invariant forall key :: key in out <==> key in b && key !in todo
      invariant forall key :: key in out ==> out[key] == b[key]
      decreases |todo|
    {
      var key :| key in todo;
      out := out[key := b[key]];
      todo := todo - {key};
    }
    todo := o.Keys;
    while todo != {}
      invariant todo <= o.Keys
      invariant forall key :: key in out <==> key in b || (key in o && key !in todo)
      invariant forall key :: key in out ==> out[key] == if key in o && key !in todo then o[key] else b[key]
      decreases |todo|
    {
      var key :| key in todo;
      out := out[key := o[key]];
      todo := todo - {key};
    }
    UnionPointwise(b, o, out);
    return Some(out);
  }

  /** A map that agrees with `b + o` key by key is `b + o`. */
  lemma UnionPointwise(b: map<String, String>, o: map<String, String>, out: map<String, String>)
    requires forall key :: key in out <==> key in b || key in o
    requires forall key :: key in out ==> out[key] == if key in o then o[key] else b[key]
    ensures out == b + o
  {
  }

  /** Merging a map that is nil or non-empty into an absent common list leaves it unchanged. */
  lemma MergeIntoNil(h: Headers)
    requires h.Some? ==> |h.value| > 0
    ensures MergedHeaders(None, h) == h
  {
    if h.Some? {
      assert map[] + h.value == h.value;
    }
  }

  // ---------------------------------------------------------------------------
  // Environment name

  const LocalEnvironments: set<String> := {"", "local", "dev", "development", "test"}

  /** Config.IsLocalDevelopment: the trimmed, lower-cased environment is one of the local names. */
  predicate IsLocalDevelopment(environment: String)
  {
    Fold(environment) in LocalEnvironments
  }

  /** Local development does not depend on case or surrounding space. */
  lemma LocalDevelopmentFolds(environment: String)
    ensures IsLocalDevelopment(environment) <==> IsLocalDevelopment(Fold(environment))
    ensures IsBlank(environment) ==> IsLocalDevelopment(environment)
  {
    FoldIdempotent(environment);
  }

  /** resolveEnvironment: the first non-blank candidate, trimmed and lower-cased, else "". */
  function ResolveEnvironment(candidates: seq<String>): (r: String)
    ensures r == [] <==> forall i :: 0 <= i < |candidates| ==> IsBlank(candidates[i])
    ensures Fold(r) == r
  {
    if candidates == [] then []
    else if !IsBlank(candidates[0]) then
      FoldOfFolded(Fold(candidates[0]));
      Fold(candidates[0])
    else ResolveEnvironment(candidates[1..])
  }

  /** The resolved name is the first candidate that is not blank. */
  lemma {:induction false} ResolveEnvironmentFirst(candidates: seq<String>, i: nat)
    requires i < |candidates| && !IsBlank(candidates[i])
    requires forall j :: 0 <= j < i ==> IsBlank(candidates[j])
    ensures ResolveEnvironment(candidates) == Fold(candidates[i])
  {
    if i > 0 {
      assert IsBlank(candidates[0]);
      assert candidates[1..][i - 1] == candidates[i];
      ResolveEnvironmentFirst(candidates[1..], i - 1);
    }
  }

  // ---------------------------------------------------------------------------
  // Reading the environment

  type Env = map<String, String>

  /** v.GetString under AutomaticEnv: a variable that is unset or empty reads as the default. */
  function Lookup(env: Env, key: String, default: String): (r: String)
    ensures key in env && env[key] != [] ==> r == env[key]
    ensures key !in env || env[key] == [] ==> r == default
  {
    if key in env && env[key] != [] then env[key] else default
  }

  /** v.GetInt: a value that is not a 64-bit decimal integer reads as 0. */
  function LookupInt(env: Env, key: String, default: int): (r: int)
    ensures key !in env || env[key] == [] ==> r == default
    ensures key in env && ParseInt64(env[key]).Some? ==> r == ParseInt64(env[key]).value
  {
    if key in env && env[key] != [] then
      match ParseInt64(env[key])
      case Some(n) => n
      case None => 0
    else default
  }

  /** The spellings strconv.ParseBool reads as true. */
  const TrueSpellings: set<String> := {"1", "t", "T", "TRUE", "true", "True"}

  /** v.GetBool: only the true spellings read as true; anything else that is set reads as false. */
  function LookupBool(env: Env, key: String, default: bool): (r: bool)
    ensures key !in env || env[key] == [] ==> r == default
    ensures key in env && env[key] != [] ==> (r <==> env[key] in TrueSpellings)
  {
    if key in env && env[key] != [] then env[key] in TrueSpellings else default
  }

  /** The settings as read from the environment, before validation and defaulting. */
  datatype RawSettings = RawSettings(
    ddashEnv: String, appEnv: String, goEnv: String,
    port: int,
    databasePath: String, databaseTiming: bool,
    sessionSecret: String, gitHubClientId: String, gitHubClientSecret: String, gitHubCallbackUrl: String,
    secureCookie: bool,
    otelEnabled: bool, otlpEndpoint: String,
    otlpHeaders: String, otlpTraceHeaders: String, otlpMetricHeaders: String,
    otelServiceName: String, ddashServiceName: String, ddashVersion: String, otelServiceVersion: String,
    metricsConsole: bool,
    batchEnabled: bool, batchSize: int, batchFlushMs: int,
    publicUrl: String, gitHubAppInstallUrl: String, gitHubIngestorToken: String)

  const DefaultPort := 8080
  const DefaultDatabasePath: String := "data/default"
  const DefaultServiceName: String := "ddash"
  const DefaultServiceVersion: String := "dev"
  const LocalSessionSecret: String := "ddash-local-dev"

  /** Every lookup load makes, with the defaults it registers. */
  function Read(env: Env): (raw: RawSettings)
    ensures "ddash_port" !in env ==> raw.port == DefaultPort
    ensures raw.sessionSecret == Lookup(env, "ddash_session_secret", "")
  {
    RawSettings(
      Lookup(env, "ddash_env", ""), Lookup(env, "app_env", ""), Lookup(env, "go_env", ""),
      LookupInt(env, "ddash_port", DefaultPort),
      Lookup(env, "ddash_db_path", DefaultDatabasePath), LookupBool(env, "ddash_db_timing", false),
      Lookup(env, "ddash_session_secret", ""), Lookup(env, "github_client_id", ""),
      Lookup(env, "github_client_secret", ""), Lookup(env, "github_callback_url", ""),
      LookupBool(env, "ddash_secure_cookie", false),
      LookupBool(env, "ddash_otel_enabled", false), Lookup(env, "otel_exporter_otlp_endpoint", ""),
      Lookup(env, "otel_exporter_otlp_headers", ""), Lookup(env, "otel_exporter_otlp_traces_headers", ""),
      Lookup(env, "otel_exporter_otlp_metrics_headers", ""),
      Lookup(env, "otel_service_name", DefaultServiceName), Lookup(env, "ddash_service_name", DefaultServiceName),
      Lookup(env, "ddash_version", DefaultServiceVersion), Lookup(env, "otel_service_version", ""),
      LookupBool(env, "ddash_otel_metrics_console", false),
      LookupBool(env, "ddash_ingest_batch_enabled", true), LookupInt(env, "ddash_ingest_batch_size", 100),
      LookupInt(env, "ddash_ingest_batch_flush_ms", 50),
      Lookup(env, "ddash_public_url", ""), Lookup(env, "github_app_install_url", ""),
      Lookup(env, "github_app_ingestor_setup_token", ""))
  }

  // ---------------------------------------------------------------------------
  // The loaded configuration

  datatype ServerConfig = ServerConfig(port: int)
  datatype DatabaseConfig = DatabaseConfig(path: String, logTiming: bool)
  datatype AuthConfig = AuthConfig(
    sessionSecret: String, gitHubClientId: String, gitHubClientSecret: String,
    gitHubCallbackUrl: String, secureCookie: bool)
  datatype ObservabilityConfig = ObservabilityConfig(
    enabled: bool, otlpEndpoint: String, otlpTraceHeaders: Headers, otlpMetricHeaders: Headers,
    serviceName: String, serviceVersion: String, metricsConsole: bool)
  datatype IngestionConfig = IngestionConfig(batchEnabled: bool, batchSize: int, batchFlushMs: int)
  datatype IntegrationsConfig = IntegrationsConfig(
    publicUrl: String, gitHubAppInstallUrl: String, gitHubIngestorToken: String)

  datatype Config = Config(
    environment: String,
    server: ServerConfig,
    database: DatabaseConfig,
    auth: AuthConfig,
    observability: ObservabilityConfig,
    ingestion: IngestionConfig,
    integrations: IntegrationsConfig)

  datatype ConfigError = InvalidPort(port: int) | SessionSecretRequired

  const MaxBatchSize := 2000
  const MaxBatchFlushMs := 5000

  /** The batch size: non-positive becomes 100, above 2000 becomes 2000. */
  function ClampBatchSize(n: int): (r: int)
    ensures 1 <= r <= MaxBatchSize
    ensures 1 <= n <= MaxBatchSize ==> r == n
    ensures n <= 0 ==> r == 100
    ensures n > MaxBatchSize ==> r == MaxBatchSize
  {
    if n <= 0 then 100 else if n > MaxBatchSize then MaxBatchSize else n
  }

  /** The flush interval in milliseconds: non-positive becomes 50, above 5000 becomes 5000. */
  function ClampBatchFlushMs(n: int): (r: int)
    ensures 1 <= r <= MaxBatchFlushMs
    ensures 1 <= n <= MaxBatchFlushMs ==> r == n
    ensures n <= 0 ==> r == 50
    ensures n > MaxBatchFlushMs ==> r == MaxBatchFlushMs
  {
    if n <= 0 then 50 else if n > MaxBatchFlushMs then MaxBatchFlushMs else n
  }

  /** The first of two settings that is not blank, trimmed, else the fallback. */
  function FirstNonBlank(first: String, second: String, fallback: String): (r: String)
    ensures !IsBlank(first) ==> r == TrimSpace(first)
    ensures IsBlank(first) && !IsBlank(second) ==> r == TrimSpace(second)
    ensures IsBlank(first) && IsBlank(second) ==> r == fallback
    ensures fallback != [] ==> r != []
  {
    if TrimSpace(first) != [] then TrimSpace(first)
    else if TrimSpace(second) != [] then TrimSpace(second)
    else fallback
  }

  /** The OAuth callback: the configured URL, or the local callback on the chosen port. */
  function CallbackUrl(configured: String, port: int): (r: String)
    ensures r != []
    ensures !IsBlank(configured) ==> r == TrimSpace(configured)
    ensures IsBlank(configured) ==> HasPrefix(r, "http://localhost:")
  {
    if TrimSpace(configured) != [] then TrimSpace(configured)
    else "http://localhost:" + IntToString(port) + "/auth/github/callback"
  }

  /** The environment name load settles on. */
  function EnvironmentOf(raw: RawSettings): String
  {
    ResolveEnvironment([raw.ddashEnv, raw.appEnv, raw.goEnv])
  }

  predicate ValidPort(port: int)
  {
    0 < port <= 65535
  }

  /** The configuration assembled from valid settings, before the session-secret rules. */
  function Assemble(raw: RawSettings): Config
  {
    var endpoint := TrimSpace(raw.otlpEndpoint);
    var common := ParsedHeaders(raw.otlpHeaders);
    Config(
      EnvironmentOf(raw),
      ServerConfig(raw.port),
      DatabaseConfig(TrimSpace(raw.databasePath), raw.databaseTiming),
      AuthConfig(
        TrimSpace(raw.sessionSecret), TrimSpace(raw.gitHubClientId), TrimSpace(raw.gitHubClientSecret),
        CallbackUrl(raw.gitHubCallbackUrl, raw.port), raw.secureCookie),
      ObservabilityConfig(
        raw.otelEnabled || endpoint != [] || raw.metricsConsole,
        endpoint,
        MergedHeaders(common, ParsedHeaders(raw.otlpTraceHeaders)),
        MergedHeaders(common, ParsedHeaders(raw.otlpMetricHeaders)),
        FirstNonBlank(raw.otelServiceName, raw.ddashServiceName, DefaultServiceName),
        FirstNonBlank(raw.ddashVersion, raw.otelServiceVersion, DefaultServiceVersion),
        raw.metricsConsole),
      IngestionConfig(raw.batchEnabled, ClampBatchSize(raw.batchSize), ClampBatchFlushMs(raw.batchFlushMs)),
      IntegrationsConfig(
        TrimSpace(raw.publicUrl), TrimSpace(raw.gitHubAppInstallUrl), TrimSpace(raw.gitHubIngestorToken)))
  }

  /** The last steps of load: default the database path, then apply the session-secret rules. */
  function Finish(cfg: Config, requireSessionSecret: bool): Result<Config, ConfigError>
  {
    var c := if IsBlank(cfg.database.path) then cfg.(database := cfg.database.(path := DefaultDatabasePath)) else cfg;
    if requireSessionSecret && !IsLocalDevelopment(c.environment) && c.auth.sessionSecret == [] then
      Err(SessionSecretRequired)
    else if IsLocalDevelopment(c.environment) && c.auth.sessionSecret == [] then
      Ok(c.(auth := c.auth.(sessionSecret := LocalSessionSecret)))
    else Ok(c)
  }

  /** load over settings already read: validate the port, assemble, then finish. */
  function Build(raw: RawSettings, requireSessionSecret: bool): Result<Config, ConfigError>
  {
    if !ValidPort(raw.port) then Err(InvalidPort(raw.port))
    else Finish(Assemble(raw), requireSessionSecret)
  }

  /** load(requireSessionSecret); Load passes true and LoadForTool passes false. */
  function Load(env: Env, requireSessionSecret: bool): Result<Config, ConfigError>
  {
    Build(Read(env), requireSessionSecret)
  }

  // ---------------------------------------------------------------------------
  // What load promises

  lemma DefaultDatabasePathNotBlank()
    ensures !IsBlank(DefaultDatabasePath)
  {
    NotBlankByHead(DefaultDatabasePath);
  }

  /** What the last steps of load change: only the database path and the session secret. */
  lemma FinishFacts(cfg: Config, requireSessionSecret: bool)
    ensures Finish(cfg, requireSessionSecret) == Err(SessionSecretRequired) <==>
      requireSessionSecret && !IsLocalDevelopment(cfg.environment) && cfg.auth.sessionSecret == []
    ensures Finish(cfg, requireSessionSecret).Ok? ==>
      var c := Finish(cfg, requireSessionSecret).value;
      c.environment == cfg.environment && c.server == cfg.server && c.observability == cfg.observability &&
      c.ingestion == cfg.ingestion && c.integrations == cfg.integrations &&
      c.database.logTiming == cfg.database.logTiming &&
      c.database.path == (if IsBlank(cfg.database.path) then DefaultDatabasePath else cfg.database.path) &&
      c.auth.(sessionSecret := cfg.auth.sessionSecret) == cfg.auth &&
      c.auth.sessionSecret ==
        (if IsLocalDevelopment(cfg.environment) && cfg.auth.sessionSecret == [] then LocalSessionSecret
         else cfg.auth.sessionSecret)
  {
  }

  /** The fields of the assembled configuration that load's promises speak about. */
  lemma AssembleFacts(raw: RawSettings)
    ensures var c := Assemble(raw);
      c.environment == EnvironmentOf(raw) && c.server.port == raw.port &&
      c.database.path == TrimSpace(raw.databasePath) && c.auth.sessionSecret == TrimSpace(raw.sessionSecret) &&
      c.auth.gitHubCallbackUrl != [] &&
      c.ingestion.batchSize == ClampBatchSize(raw.batchSize) &&
      c.ingestion.batchFlushMs == ClampBatchFlushMs(raw.batchFlushMs) &&
      c.observability.serviceName != [] && c.observability.serviceVersion != [] &&
      (c.observability.enabled <==> raw.otelEnabled || !IsBlank(raw.otlpEndpoint) || raw.metricsConsole) &&
      c.observability.otlpTraceHeaders == MergedHeaders(ParsedHeaders(raw.otlpHeaders), ParsedHeaders(raw.otlpTraceHeaders)) &&
      c.observability.otlpMetricHeaders == MergedHeaders(ParsedHeaders(raw.otlpHeaders), ParsedHeaders(raw.otlpMetricHeaders))
  {
  }

  /** A port outside 1..65535 is rejected with that port; a valid one is kept. */
  lemma BuildPort(raw: RawSettings, requireSessionSecret: bool)
    ensures Build(raw, requireSessionSecret) == Err(InvalidPort(raw.port)) <==> !ValidPort(raw.port)
    ensures Build(raw, requireSessionSecret).Ok? ==> Build(raw, requireSessionSecret).value.server.port == raw.port
  {
    if ValidPort(raw.port) {
      var c := Assemble(raw);
      AssembleFacts(raw);
      FinishFacts(c, requireSessionSecret);
    }
  }

  /** The session secret is required exactly outside local development, and never for tools. */
  lemma BuildSessionSecretRequired(raw: RawSettings, requireSessionSecret: bool)
    ensures Build(raw, requireSessionSecret) == Err(SessionSecretRequired) <==>
      ValidPort(raw.port) && requireSessionSecret && !IsLocalDevelopment(EnvironmentOf(raw)) && IsBlank(raw.sessionSecret)
    ensures Build(raw, false).Err? ==> Build(raw, false) == Err(InvalidPort(raw.port))
  {
    if ValidPort(raw.port) {
      var c := Assemble(raw);
      AssembleFacts(raw);
      FinishFacts(c, requireSessionSecret);
      FinishFacts(c, false);
    }
  }

  /** The loaded secret is the trimmed setting, or the local fallback when that is blank in local development. */
  lemma BuildSessionSecret(raw: RawSettings, requireSessionSecret: bool)
    requires Build(raw, requireSessionSecret).Ok?
    ensures var c := Build(raw, requireSessionSecret).value;
      c.auth.sessionSecret ==
        if IsLocalDevelopment(EnvironmentOf(raw)) && IsBlank(raw.sessionSecret) then LocalSessionSecret
        else TrimSpace(raw.sessionSecret)
    ensures var c := Build(raw, requireSessionSecret).value;
      requireSessionSecret || IsLocalDevelopment(c.environment) ==> c.auth.sessionSecret != []
  {
    var c := Assemble(raw);
    assert c.environment == EnvironmentOf(raw) && c.auth.sessionSecret == TrimSpace(raw.sessionSecret) by {
      AssembleFacts(raw);
    }
    FinishSecret(c, requireSessionSecret);
  }

  /** Finish sets the secret to the local fallback only when it is empty in local development. */
  lemma FinishSecret(cfg: Config, requireSessionSecret: bool)
    requires Finish(cfg, requireSessionSecret).Ok?
    ensures Finish(cfg, requireSessionSecret).value.environment == cfg.environment
    ensures Finish(cfg, requireSessionSecret).value.auth.sessionSecret ==
      (if IsLocalDevelopment(cfg.environment) && cfg.auth.sessionSecret == [] then LocalSessionSecret
       else cfg.auth.sessionSecret)
    ensures requireSessionSecret ==> cfg.auth.sessionSecret != [] || IsLocalDevelopment(cfg.environment)
  {
  }

  /** Batch size and flush interval are clamped into range; names and paths are never blank. */
  lemma BuildBounds(raw: RawSettings, requireSessionSecret: bool)
    requires Build(raw, requireSessionSecret).Ok?
    ensures var c := Build(raw, requireSessionSecret).value;
      1 <= c.ingestion.batchSize <= MaxBatchSize && 1 <= c.ingestion.batchFlushMs <= MaxBatchFlushMs
    ensures var c := Build(raw, requireSessionSecret).value;
      c.ingestion.batchSize == ClampBatchSize(raw.batchSize) && c.ingestion.batchFlushMs == ClampBatchFlushMs(raw.batchFlushMs)
    ensures var c := Build(raw, requireSessionSecret).value;
      !IsBlank(c.database.path) && c.observability.serviceName != [] &&
      c.observability.serviceVersion != [] && c.auth.gitHubCallbackUrl != []
  {
    var c := Assemble(raw);
    AssembleFacts(raw);
    FinishFacts(c, requireSessionSecret);
    DefaultDatabasePathNotBlank();
  }

  /** Observability is on when asked for, when an endpoint is set, or when console metrics are on. */
  lemma BuildObservability(raw: RawSettings, requireSessionSecret: bool)
    requires Build(raw, requireSessionSecret).Ok?
    ensures var o := Build(raw, requireSessionSecret).value.observability;
      o.enabled <==> raw.otelEnabled || !IsBlank(raw.otlpEndpoint) || raw.metricsConsole
    ensures var o := Build(raw, requireSessionSecret).value.observability;
      o.otlpTraceHeaders == MergedHeaders(ParsedHeaders(raw.otlpHeaders), ParsedHeaders(raw.otlpTraceHeaders)) &&
      o.otlpMetricHeaders == MergedHeaders(ParsedHeaders(raw.otlpHeaders), ParsedHeaders(raw.otlpMetricHeaders))
  {
    var c := Assemble(raw);
    AssembleFacts(raw);
    FinishFacts(c, requireSessionSecret);
  }

  /** LoadForTool with no port set always succeeds, on the default port 8080. */
  lemma LoadForToolDefaultPort(env: Env)
    requires "ddash_port" !in env
    ensures Load(env, false).Ok? && Load(env, false).value.server.port == DefaultPort
  {
    var raw := Read(env);
    assert raw.port == DefaultPort;
    BuildPort(raw, false);
    BuildSessionSecretRequired(raw, false);
  }
}
