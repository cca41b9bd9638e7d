# ddash core, modelled in Dafny

ddash is a Go deployment dashboard. It accepts signed webhook deliveries of CDEvents, whose type
names look like `dev.cdevents.<subject>.<predicate>.<version>`. GitHub and GitLab bridges turn
provider webhooks into such events. The events are stored and projected into service and
environment read models, and organizations, members and settings are managed on top. A set of
k6 scripts fabricates and signs deliveries for load tests.

This project models the deterministic decision and transformation logic of that system and
proves what it promises. One Dafny module stands for each core source file or component:

- **Event construction.** The modules are `EventPublisher` and `CDEvents` (type normalization,
  subject inference, `BuildEventBody`) and `GitHubBridge`, `GitLabBridge` and `Bridge` (the
  provider converters). `Backfill` covers backfill naming and purl sanitizing.
  `LoadTestCommon`, `LoadTestIngest` and `LoadTestMixed` cover the k6 event factory and its
  sequence counters.
- **Webhook admission.** `Ingestion` models the current ingestion path, `LegacyIngestion` the older
  one and `CustomWebhook` and `WebhookHttp` the custom webhook handlers. `HttpReply` maps each
  ingest error to its HTTP status. `WebhookAuth` holds the bearer-token parsers, the
  case-sensitive one and the case-insensitive one. `GitHubAppIngestor` covers the GitHub App
  ingestor's setup intents, signatures and webhook and callback decisions.
- **Read models.** `EventStore` covers event appends and their projections.
  `ServiceRead` and `ServiceMetadata` cover environment priority order, change-log enrichment,
  and required-metadata fields, counts and tags. `ServiceCatalog` covers dependency input,
  lead-time summaries, the dependency graph and dependency writes. `SqliteReadStore` and
  `SqliteRelativeAge` cover the SQLite read store's mappers and relative ages. `RouteUtils`
  covers the status mappers and the status cycle, and `ViewServices` covers masking, history
  trimming and the dependency feature gate.
- **Organizations and configuration.** `OrgManagement` covers roles, default organization
  names and last-owner and last-organization protection. `OrgConfig` covers settings defaults,
  parsing and the environment-order merge, and `MetadataWrite` covers strict metadata writes.
  `AppStore` models the SQLite application store's guards and transactional row plans, and
  `GitHubIntegration` the install flow. `ProcessConfig` covers process configuration, OTLP
  headers and environment resolution.
- **In-memory state.** `AuthSession` reads the session user and organization.
  `FragmentCache` is the LRU fragment cache with TTL, a class whose fields change in place.
  `QueryMetrics` is the per-query latency window tracker, also a class.

`GoStrings` (an ASCII subset of Go's `strings`), `Sorting` (a stable insertion sort with its
permutation and ordering lemmas) and `Wrappers` (`Option`, `Result`) are shared helpers.

Conventions:

- Strings are `seq<char>`. `TrimSpace` trims ASCII white space and `ToLower` folds `A`-`Z` only.
- Go errors are `Result`/`Option` values, or error datatypes whose messages are functions.
- HMAC-SHA256 with hex encoding, the clock, random tokens, JSON decoding, the CDEvents SDK's
  validation and every store answer are parameters. A store write is returned as the recorded
  write, or modelled as a function over a store value.
- Integers are unbounded. Durations and timestamps are integers.

## Model

| member | source | states |
|---|---|---|
| CDEvents.ShortNamesKeys | pkg/eventpublisher/normalize.go:7-23 | the versioned-to-short table is keyed by exactly the eight SDK delivery types and its inverse by exactly the five service and three environment short names |
| CDEvents.ShortNameOf | pkg/eventpublisher/normalize.go:8-23 | every delivery type has a short name whose versioned type is the delivery type again |
| CDEvents.VersionedNameOf | loadtest/common.js:10-19 | every short name's versioned type is a delivery type whose short name is the short name again (the two tables are inverse) |
| CDEvents.ShortNameLower | pkg/eventpublisher/normalize.go:9-23 | the short names are already lower-case |
| CDEvents.ShortNameTrimmed | pkg/eventpublisher/normalize.go:9-23 | the short names are non-empty and have no surrounding space |
| CDEvents.ShortNameNotVersioned | pkg/eventpublisher/normalize.go:9-23 | no short name is itself a versioned type |
| CDEvents.ServiceShortNamePrefix | pkg/eventpublisher/normalize.go:9-17 | every service short name starts with "service." |
| CDEvents.ServiceNotEnvironment | pkg/eventpublisher/normalize.go:9-23 | service and environment short names are disjoint |
| CDEvents.ServiceShortNameSplit | pkg/eventpublisher/build.go:42-110 | among service types, removed and published are exactly those other than deployed, upgraded and rolled back |
| CDEvents.CustomPrefixNotService | apps/ddash/internal/app/services/ingestion.go:60-65 | a type with a custom prefix is neither a "service." type nor any short name |
| CDEvents.VersionedTypeFolded | apps/ddash/internal/app/services/ingestion.go:49-58 | every delivery type is lower-case and trimmed |
| CDEvents.DeliveryTypesNotCustom | apps/ddash/internal/app/services/ingestion.go:49-65 | no exact delivery type starts with a custom prefix: the two admission routes are disjoint |
| CDEvents.ChangeTypeCustom | apps/ddash/internal/app/services/ingestion.go:60-65 | "dev.cdevents.change.<p>.0.3.0" over a lower-case predicate is folded and has a custom prefix |
| CDEvents.PipelineRunTypeCustom | apps/ddash/internal/app/services/ingestion.go:60-65 | the three pipeline-run types are folded and have a custom prefix |
| CDEvents.PipelineTypeCustom | apps/ddash/internal/app/services/ingestion.go:60-65 | any lower-case "dev.cdevents.pipeline.…0" name is folded and has a custom prefix |
| EventPublisher.NormalizeType | pkg/eventpublisher/normalize.go:5-27 | the resolved type is non-empty, lower-case and trimmed |
| EventPublisher.NormalizeTypeBlank | pkg/eventpublisher/normalize.go:5-9 | a blank type, whatever its white space, resolves to "service.deployed" |
| EventPublisher.NormalizeTypeIdempotent | pkg/eventpublisher/normalize.go:5-27 | normalizing a resolved type changes nothing |
| EventPublisher.NormalizeVersionedType | pkg/eventpublisher/normalize.go:8-23 | a versioned service or environment type, however cased or padded, resolves to the short name whose versioned type is that type folded |
| EventPublisher.NormalizeOtherType | pkg/eventpublisher/normalize.go:24-25 | any other non-blank name resolves to itself trimmed and lower-cased |
| EventPublisher.InferSubjectType | pkg/eventpublisher/normalize.go:29-46 | the inferred subject type is one of the six subject types and follows the prefix/substring rules in order, with "service" as default |
| EventPublisher.InferSubjectId | pkg/eventpublisher/normalize.go:48-62 | empty exactly when the service is blank and the subject is not an environment with an environment; a service with "/" is kept, otherwise it is qualified by the subject type; an environment gives "environment/<env>" |
| EventPublisher.IsAcceptedCustomType | pkg/eventpublisher/normalize.go:64-70 | true exactly when the trimmed, lower-cased type starts with one of the four custom prefixes |
| EventPublisher.IsAcceptedCustomTypeOfFolded | pkg/eventpublisher/normalize.go:64-70 | on a folded type the test is the plain prefix test |
| EventPublisher.ResolvedSubjectType | pkg/eventpublisher/build.go:27-31 | the subject type after defaulting is never blank |
| EventPublisher.QualifiedSubjectId | pkg/eventpublisher/build.go:38-40 | the subject id that is sent always contains "/" |
| EventPublisher.BuildGenericEventBody | pkg/eventpublisher/build.go:167-197 | spec version "0.5.0", id and timestamp from the clock, context and subject source equal, trimmed environment, artifact, pipeline and actor, and a chain id present exactly when it is not blank |
| EventPublisher.Prepare | pkg/eventpublisher/build.go:14-40 | the resolved type is folded and the prepared subject id contains "/" |
| EventPublisher.BuildEventBody | pkg/eventpublisher/build.go:13-165 | a missing subject is reported exactly when no subject id can be resolved; a built body carries the trimmed source (default "ci/pipeline") and a qualified subject id; an unsupported type is reported with the type as given |
| EventPublisher.BuildTypedBodyFields | pkg/eventpublisher/build.go:42-164 | every branch of the type switch keeps the prepared source and subject id and never reports a missing subject |
| EventPublisher.ServiceBodyFields | pkg/eventpublisher/build.go:43-110 | a service type yields a service event or the service-and-environment error |
| EventPublisher.EnvironmentBodyFields | pkg/eventpublisher/build.go:111-146 | an environment type yields an environment event or the environment error |
| EventPublisher.OtherBodyFields | pkg/eventpublisher/build.go:147-163 | any other type yields a generic body or the unsupported-type error |
| EventPublisher.BuildTypedBodyAdmission | pkg/eventpublisher/build.go:42-164 | the switch succeeds exactly when the service/environment requirements of the type hold, or the type has a custom prefix |
| EventPublisher.BuildEventBodyAdmission | pkg/eventpublisher/build.go:13-165 | the builder succeeds exactly on admissible events |
| EventPublisher.BuildTypedBodyTypeName | pkg/eventpublisher/build.go:42-164 | service/environment bodies go out under the versioned SDK type of the resolved name, generic bodies under the resolved custom name |
| EventPublisher.BuildEventBodyTypeName | pkg/eventpublisher/build.go:21-164 | the same, stated over the original event |
| EventPublisher.BuildTypedBodyArtifact | pkg/eventpublisher/build.go:54-108 | deployed, upgraded and rolled-back bodies carry the artifact, removed and published ones carry none, generic bodies carry it trimmed |
| EventPublisher.BuildEventBodyArtifact | pkg/eventpublisher/build.go:22-25 | a blank artifact of a service type becomes "pkg:generic/<service>@<unix seconds>" |
| EventPublisher.PipelineTypesArePipelineSubjects | pkg/eventpublisher/normalize.go:35-36 | a pipeline type infers the "pipeline" subject |
| EventPublisher.DeliveryTypesRoundTrip | pkg/eventpublisher/build.go:56-146 | each of the eight SDK types resolves to a short name that is sent back under the same SDK type |
| EventPublisher.ServiceEventAdmissible | pkg/eventpublisher/build.go:43-46 | a service short type naming a service and an environment is always built |
| EventPublisher.ShortNameResolves | pkg/eventpublisher/normalize.go:5-27 | a short name resolves to itself |
| EventPublisher.CustomEventAdmissible | pkg/eventpublisher/build.go:147-161 | a folded custom type with a subject id is always built |
| Bridge.ShortSHA | apps/githubappingestor/internal/githubbridge/converter.go:252-261 | "unknown" for a blank value, otherwise a prefix of the trimmed value of at most 12 characters, the whole value when it is that short |
| Bridge.DefaultEnvironment | apps/githubappingestor/internal/githubbridge/converter.go:263-269 | the trimmed configured environment, or "production" when it is blank; never blank |
| Bridge.DefaultSource | apps/githubappingestor/internal/githubbridge/converter.go:271-277 | the trimmed configured source, or the bridge's fallback when it is blank |
| Bridge.FirstNonEmptyBlank | apps/gitlabingestor/internal/gitlabbridge/converter.go:286-294 | firstNonEmpty gives "" exactly when every value is blank |
| Bridge.FirstNonEmptyIsFirst | apps/gitlabingestor/internal/gitlabbridge/converter.go:286-294 | it gives the first non-blank value, trimmed |
| Bridge.FirstNonEmpty3 | apps/gitlabingestor/internal/gitlabbridge/converter.go:286-294 | the three-argument case written out |
| Bridge.FirstNonEmpty2 | apps/gitlabingestor/internal/gitlabbridge/converter.go:286-294 | the two-argument case written out |
| Bridge.ServiceShapeAdmissible | pkg/eventpublisher/build.go:42-110 | a converted service event with a trimmed service and an environment is accepted by the event builder |
| Bridge.PipelineShapeAdmissible | pkg/eventpublisher/build.go:147-161 | a converted pipeline-run event with a "pipeline/" subject is accepted by the event builder |
| Bridge.ChangeShapeAdmissible | pkg/eventpublisher/build.go:147-161 | a converted change event with a "change/" subject is accepted by the event builder |
| GitHubBridge.Convert | apps/githubappingestor/internal/githubbridge/converter.go:16-31 | an unknown GitHub event name gives no event and no error; every conversion yields at most one event |
| GitHubBridge.ConvertRelease | apps/githubappingestor/internal/githubbridge/converter.go:33-71 | fails only on an undecodable body; one service.published event exactly for a "published" action on a named repository, with the tag (default "latest") as artifact version |
| GitHubBridge.DeploymentStateType | apps/githubappingestor/internal/githubbridge/converter.go:98-107 | success means deployed, failure/error/inactive mean removed, anything else means upgraded |
| GitHubBridge.DeploymentEnvironment | apps/githubappingestor/internal/githubbridge/converter.go:108-114 | the status environment, else the deployment environment, else the default; never blank |
| GitHubBridge.ConvertDeploymentStatus | apps/githubappingestor/internal/githubbridge/converter.go:73-128 | fails only on an undecodable body; one event exactly for a named repository, typed by the state and carrying the short SHA |
| GitHubBridge.WorkflowRunType | apps/githubappingestor/internal/githubbridge/converter.go:154-162 | started unless the action is "completed" (any case), succeeded when completed with a "success" conclusion, failed otherwise |
| GitHubBridge.ConvertWorkflowRun | apps/githubappingestor/internal/githubbridge/converter.go:130-175 | fails only on an undecodable body; one pipeline-run event exactly for a named repository, with a "pipeline/<service>/<id>" subject |
| GitHubBridge.ConvertPush | apps/githubappingestor/internal/githubbridge/converter.go:177-205 | fails only on an undecodable body; one change.pushed event exactly for a named repository, subject "change/<short sha>", chain id the delivery id |
| GitHubBridge.PullRequestSuffix | apps/githubappingestor/internal/githubbridge/converter.go:231-238 | "merged" for a closed merged pull request, "updated" for a blank action, otherwise the folded action |
| GitHubBridge.ConvertPullRequest | apps/githubappingestor/internal/githubbridge/converter.go:207-250 | fails only on an undecodable body; one change event exactly for a named repository, subject "change/pr-<number>" |
| GitHubBridge.ConvertReleaseAdmissible | apps/githubappingestor/internal/githubbridge/converter.go:57-70 | every release event it emits is accepted by the event builder |
| GitHubBridge.ConvertDeploymentStatusAdmissible | apps/githubappingestor/internal/githubbridge/converter.go:108-127 | every deployment event it emits is accepted by the event builder |
| GitHubBridge.ConvertWorkflowRunAdmissible | apps/githubappingestor/internal/githubbridge/converter.go:154-174 | every workflow event it emits is accepted by the event builder |
| GitHubBridge.ConvertPushAdmissible | apps/githubappingestor/internal/githubbridge/converter.go:190-204 | every push event it emits is accepted by the event builder |
| GitHubBridge.ConvertPullRequestAdmissible | apps/githubappingestor/internal/githubbridge/converter.go:227-249 | every pull-request event it emits is accepted by the event builder |
| GitHubBridge.ConvertAdmissible | apps/githubappingestor/internal/githubbridge/converter.go:16-31 | every event the GitHub bridge emits is accepted by the event builder |
| GitLabBridge.Convert | apps/gitlabingestor/internal/gitlabbridge/converter.go:16-31 | an unknown GitLab hook name gives no event and no error; every conversion yields at most one event |
| GitLabBridge.ExtractProjectId | apps/gitlabingestor/internal/gitlabbridge/converter.go:33-50 | the positive top-level project id, else the positive nested one, else none (also for an undecodable body) |
| GitLabBridge.PushService | apps/gitlabingestor/internal/gitlabbridge/converter.go:65-72 | the project name, else the repository name, trimmed; empty only when both are blank |
| GitLabBridge.ConvertPush | apps/gitlabingestor/internal/gitlabbridge/converter.go:52-83 | fails only on an undecodable body; one change.pushed event exactly when a service name is found |
| GitLabBridge.TagName | apps/gitlabingestor/internal/gitlabbridge/converter.go:103-106 | the ref without "refs/tags/", or "latest" when that is empty |
| GitLabBridge.ConvertTagPush | apps/gitlabingestor/internal/gitlabbridge/converter.go:85-116 | fails only on an undecodable body; one service.published event exactly for a named project |
| GitLabBridge.PipelineStatusType | apps/gitlabingestor/internal/gitlabbridge/converter.go:141-148 | success means succeeded, failed/canceled mean failed, anything else means started |
| GitLabBridge.PipelineEnvironment | apps/gitlabingestor/internal/gitlabbridge/converter.go:149-152 | the ref, else the default environment; never blank |
| GitLabBridge.ConvertPipeline | apps/gitlabingestor/internal/gitlabbridge/converter.go:118-165 | fails only on an undecodable body; one pipeline-run event exactly for a named project |
| GitLabBridge.DeploymentStatusType | apps/gitlabingestor/internal/gitlabbridge/converter.go:187-194 | success means deployed, failed/canceled mean removed, anything else means upgraded |
| GitLabBridge.DeploymentEnvironment | apps/gitlabingestor/internal/gitlabbridge/converter.go:195-198 | the deployment environment, else the default; never blank |
| GitLabBridge.ConvertDeployment | apps/gitlabingestor/internal/gitlabbridge/converter.go:167-209 | fails only on an undecodable body; one service event exactly for a named project |
| GitLabBridge.DeploymentShaPreference | apps/gitlabingestor/internal/gitlabbridge/converter.go:199 | the short SHA is preferred over the full one |
| GitLabBridge.MergeRequestSuffix | apps/gitlabingestor/internal/gitlabbridge/converter.go:235-245 | the folded action, else the folded state; "merge"/"merged" become "merged" and an empty one "updated" |
| GitLabBridge.ConvertMergeRequest | apps/gitlabingestor/internal/gitlabbridge/converter.go:210-258 | fails only on an undecodable body; one change event exactly for a named project, subject "change/mr-<iid>" |
| GitLabBridge.ConvertPushAdmissible | apps/gitlabingestor/internal/gitlabbridge/converter.go:52-83 | every push event it emits is accepted by the event builder |
| GitLabBridge.ConvertTagPushAdmissible | apps/gitlabingestor/internal/gitlabbridge/converter.go:85-116 | every tag event it emits is accepted by the event builder |
| GitLabBridge.ConvertPipelineAdmissible | apps/gitlabingestor/internal/gitlabbridge/converter.go:118-165 | every pipeline event it emits is accepted by the event builder |
| GitLabBridge.ConvertDeploymentAdmissible | apps/gitlabingestor/internal/gitlabbridge/converter.go:167-209 | every deployment event it emits is accepted by the event builder |
| GitLabBridge.ConvertMergeRequestAdmissible | apps/gitlabingestor/internal/gitlabbridge/converter.go:210-258 | every merge-request event it emits is accepted by the event builder |
| GitLabBridge.ConvertAdmissible | apps/gitlabingestor/internal/gitlabbridge/converter.go:16-31 | every event the GitLab bridge emits is accepted by the event builder |
| Bridge.GenericPurl | apps/githubappingestor/internal/githubbridge/converter.go:67 | the artifact id starts with "pkg:generic/", and the name and the version are read back unchanged from either side of the "@" that follows the name |
| Backfill.ServiceEventForStatus | cmd/eventbackfill/main.go:116-127 | a legacy status maps to service.rolledback exactly when it is "error" in any case, and to service.deployed otherwise |
| Backfill.CleanChar | cmd/eventbackfill/main.go:163-169 | a character outside letters, digits, ".", "_" and "-" becomes "-"; the result is always a package-URL character |
| Backfill.CleanChars | cmd/eventbackfill/main.go:162-170 | the cleaned text has the same length, each character cleaned in place, all package-URL characters |
| Backfill.SanitizedName | cmd/eventbackfill/main.go:160-176 | the sanitized name is never empty, holds only package-URL characters and has no leading or trailing "-" or "." |
| Backfill.SanitizePurlName | cmd/eventbackfill/main.go:160-176 | the rune loop computes the sanitized name |
| Backfill.CleanNameTrimmed | cmd/eventbackfill/main.go:160-161 | a name of package-URL characters has no surrounding space |
| Backfill.CleanNameClean | cmd/eventbackfill/main.go:162-170 | cleaning a name of package-URL characters changes nothing |
| Backfill.SanitizedNameIdempotent | cmd/eventbackfill/main.go:160-176 | sanitizing a sanitized name changes nothing |
| Backfill.ArtifactForBackfill | cmd/eventbackfill/main.go:153-158 | "pkg:generic/<sanitized service>@" followed by the trimmed release ref, or "backfill-<id>" when the ref is null or blank |
| Backfill.EventIdInjective | cmd/eventbackfill/main.go:63 | distinct legacy deployment ids give distinct "backfill-deployment-<id>" event ids |
| Backfill.EventsFor | cmd/eventbackfill/main.go:56-70 | one candidate event per legacy row |
| Backfill.Converted | cmd/eventbackfill/main.go:55-103 | the converted events are at most the candidates |
| Backfill.RunBackfill | cmd/eventbackfill/main.go:55-110 | the count is the number of events validated (and appended unless a dry run), and a dry run writes nothing |
| Backfill.ConvertedFromEvents | cmd/eventbackfill/main.go:71-103 | every converted event is a candidate that validated and, unless dry-run, was appended |
| Backfill.ConvertedComplete | cmd/eventbackfill/main.go:71-103 | every candidate that validated and, unless dry-run, was appended is counted |
| LoadTestCommon.OrElse | loadtest/common.js:25-33 | JavaScript's `value \|\| fallback` on strings: the value unless it is missing or empty |
| LoadTestCommon.CdeventType | loadtest/common.js:9-21 | a short name maps to the delivery type whose short name it is; anything else passes through |
| LoadTestCommon.CdeventTypeOfVersioned | loadtest/common.js:9-21 | a delivery type passes through unchanged |
| LoadTestCommon.SequenceText | loadtest/common.js:28-32 | a non-zero sequence is used as the id suffix (otherwise the clock) |
| LoadTestCommon.BuildServiceEvent | loadtest/common.js:23-55 | defaults "orders", "staging", "service.deployed" and "loadtest/k6"; subject "service/<service>"; spec version "0.5.0"; id "lt-<service>-<sequence>" |
| LoadTestCommon.LoadEventIdInjective | loadtest/common.js:32 | distinct non-zero sequences give distinct event ids |
| LoadTestCommon.WebhookHeaders | loadtest/common.js:57-64 | exactly the bearer token, the HMAC-SHA256 hex signature of the body under the secret, and the JSON content type |
| LoadTestCommon.WebhookRequest | loadtest/common.js:66-76 | the delivery goes to "<base>/webhooks/cdevents" with the signature of the very body it sends |
| LoadTestCommon.DevLoginForm | loadtest/common.js:78-84 | the four form fields, with non-empty email and next defaults |
| LoadTestIngest.IncludeCustomTypes | loadtest/ingest.js:32 | custom types are included exactly when the variable, lower-cased, is "true"; a missing one means no |
| LoadTestIngest.IngestParams | loadtest/ingest.js:45-52 | the selector picks orders/billing and production/staging; the chain id groups by sequence/3 and the run id carries the sequence |
| LoadTestIngest.IngestEventType | loadtest/ingest.js:36-43 | selector 7 is rolled back, 8 published, 9 the pipeline-run type only when custom types are on, all else deployed |
| LoadTestIngest.IngestEventDeliveryType | loadtest/ingest.js:36-43 | every event is a delivery type except the optional pipeline-run one |
| LoadTestIngest.IngestEventIdentity | loadtest/ingest.js:45-52 | the event id is "lt-<service>-<sequence>" with the chain of the sequence |
| LoadTestIngest.ChainIdShared | loadtest/ingest.js:50 | three consecutive sequences share a chain id |
| LoadTestIngest.ChainIdDistinct | loadtest/ingest.js:50 | sequences in different groups of three have different chain ids |
| LoadTestIngest.IngestScenario.constructor | loadtest/ingest.js:31-32 | the counter starts at 0 and the custom-type switch is read once |
| LoadTestIngest.IngestScenario.RunIngest | loadtest/ingest.js:34-57 | the counter goes up by one and the payload is the event for the new sequence |
| LoadTestMixed.MixedParams | loadtest/mixed.js:43-49 | service, environment and chain id ("mixed-chain-<sequence/4>") chosen by the sequence |
| LoadTestMixed.MixedEventType | loadtest/mixed.js:44 | rolled back exactly on every sixth sequence, deployed otherwise |
| LoadTestMixed.MixedEventTarget | loadtest/mixed.js:45-46 | the subject and environment the sequence selects |
| LoadTestMixed.MixedChainShared | loadtest/mixed.js:48 | four consecutive sequences share a chain id |
| LoadTestMixed.LoginCallsAtMostOnce | loadtest/mixed.js:35-39 | any number of calls logs in at most once, and not at all when already logged in |
| LoadTestMixed.MixedScenario.constructor | loadtest/mixed.js:32-33 | counter 0 and not logged in |
| LoadTestMixed.MixedScenario.EnsureLogin | loadtest/mixed.js:35-39 | logs in exactly when not yet logged in and leaves the flag set |
| LoadTestMixed.MixedScenario.RunIngest | loadtest/mixed.js:41-52 | the counter goes up by one and the payload is the event for the new sequence |
| LoadTestMixed.MixedScenario.RunRead | loadtest/mixed.js:54-61 | ensures a login and reads "<base>/s/orders" without touching the counter |
| WebhookAuth.BearerToken | apps/ddash/internal/app/services/ingestion.go:525-535 | a token is returned only after the case-sensitive "Bearer " prefix of the trimmed header, and it is non-empty and trimmed |
| WebhookAuth.LenientBearerToken | internal/webhooks/custom/handler.go:108-114 | succeeds exactly when the trimmed header starts with "Bearer " and returns the trimmed rest, possibly empty |
| WebhookAuth.StrictIsLenientNonEmpty | internal/app/services/ingestion.go:254-264 | the strict parser succeeds exactly when the lenient one gives a non-empty token, and then both give the same token |
| WebhookAuth.LenientTokenNotEmpty | internal/webhooks/custom/handler.go:108-114 | because the header is trimmed before the prefix test, a lenient token is never empty, so both parsers accept the same headers |
| WebhookAuth.BearerTokenRoundTrip | apps/ddash/internal/app/services/ingestion.go:525-535 | "Bearer " followed by a trimmed non-empty token parses back to that token under both parsers |
| WebhookAuth.ValidBearerToken | apps/ddash/internal/webhooks/custom/handler_github_app.go:101-115 | accepted exactly when the expected key is non-blank, the trimmed header starts with "bearer " in any case, and the trimmed rest equals the trimmed key |
| WebhookAuth.AnySchemeCaseAccepted | apps/ddash/internal/webhooks/custom/handler_github_app.go:107-115 | any capitalisation of "Bearer " followed by the expected token is accepted |
| WebhookAuth.LowerPrefix | apps/ddash/internal/webhooks/custom/handler_github_app.go:107 | a prefix stays a prefix after lower-casing both strings |
| WebhookAuth.StrictImpliesValid | apps/ddash/internal/webhooks/custom/handler_github_app.go:101-115 | a header the strict parser accepts with the expected token also passes the case-insensitive check |
| WebhookAuth.SchemeCaseDiffers | apps/ddash/internal/webhooks/custom/handler_github_app.go:107 | "bearer <token>" is refused by both case-sensitive parsers and accepted by the case-insensitive one |
| WebhookAuth.ValidSignature | apps/ddash/internal/app/services/ingestion.go:537-546 | the signature is valid exactly when, trimmed and lower-cased, it is non-empty and equals the hex HMAC-SHA256 of the body under the secret |
| WebhookAuth.SignatureAccepted | apps/ddash/internal/app/services/ingestion.go:537-546 | the sender's own hex HMAC is accepted |
| WebhookAuth.SignatureCaseInsensitive | apps/ddash/internal/app/services/ingestion.go:538 | the hex signature is compared without regard to case |
| Ingestion.KindNameInjective | apps/ddash/internal/app/services/ingestion.go:79-99 | the error-kind names are pairwise distinct |
| Ingestion.ClassifyIngestError | apps/ddash/internal/app/services/ingestion.go:137-160 | "unknown" exactly for no error or an unclassified failure; "busy" exactly for the queue-full error |
| Ingestion.ClassifySentinelsDistinct | apps/ddash/internal/app/services/ingestion.go:137-160 | distinct sentinel errors get distinct kinds |
| Ingestion.IsSupportedEventType | apps/ddash/internal/app/services/ingestion.go:324-338 | the loop computes the allow-list-or-prefix test on the trimmed type |
| Ingestion.HasAllowedPrefix | apps/ddash/internal/app/services/ingestion.go:332-337 | the prefix loop answers exactly whether the type starts with a custom prefix |
| Ingestion.AllowedPrefix | apps/ddash/internal/app/services/ingestion.go:60-65 | a type starting with a listed prefix has a custom prefix |
| Ingestion.NoAllowedPrefix | apps/ddash/internal/app/services/ingestion.go:60-65 | a type starting with no listed prefix has no custom prefix |
| Ingestion.StrictTypesSupported | apps/ddash/internal/app/services/ingestion.go:324-343 | every type that gets strict schema validation is supported, and a blank type is not |
| Ingestion.DeliveryTypeNotEmpty | apps/ddash/internal/app/services/ingestion.go:49-58 | no delivery type is empty |
| Ingestion.LookupOrganization | apps/ddash/internal/app/services/ingestion.go:345-363 | an organization is found exactly when the token's row exists and is enabled; a missing or disabled one reads as no rows |
| Ingestion.NonBlank | apps/ddash/internal/app/services/ingestion.go:211-222 | a trimmed value is kept exactly when it is not blank (chain id and subject source) |
| Ingestion.SubjectTypeOf | apps/ddash/internal/app/services/ingestion.go:195-204 | the trimmed subject of the type, else the parsed one, else "unknown"; never blank |
| Ingestion.ProcessEvent | apps/ddash/internal/app/services/ingestion.go:181-236 | an unparsable body is invalid payload; only supported types are recorded, strict types only when schema-valid, with the record's fields taken from the event |
| Ingestion.SchemaCheckedOnlyForStrictTypes | apps/ddash/internal/app/services/ingestion.go:189-193 | the schema verdict matters only for the eight strict types |
| Ingestion.UnsupportedBeforeSchema | apps/ddash/internal/app/services/ingestion.go:186-193 | an unsupported type is reported before any schema check |
| Ingestion.Authenticate | apps/ddash/internal/app/services/ingestion.go:162-181 | a missing bearer token is reported first; success needs a parsed token; every refusal is one of the three authentication errors or a store failure |
| Ingestion.AdmitOrganization | apps/ddash/internal/app/services/ingestion.go:167-181 | admitted exactly when the lookup found the organization and the signature verifies under its secret; no rows becomes invalid token |
| Ingestion.AuthenticatedOnlyAdmitted | apps/ddash/internal/app/services/ingestion.go:162-181 | an authenticated organization is the enabled row of the token whose secret verifies the signature |
| Ingestion.UnknownOrganizationRefused | apps/ddash/internal/app/services/ingestion.go:167-173 | an unknown or disabled organization gives invalid token |
| Ingestion.BadSignatureRefused | apps/ddash/internal/app/services/ingestion.go:176-178 | a bad signature gives invalid signature |
| Ingestion.Ingest | apps/ddash/internal/app/services/ingestion.go:162-239 | authentication errors come first; success means authenticated, processed and appended |
| Ingestion.IngestForOrganization | apps/ddash/internal/app/services/ingestion.go:242-305 | a non-positive organization id is invalid token; an unparsable body is invalid payload |
| Ingestion.IngestAsForOrganization | apps/ddash/internal/app/services/ingestion.go:162-305 | after authentication the two entry points behave identically |
| Ingestion.NewBatcher | apps/ddash/internal/app/services/ingestion.go:118-135 | batching exactly when enabled; size clamped to [1, 2000] with 100 for non-positive; interval 50ms when non-positive; queue eight times the size |
| Ingestion.DefaultBatcher | apps/ddash/internal/app/services/ingestion.go:118-135 | the default configuration gives size 100, 50ms and a queue of 800 |
| Ingestion.AppendRecord | apps/ddash/internal/app/services/ingestion.go:308-321 | a full queue is busy, a queued record gets the flush result, and without batching a store that cannot open fails |
| LegacyIngestion.LegacyLookupOrganization | internal/app/services/ingestion.go:192-209 | the store stays open exactly when an enabled organization is found; a store that cannot open is a failure |
| LegacyIngestion.LegacyAuthenticate | internal/app/services/ingestion.go:115-141 | a missing token comes first, then an unopenable store; never busy |
| LegacyIngestion.LegacyAuthenticateAgrees | internal/app/services/ingestion.go:115-141 | with an openable store it authenticates exactly as the current service |
| LegacyIngestion.LegacyProcessEvent | internal/app/services/ingestion.go:143-190 | an unparsable body is invalid payload, a schema failure is reported before the type check, and only the eight delivery types are recorded |
| LegacyIngestion.LegacyIngest | internal/app/services/ingestion.go:115-190 | authentication errors come first; success means an open store, authentication, processing and append |
| LegacyIngestion.LegacyAppendsOnlyAdmitted | internal/app/services/ingestion.go:115-190 | an accepted legacy delivery was authenticated as the current service would |
| LegacyIngestion.LegacyAcceptsFewer | internal/app/services/ingestion.go:143-190 | every event the legacy service records the current one records with the same fields |
| LegacyIngestion.CustomTypeDiffers | internal/app/services/ingestion.go:150-153 | a custom-prefix type is refused by the legacy service and accepted by the current one |
| LegacyIngestion.CustomTypeAccepted | apps/ddash/internal/app/services/ingestion.go:324-343 | a custom-prefix type is no delivery type, is supported, and skips strict validation |
| LegacyIngestion.CustomNotDelivery | apps/ddash/internal/app/services/ingestion.go:49-65 | a custom-prefix type is no delivery type |
| LegacyIngestion.PipelineRunDiffers | internal/app/services/ingestion.go:150-153 | the pipeline-run-started type, which the load test sends, is refused only by the legacy service |
| LegacyIngestion.LegacySchemaBeforeType | internal/app/services/ingestion.go:143-153 | with a bad schema and an unsupported type the legacy service says invalid schema and the current one unsupported type |
| CustomWebhook.HandlerBaseDir | internal/webhooks/custom/handler.go:47-52 | the handler's base directory is never blank: a non-blank setting is kept as given, a blank one becomes "data" |
| CustomWebhook.LookupOrganization | internal/webhooks/custom/handler.go:116-144 | a blank token, or one holding "..", "/" or "\\", is unauthorized without opening any database; a found organization is returned only when enabled, and a found row is accepted exactly when its enabled flag is non-zero |
| CustomWebhook.UnsafeTokenNeverOpens | internal/webhooks/custom/handler.go:116-124 | for an unsafe token the lookup answers unauthorized whatever the databases on disk would say |
| CustomWebhook.TraversalRefused | internal/webhooks/custom/handler.go:121-124 | any token containing ".." is refused, so a token cannot climb out of the base directory |
| CustomWebhook.TrimPayload | internal/webhooks/custom/handler.go:92-95 | the name, environment and reference of a payload are trimmed of surrounding white space and nothing else changes |
| CustomWebhook.Admit | internal/webhooks/custom/handler.go:55-98 | a missing bearer token gives 401 "missing auth token"; every rejection is a 401 or a 400; a payload is admitted only with a bearer token that opens an enabled organization, a body that was read, a valid signature under that organization's secret, and a decoded payload whose three fields are non-blank after trimming |
| CustomWebhook.TokenBeforeBody | internal/webhooks/custom/handler.go:56-72 | when the token is missing or does not open an organization, the outcome does not depend on the body and nothing is admitted |
| CustomWebhook.CustomDatabase.constructor | internal/webhooks/custom/handler.go:125-128 | a freshly opened organization database starts with no services, environments, instances or deployments |
| CustomWebhook.CustomDatabase.GetOrCreateService | internal/webhooks/custom/handler.go:202-215 | an existing service keeps its id; a new one gets the next id; no other table changes |
| CustomWebhook.CustomDatabase.GetOrCreateEnvironment | internal/webhooks/custom/handler.go:217-230 | an existing environment keeps its id; a new one gets the next id; no other table changes |
| CustomWebhook.CustomDatabase.ApplyDeployment | internal/webhooks/custom/handler.go:157-200 | the error returned is the first failing store call's; each table changes only when the calls up to its own write succeed: the service exists once getOrCreateService succeeds, it is marked "custom" after the mark, the environment exists after getOrCreateEnvironment, the instance is "synced" at the reference after the upsert, and one successful deployment row is appended only when every call succeeds; writes before a failure stay |
| CustomWebhook.AdmissionReply | internal/webhooks/custom/handler.go:99-105 | an admitted payload is answered 202 Accepted, a rejection with its own reply, and only a store error becomes an error |
| CustomWebhook.CompletionReply | internal/webhooks/custom/handler.go:100-105 | an admitted payload is answered 202 exactly when every store call succeeds, otherwise with no reply and the first failing call's error; a decision that did not admit keeps its own reply |
| CustomWebhook.Complete | internal/webhooks/custom/handler.go:99-105 | a payload that was not admitted leaves the database unchanged; an admitted one records its deployment for the payload's service and environment when every store call succeeds, and appends no deployment when one fails |
| CustomWebhook.Handle | internal/webhooks/custom/handler.go:55-106 | the reply is 202 exactly when the payload is admitted and every store call succeeds; a rejection keeps the admission's reply; a failed store call returns its error; the database changes only for an admitted payload, by one deployment when nothing fails |
| WebhookHttp.WriteIngestHttpError | apps/ddash/internal/webhooks/custom/handler.go:53-81 | authentication failures map to 401, payload and schema failures to 400, event-data failures to 422, and an unrecognised error to no reply |
| WebhookHttp.AuthenticationFailuresUnauthorized | apps/ddash/internal/webhooks/custom/handler.go:53-81 | every non-internal authentication failure is answered 401 |
| WebhookHttp.EventFailuresClientErrors | apps/ddash/internal/webhooks/custom/handler.go:53-81 | every non-internal failure while processing the event is answered 400 or 422 |
| WebhookHttp.IngestReply | apps/ddash/internal/webhooks/custom/handler.go:40-50 | the reply is 202 Accepted exactly when ingestion succeeded; a classified error gets its own status and message, an unclassified one becomes an error |
| WebhookHttp.HandleDelivery | apps/ddash/internal/webhooks/custom/handler.go:30-51 | an unreadable body is a 400 "invalid payload"; otherwise the reply is the one ingestion of the body decides |
| WebhookHttp.DeliveryAcceptedOnlyWhenIngested | apps/ddash/internal/webhooks/custom/handler.go:30-51 | a delivery is answered 202 exactly when the body was read and ingested without error |
| WebhookHttp.NewGitHubAppHandler | apps/ddash/internal/webhooks/custom/handler_github_app.go:31-38 | the handler keeps the trimmed ingestor key and whether a resolver was given |
| WebhookHttp.HandleGitHubApp | apps/ddash/internal/webhooks/custom/handler_github_app.go:40-99 | a blank ingestor key gives 503 "github app ingestion is not configured"; a wrong bearer token gives 401; otherwise the installation routing decides |
| WebhookHttp.RouteInstallation | apps/ddash/internal/webhooks/custom/handler_github_app.go:52-98 | without a resolver 503; a missing or non-positive installation id 400; an unreadable body 400 "invalid payload" with the read error returned; an unknown installation 404 "unknown github installation"; a failed lookup returns its error; a resolved organization gets the ingestion reply for that organization, 202 only when ingestion succeeded |
| WebhookHttp.GitHubAppAcceptedOnlyWhenIngested | apps/ddash/internal/webhooks/custom/handler_github_app.go:40-99 | a 202 reply implies a configured key, a valid bearer token, a resolver, a positive installation id, a read body, a resolved organization and a successful ingest |
| WebhookHttp.GitHubAppIgnoresEnabled | apps/ddash/internal/webhooks/custom/handler_github_app.go:72-98 | once an installation resolves, its organization is used whatever its enabled flag says |
| WebhookHttp.IngestorKeyAccepted | apps/ddash/internal/webhooks/custom/handler_github_app.go:101-115 | "Bearer " followed by the configured key passes the handler's token check |
| GitHubAppIngestor.MaskValue | cmd/githubappingestor/main.go:376-385 | the mask is empty exactly for a blank value, "****" for a trimmed value of at most 8 characters, and otherwise the first four characters, "..." and the last four |
| GitHubAppIngestor.MaskIdempotent | cmd/githubappingestor/main.go:376-385 | masking a masked value changes nothing |
| GitHubAppIngestor.ValueOrDefault | cmd/githubappingestor/main.go:584-590 | a blank value gives the fallback, any other value its trimmed form |
| GitHubAppIngestor.FirstOfTwo | cmd/githubappingestor/main.go:592-600 | the first non-blank of two values, trimmed, and empty exactly when both are blank |
| GitHubAppIngestor.FirstOfTwoIsFirstNonEmpty | cmd/githubappingestor/main.go:592-600 | the two-value form agrees with the general first-non-empty over a list |
| GitHubAppIngestor.ValueOrDefaultIsFirstNonEmpty | cmd/githubappingestor/main.go:584-600 | with a trimmed non-blank fallback the two helpers agree and never give a blank value |
| GitHubAppIngestor.ValidGitHubSignature | cmd/githubappingestor/main.go:602-612 | a signature header is accepted exactly when its trimmed lower-cased form starts with "sha256=" and the rest equals the hex HMAC of the body |
| GitHubAppIngestor.GitHubSignatureAccepted | cmd/githubappingestor/main.go:602-612 | "sha256=" followed by the lower-case hex HMAC of the body is accepted |
| GitHubAppIngestor.GitHubSignatureCaseInsensitive | cmd/githubappingestor/main.go:603 | the header's letter case does not change the verdict |
| GitHubAppIngestor.GitHubSignatureNeedsPrefix | cmd/githubappingestor/main.go:604-606 | a header without the "sha256=" prefix is refused whatever the body and secret |
| GitHubAppIngestor.AuthorizedSetupRequest | cmd/githubappingestor/main.go:562-582 | with no configured token every request is authorized; otherwise exactly a matching bearer header, query token or form token authorizes |
| GitHubAppIngestor.SetupBearerAccepted | cmd/githubappingestor/main.go:568-572 | "Bearer " or "bearer " followed by the configured token authorizes |
| GitHubAppIngestor.UnstrippedRefused | cmd/githubappingestor/main.go:568-572 | a header longer than the token that carries neither bearer prefix is not a matching bearer header |
| GitHubAppIngestor.IntentOf | cmd/githubappingestor/main.go:474-492 | the intent keeps the state and organization, trims the credentials and the organization label, falls back to the default environment, and expires 15 minutes after now |
| GitHubAppIngestor.CreateSetupIntent | cmd/githubappingestor/main.go:467-505 | missing credentials, a failed random state or a failed save leave the store unchanged and fail; a success saves the intent under its state and redirects to the callback or to the install URL with the state |
| GitHubAppIngestor.SavedIntentCredentials | cmd/githubappingestor/main.go:468-473 | a saved intent always carries non-blank endpoint, token and secret |
| GitHubAppIngestor.SaveSetupIntent | cmd/githubappingestor/main.go:493-504 | a failed save changes nothing; otherwise the intent is stored under its state, and the redirect is the callback path for a blank install URL |
| GitHubAppIngestor.InvalidInstallUrlKeepsIntent | cmd/githubappingestor/main.go:493-503 | an install URL that cannot take the state fails the request although the intent stays saved |
| GitHubAppIngestor.SetupPayloadDefaults | cmd/githubappingestor/main.go:179-187 | each credential and the environment come from the query when it is non-blank and from the defaults otherwise, trimmed |
| GitHubAppIngestor.StartSetup | cmd/githubappingestor/main.go:173-194 | an unauthorized request is 401 and changes nothing; a failed intent is 400 with its message; a created one is a 302 to its redirect |
| GitHubAppIngestor.CallbackInstallationId | cmd/githubappingestor/main.go:198-207 | the installation id is missing exactly when both parameters are blank, and an accepted id is positive and is the parsed decimal |
| GitHubAppIngestor.CallbackInstallationIdRoundTrip | cmd/githubappingestor/main.go:198-207 | the decimal text of any positive 64-bit id is accepted as that id |
| GitHubAppIngestor.Callback | cmd/githubappingestor/main.go:196-242 | the reply is 200, 400, 404, 410 or 500; a blank state is 400; an expired intent is 410 and deleted; a success maps the installation to the intent's organization and credentials, enabled |
| GitHubAppIngestor.CallbackConsumesState | cmd/githubappingestor/main.go:218-238 | after a success or an expiry the state can no longer be used |
| GitHubAppIngestor.CallbackMaps | cmd/githubappingestor/main.go:224-241 | an unexpired intent and a valid id produce 200 and a mapping carrying the intent's organization and credentials |
| GitHubAppIngestor.SetupThenCallbackMaps | cmd/githubappingestor/main.go:173-242 | a setup followed within 15 minutes by the callback with its state maps the installation to the credentials given at setup |
| GitHubAppIngestor.ResolvePublishing | cmd/githubappingestor/main.go:286-307 | a lookup failure for a known installation is an error; an enabled mapping supplies the credentials and, when non-blank, the environment; otherwise the defaults are used |
| GitHubAppIngestor.WebhookDecision | cmd/githubappingestor/main.go:269-325 | non-POST is 405; an unreadable body 400; a bad signature 401; a mapping error 500; missing credentials and an empty conversion 202 "ignored"; a conversion error 400; otherwise the converted events are published |
| GitHubAppIngestor.PublishAll | cmd/githubappingestor/main.go:327-337 | the reply is 202 "published=n" exactly when every event was published, and otherwise 502 after the events before the first failure |
| GitHubAppIngestor.HandleWebhook | cmd/githubappingestor/main.go:269-338 | the reply is the decision's answer, or the publishing outcome when the decision is to publish |
| EventStore.BoolToInt | internal/db/store.go:333-336 | an enabled flag is stored as 1 and a disabled one as 0 |
| EventStore.ServiceNameFromSubjectID | internal/db/store.go:413-422 | the name is empty exactly for a blank subject id; it is a trimmed suffix of the trimmed id; it holds a "/" only when the id ends in "/" and is then the whole id; when a "/" with none after it is not the last character, the name is the trimmed text after that "/" |
| EventStore.LastSegment | internal/db/store.go:418-419 | the text after the last "/" of an id is a non-empty trimmed suffix with no "/" |
| EventStore.ServiceNameOfPath | internal/db/store.go:413-422 | the service name of "prefix/name" is name, for any name without "/" or surrounding space |
| EventStore.ProjectionWrites | internal/db/store.go:380-410 | a service event drives three projection upserts, and a fourth for the current state exactly when the subject id names a service |
| EventStore.RunWrites | internal/db/store.go:384-409 | the statements run in order and stop at the first failure: success exactly when every statement succeeds, and then all of them are written; a failure reports the failing statement's error after the writes before it |
| EventStore.AppendOutcomes | internal/db/store.go:368-411 | a duplicate event (no row returned) is skipped without error or writes; an insert failure is that error with no writes; the event counts as inserted exactly when the insert and projections succeed; a non-service event writes only its row; a service event writes its row and then its projections |
| EventStore.CurrentStateOnlyForNamedService | internal/db/store.go:400-409 | the current-state projection is written only for a service subject whose id names a service, under that name and the event's organization |
| EventStore.CurrentStateIsLast | internal/db/store.go:400-409 | the only current-state write of an event's projections is the one for its service name, which is non-empty |
| EventStore.ProjectionsFollowInsert | internal/db/store.go:369-384 | whenever anything is written, the insert succeeded and the event row is written first |
| EventStore.WithTx | internal/db/store.go:605-619 | a transaction begins exactly when begin succeeds; it succeeds exactly when begin, body and commit do; only a successful transaction commits the body's writes; a failed body reports the rollback error if there is one and else its own |
| EventStore.AppendEventStore | internal/db/store.go:345-351 | the append succeeds exactly when begin, the event's insert and projections, and commit succeed; a duplicate event commits nothing |
| EventStore.BatchBody | internal/db/store.go:358-365 | the batch body counts as inserted exactly when it ends without error |
| EventStore.BatchBodyFails | internal/db/store.go:358-365 | the batch body succeeds exactly when every item's append succeeds |
| EventStore.BatchBodyWrites | internal/db/store.go:358-365 | a successful batch body writes every item's writes in item order |
| EventStore.DuplicateInBatchSkipped | internal/db/store.go:359-363 | a duplicate item in a batch contributes nothing and does not stop the batch |
| EventStore.AppendEventStoreBatch | internal/db/store.go:353-366 | an empty batch is a no-op that opens no transaction; otherwise the items run in one transaction, and a success commits every item's writes in order |
| EventStore.BatchStep | internal/db/store.go:359-363 | a failing item stops the batch with its error; a succeeding one is followed by the rest of the batch |
| EventStore.SingletonBatch | internal/db/store.go:345-366 | a batch of one event in a transaction is the single append |
| EventStore.CellText | internal/db/store.go:298-316 | a NULL cell gives no environment, and any environment read is non-empty and trimmed |
| EventStore.EnvironmentsOfConcat | internal/db/store.go:297-317 | the environments of two runs of rows are the environments of each, in order |
| EventStore.EnvironmentsComeFromRows | internal/db/store.go:297-317 | every listed environment is non-empty, trimmed and the text of one of the rows |
| EventStore.ListDistinctServiceEnvironments | internal/db/store.go:291-319 | a query error is passed through; otherwise the result is the non-blank trimmed text of the rows, in order |
| ServiceRead.NormalizeEnvironmentOrderInput | internal/app/services/service_read.go:414-430 | the result is the specified normalized order of the names |
| ServiceRead.DedupDistinct | internal/app/services/service_read.go:415-427 | no two kept names share a lower-cased key |
| ServiceRead.DedupCovers | internal/app/services/service_read.go:417-428 | the key of every non-blank name is among the kept keys |
| ServiceRead.DedupKeepsDistinct | internal/app/services/service_read.go:415-428 | non-blank names with distinct keys are all kept, in order |
| ServiceRead.NormalizedOrderNormalized | internal/app/services/service_read.go:414-430 | the result holds only non-blank trimmed names with pairwise distinct lower-cased forms |
| ServiceRead.NormalizedOrderFromInput | internal/app/services/service_read.go:417-427 | every name in the result is the trimmed form of an input name |
| ServiceRead.NormalizedOrderCovers | internal/app/services/service_read.go:417-427 | every non-blank input name is represented, case-insensitively, in the result |
| ServiceRead.NormalizedOrderOfNormalized | internal/app/services/service_read.go:414-430 | a list already normalized is returned unchanged |
| ServiceRead.NormalizedOrderIdempotent | internal/app/services/service_read.go:414-430 | normalizing twice is normalizing once |
| ServiceRead.Ranks | internal/app/services/service_read.go:433-436 | the priority map has exactly the lower-cased prioritized names as keys |
| ServiceRead.RanksOfNormalized | internal/app/services/service_read.go:433-436 | in a normalized list each name's rank is its position |
| ServiceRead.EnvLessOrder | internal/app/services/service_read.go:437-455 | the comparator is a strict weak order whose ties are exactly the environments with the same lower-cased trimmed name |
| ServiceRead.ApplyEnvironmentPriorityOrder | internal/app/services/service_read.go:432-456 | the environments array is rearranged in place into the stable priority order |
| ServiceRead.BuildPriority | internal/app/services/service_read.go:433-436 | the loop builds the priority map of the normalized names |
| ServiceRead.CopyBack | internal/app/services/service_read.go:437 | the sorted environments are written back into the array |
| ServiceRead.PriorityOrderPermutation | internal/app/services/service_read.go:437-455 | the order is a permutation of the environments, and environments with the same name keep their relative order |
| ServiceRead.PriorityOrderShape | internal/app/services/service_read.go:440-454 | prioritized environments come first by rank, and the unprioritized ones follow by name |
| ServiceRead.NextInEnvironment | internal/app/services/service_read.go:191-203 | the next row of the same environment after a position, if any, and no row of that environment in between |
| ServiceRead.Enriched | internal/app/services/service_read.go:185-217 | enrichment changes only the previous reference and the change log of a row |
| ServiceRead.Group | internal/app/services/service_read.go:186-190 | the indexes filed under an environment are, in increasing order, the rows with that key |
| ServiceRead.GroupComplete | internal/app/services/service_read.go:186-190 | every row is filed under its environment |
| ServiceRead.GroupNext | internal/app/services/service_read.go:192-203 | the member after a row in its group is the next row of the same environment |
| ServiceRead.EnrichReleaseChangeLogs | internal/app/services/service_read.go:185-217 | every row becomes its enriched form, computed from the rows as they were before |
| ServiceRead.GroupByEnvironment | internal/app/services/service_read.go:186-190 | the first loop files every row index under its lower-cased trimmed environment |
| ServiceRead.EnrichGroups | internal/app/services/service_read.go:191-216 | the second loop enriches every row from its group |
| ServiceRead.EnrichedInGroup | internal/app/services/service_read.go:192-214 | a group member takes the trimmed reference of the next member as its previous reference, and the last member has none |
| ServiceRead.EnrichedFromNextInEnvironment | internal/app/services/service_read.go:203-214 | a row's previous reference and change log come from the next row of the same environment |
| ServiceRead.LastOfEnvironmentIsInitial | internal/app/services/service_read.go:194-201 | the last row of an environment has no previous reference and is an initial deployment, or an initial release when it has a reference |
| ServiceRead.ValueFor | internal/app/services/service_read.go:396-402 | the stored value of a label is trimmed |
| ServiceRead.ValueForAbsent | internal/app/services/service_read.go:409 | a label no row carries has the empty value |
| ServiceRead.ValueForLast | internal/app/services/service_read.go:397-401 | when a label appears more than once the last row's value wins |
| ServiceRead.BuildServiceMetadataFields | internal/app/services/service_read.go:395-412 | one field per required field with a non-blank label |
| ServiceRead.BuildServiceMetadataFieldsAt | internal/app/services/service_read.go:404-410 | each field carries the trimmed required label and the stored value under its lower-cased form |
| ServiceRead.BlankCountZero | internal/app/services/service_read.go:121-126 | no metadata is missing exactly when every field has a non-blank value |
| ServiceRead.BlankCountAll | internal/app/services/service_read.go:121-126 | every field is missing exactly when every value is blank |
| ServiceRead.MissingMetadata | internal/app/services/service_read.go:121-126 | the loop counts the fields whose value is blank |
| ServiceMetadata.MetadataTagValue | internal/app/services/service_read.go:378-385 | a tag is empty or holds a ":" between a non-empty label and value |
| ServiceMetadata.MetadataTagValueEmpty | internal/app/services/service_read.go:378-385 | the tag is empty exactly when the label or the value is blank |
| ServiceMetadata.MetadataTagValueParts | internal/app/services/service_read.go:378-385 | a non-blank label and value give the lower-cased trimmed label, ":", and the lower-cased trimmed value |
| ServiceMetadata.RequiredOfMembers | internal/app/services/service_read.go:277-282 | a label is required exactly when it is the non-empty lower-cased trimmed label of some required row |
| ServiceMetadata.IndexRequiredFields | internal/app/services/service_read.go:275-286 | the loop builds the required set and the filterable map of the required rows |
| ServiceMetadata.FilterableOfMembers | internal/app/services/service_read.go:283-285 | a label is filterable exactly when some required row with that non-empty key is marked filterable |
| ServiceMetadata.FilterableRequired | internal/app/services/service_read.go:277-286 | every filterable label is required |
| ServiceMetadata.CleanedTag | internal/app/services/service_read.go:297-315 | a cleaned value row's tag is its key, ":", and its lower-cased value |
| ServiceMetadata.ScanMetadataValues | internal/app/services/service_read.go:293-324 | the loop over value rows builds the filled labels, tags and tag labels of the rows in order |
| ServiceMetadata.ScanRowFilled | internal/app/services/service_read.go:300-309 | a row fills its label for its service exactly when service, label and value are non-blank and the label is required |
| ServiceMetadata.ScanRowTags | internal/app/services/service_read.go:311-322 | a row tags its service exactly when it fills a filterable label |
| ServiceMetadata.ScanRowLabels | internal/app/services/service_read.go:323 | a tag's display label is set by each row carrying that tag |
| ServiceMetadata.ScanShape | internal/app/services/service_read.go:306-322 | every service in the filled map has a non-empty set of required labels, and every tagged service has filled some label |
| ServiceMetadata.ScanFilledHas | internal/app/services/service_read.go:300-309 | every qualifying row's label is recorded as filled for its service |
| ServiceMetadata.ScanFilledWitness | internal/app/services/service_read.go:300-309 | every filled label comes from a qualifying row of that service |
| ServiceMetadata.ScanTagsHas | internal/app/services/service_read.go:311-323 | every row with a filterable label records its tag for its service and a display label for the tag |
| ServiceMetadata.ScanTagsWitness | internal/app/services/service_read.go:311-322 | every tag of a service comes from a row of that service with a filterable label |
| ServiceMetadata.ScanLabelsLast | internal/app/services/service_read.go:323 | a tag's display label is the filterable label, ": " and the value of the last row carrying that tag |
| ServiceMetadata.CountMissing | internal/app/services/service_read.go:326-336 | the loop computes, per service with filled labels, the required count minus its filled count |
| ServiceMetadata.MissingExact | internal/app/services/service_read.go:326-336 | a service with filled labels misses exactly the required labels it has not filled, which is fewer than all of them |
| ServiceMetadata.BuildOptions | internal/app/services/service_read.go:338-346 | the loop builds the option list from the tag labels |
| ServiceMetadata.OptionsOrder | internal/app/services/service_read.go:338-346 | the options are "all" first, then one per tag in strictly ascending tag order |
| ServiceMetadata.OptionIsTag | internal/app/services/service_read.go:344-346 | every option after the first is a tag with its display label |
| ServiceMetadata.OptionForTag | internal/app/services/service_read.go:339-346 | every tag has its option |
| ServiceMetadata.TagStringHas | internal/app/services/service_read.go:350-355 | every tag of a service appears between bars in its tag string |
| ServiceMetadata.NormalizeTags | internal/app/services/service_read.go:348-356 | the loop builds each tagged service's bar-separated sorted tag string |
| ServiceMetadata.LoadMetadataFilterData | internal/app/services/service_read.go:269-359 | a failure of either read is returned as is; otherwise the filter data of the two lists of rows |
| ServiceMetadata.FilterDataParts | internal/app/services/service_read.go:293-358 | the filter data is the tag strings, the missing counts and the options of the scan of the value rows |
| ServiceMetadata.FilterDataTags | internal/app/services/service_read.go:296-356 | a row with a non-blank service and value under a filterable label makes its tag appear between bars in its service's tag string |
| ServiceMetadata.FilterDataMissing | internal/app/services/service_read.go:326-336 | a service's missing count is at least zero and less than the number of required labels |
| ServiceMetadata.TitleKeysOf | internal/app/services/service_read.go:363 | the loop computes each service's lower-cased trimmed title |
| ServiceMetadata.ApplyMetadataToServices | internal/app/services/service_read.go:361-368 | every service gets the missing count and the tag string filed under its lower-cased trimmed title, and nothing else changes |
| ServiceMetadata.ApplyMetadataByKey | internal/app/services/service_read.go:362-366 | each service is updated from the filter data under its key |
| ServiceMetadata.ServiceKeysOf | internal/app/services/service_read.go:372 | the loop computes each row's lower-cased trimmed service name |
| ServiceMetadata.ApplyMetadataToDeployments | internal/app/services/service_read.go:370-376 | every deployment row gets the tag string filed under its service's lower-cased trimmed name, and nothing else changes |
| ServiceMetadata.ApplyTagsByKey | internal/app/services/service_read.go:371-374 | each deployment row is updated from the filter data under its key |
| ServiceMetadata.UnlistedServiceDefaults | internal/app/services/service_read.go:364-365 | a service with no entry gets a missing count of zero and an empty tag string, as Go's map zero values |
| ServiceMetadata.MapRequiredFields | internal/app/services/service_read.go:387-393 | one field per required row with its label, the value "Missing" and its filterable flag |
| ServiceCatalog.NormalizeDependencyInput | apps/ddash/internal/domains/servicecatalog/dependencies.go:5-15 | a pair is accepted exactly when both names are non-blank and differ ignoring case, and it is then the two trimmed names |
| ServiceCatalog.NormalizeDependencyInputIdempotent | apps/ddash/internal/domains/servicecatalog/dependencies.go:5-15 | an accepted pair is well formed and normalizes to itself |
| ServiceCatalog.NormalizeWellFormed | apps/ddash/internal/domains/servicecatalog/dependencies.go:5-15 | a well-formed pair is accepted unchanged |
| ServiceCatalog.WithoutMembers | apps/ddash/internal/domains/servicecatalog/dependencies_test.go:5-14 | dropping the service keeps exactly the names whose lower-cased form differs from it |
| ServiceCatalog.ParseDependencyInputsShape | apps/ddash/internal/domains/servicecatalog/dependencies_test.go:5-14 | the parsed names are trimmed, non-blank, free of case-insensitive duplicates, never the service itself, and each a trimmed part of the input |
| ServiceCatalog.ParseDependencyInputsCovers | apps/ddash/internal/domains/servicecatalog/dependencies_test.go:5-14 | every non-blank part other than the service is represented, ignoring case, in the parsed list |
| ServiceCatalog.PercentileIndex | apps/ddash/internal/application/servicecatalog/service.go:216-222 | the index is within the list |
| ServiceCatalog.PercentileIndexRank | apps/ddash/internal/application/servicecatalog/service.go:216 | the index is the ceiling of pct percent of n, minus one |
| ServiceCatalog.PercentileIndexMonotone | apps/ddash/internal/application/servicecatalog/service.go:216 | a higher percentile never picks an earlier index |
| ServiceCatalog.Percentile | apps/ddash/internal/application/servicecatalog/service.go:206-224 | an empty list gives 0 and otherwise an element of the list |
| ServiceCatalog.PercentileMonotone | apps/ddash/internal/application/servicecatalog/service.go:206-224 | on an ascending list the percentiles are ordered and lie between its first and last element |
| ServiceCatalog.SumPermutation | apps/ddash/internal/application/servicecatalog/service.go:192-197 | the sum does not depend on the order, so summing the sorted copy sums the values |
| ServiceCatalog.SumBounds | apps/ddash/internal/application/servicecatalog/service.go:194-197 | the sum lies between n times the least and n times the greatest value |
| ServiceCatalog.TruncDiv | apps/ddash/internal/application/servicecatalog/service.go:200 | Go's integer division, which truncates toward zero |
| ServiceCatalog.TruncDivBounds | apps/ddash/internal/application/servicecatalog/service.go:200 | the average lies between the least and the greatest value |
| ServiceCatalog.SummarizeLeadTimes | apps/ddash/internal/application/servicecatalog/service.go:188-204 | the summary is the specified one: zero for no values, else the count, the truncated average, and the 50th and 95th percentiles of the sorted copy |
| ServiceCatalog.SummaryBounds | apps/ddash/internal/application/servicecatalog/service.go:188-204 | the average and both percentiles lie between the least and the greatest value, and the 50th percentile does not exceed the 95th |
| ServiceCatalog.WindowDays | apps/ddash/internal/application/servicecatalog/service.go:144-149 | a non-positive window becomes 30 days, one over 365 becomes 365, and one in 1 through 365 is kept |
| ServiceCatalog.GroupsSelect | apps/ddash/internal/application/servicecatalog/service.go:159-167 | a key has a group exactly when it is non-empty and occurs, and its group is its lead times in arrival order |
| ServiceCatalog.GroupsStep | apps/ddash/internal/application/servicecatalog/service.go:159-167 | one more sample joins the group of its key unless the key is empty |
| ServiceCatalog.BuildLeadTimeReport | apps/ddash/internal/application/servicecatalog/service.go:143-186 | the report is the specified one for the clamped window, the store's error passed through |
| ServiceCatalog.GroupSamples | apps/ddash/internal/application/servicecatalog/service.go:156-167 | the loop collects every lead time and the per-service and per-day groups |
| ServiceCatalog.SummaryRows | apps/ddash/internal/application/servicecatalog/service.go:169-179 | the rows are the keys sorted with each key's summary |
| ServiceCatalog.TableShape | apps/ddash/internal/application/servicecatalog/service.go:169-179 | the rows are in strictly ascending key order and there is a row exactly for each non-empty key of a sample |
| ServiceCatalog.EdgeLessTotal | apps/ddash/internal/application/servicecatalog/service.go:133-138 | edges are ordered by source and then by target, a strict total order |
| ServiceCatalog.BuildDependencyGraph | apps/ddash/internal/application/servicecatalog/service.go:94-141 | the graph is the specified one, pair-keyed (corrected, see ## Findings), the first store error passed through |
| ServiceCatalog.AddEdges | apps/ddash/internal/application/servicecatalog/service.go:114-125 | the inner loop adds each non-empty dependency as a node and each new edge once, pair-keyed (corrected, see ## Findings) |
| ServiceCatalog.AddDependenciesInvariant | apps/ddash/internal/application/servicecatalog/service.go:114-125 | the graph state stays consistent: every seen edge is listed once and its ends are nodes |
| ServiceCatalog.ScanGraphInvariant | apps/ddash/internal/application/servicecatalog/service.go:104-126 | the scan of the services keeps the graph state consistent |
| ServiceCatalog.ScanGraphStops | apps/ddash/internal/application/servicecatalog/service.go:110-113 | once a dependency read fails, later services do not change the outcome |
| ServiceCatalog.DependencyGraphNodes | apps/ddash/internal/application/servicecatalog/service.go:128-132 | the nodes are strictly ascending by name and are exactly the non-empty titles and their non-empty dependencies |
| ServiceCatalog.DependencyGraphEdges | apps/ddash/internal/application/servicecatalog/service.go:133-138 | the edges are strictly ascending and free of duplicates |
| ServiceCatalog.DependencyGraphClosed | apps/ddash/internal/application/servicecatalog/service.go:118-124 | both ends of every edge are nodes |
| ServiceCatalog.AddDependenciesMembers | apps/ddash/internal/application/servicecatalog/service.go:114-125 | an edge is seen exactly when it was before or goes from the service to one of its non-empty dependencies |
| ServiceCatalog.ScanGraphSeen | apps/ddash/internal/application/servicecatalog/service.go:104-126 | an edge is in the graph exactly when its source is a non-empty title and its target a non-empty dependency read for it |
| ServiceCatalog.ScanGraphNames | apps/ddash/internal/application/servicecatalog/service.go:104-126 | a node is a non-empty title or a non-empty dependency of one |
| ServiceCatalog.ScanGraphOk | apps/ddash/internal/application/servicecatalog/service.go:104-126 | the scan succeeds exactly when every non-empty title's dependencies can be read |
| ServiceCatalog.ScanGraphFirstError | apps/ddash/internal/application/servicecatalog/service.go:110-113 | the error returned is that of the first title whose read fails |
| ServiceCatalog.AddDependencyAsWritten | apps/ddash/internal/application/servicecatalog/service.go:119-124 | the service as written: an edge is skipped when its "from->to" key was seen |
| ServiceCatalog.EdgeKeyCollision | apps/ddash/internal/application/servicecatalog/service.go:119-124 | two different edges can share a key, and the code as written then drops the second |
| ServiceCatalog.AddDependencyKeepsEdge | apps/ddash/internal/application/servicecatalog/service.go:114-125 | with edges keyed by the pair itself every dependency's edge is kept |
| ServiceCatalog.GuardedDependencyWrite | apps/ddash/internal/application/servicecatalog/service.go:67-92 | for both the upsert and the delete, a refused pair issues no write and succeeds; an accepted pair issues one write of the normalized pair and returns its error |
| ServiceCatalog.UpsertServiceDependencies | apps/ddash/internal/application/servicecatalog/service.go:75-84 | the parsed dependencies are written in order, stopping at the first error, and the count is the number written before it |
| ServiceCatalog.UpsertEach | apps/ddash/internal/application/servicecatalog/service.go:76-83 | the loop writes each dependency in order and stops at the first error |
| SqliteReadStore.MapStatusInsensitive | apps/ddash/internal/adapters/sqlite/service_read_store.go:399-429 | both status mappers ignore letter case and surrounding space |
| SqliteReadStore.MapServiceStatusOutOfSync | apps/ddash/internal/adapters/sqlite/service_read_store.go:405-406 | a service is out of sync exactly for the three spellings "out-of-sync", "out_of_sync" and "outofsync" |
| SqliteReadStore.MapServiceStatusUnknown | apps/ddash/internal/adapters/sqlite/service_read_store.go:411-412 | any other text maps to unknown |
| SqliteReadStore.ServiceStatusRoundTrip | apps/ddash/internal/adapters/sqlite/service_read_store.go:399-414 | every service status maps back from its own text |
| SqliteReadStore.ServiceStatusValueFolded | apps/ddash/internal/adapters/sqlite/service_read_store.go:400 | a status's own text is already lower-case and trimmed |
| SqliteReadStore.DeploymentStatusRoundTrip | apps/ddash/internal/adapters/sqlite/service_read_store.go:416-429 | every deployment status maps back from its own text |
| SqliteReadStore.MapDeploymentStatusDefault | apps/ddash/internal/adapters/sqlite/service_read_store.go:426-427 | any text other than processing, success or error maps to queued |
| SqliteReadStore.ToString | apps/ddash/internal/adapters/sqlite/service_read_store.go:431-442 | text and bytes are passed through untrimmed, and any other value is printed and trimmed |
| SqliteReadStore.ParseOrZero | apps/ddash/internal/adapters/sqlite/service_read_store.go:459-469 | a parsed count is within the 64-bit range, and 0 for text that does not parse |
| SqliteReadStore.ToInt64 | apps/ddash/internal/adapters/sqlite/service_read_store.go:444-478 | a count read from text or bytes is within the 64-bit range |
| SqliteReadStore.ToInt64OfText | apps/ddash/internal/adapters/sqlite/service_read_store.go:444-478 | the decimal text of any 64-bit integer reads back as that integer, and an integer prints as its decimal text |
| SqliteReadStore.ToInt64OfJunk | apps/ddash/internal/adapters/sqlite/service_read_store.go:459-469 | text that does not parse reads as 0 |
| SqliteReadStore.ToInt64IgnoresSpaces | apps/ddash/internal/adapters/sqlite/service_read_store.go:459-469 | surrounding space does not change the count read |
| SqliteReadStore.TrimNonBlank | apps/ddash/internal/adapters/sqlite/service_read_store.go:121-127 | the loop keeps the trimmed non-blank names in order |
| SqliteReadStore.TrimmedNonBlankMembers | apps/ddash/internal/adapters/sqlite/service_read_store.go:121-127 | a name is kept exactly when it is a non-empty trimmed row, and every kept name is non-empty and trimmed |
| SqliteReadStore.TrimmedNonBlankIdempotent | apps/ddash/internal/adapters/sqlite/service_read_store.go:121-127 | cleaning a cleaned list changes nothing |
| SqliteReadStore.ListServiceNames | apps/ddash/internal/adapters/sqlite/service_read_store.go:113-148 | dependencies and dependants are queried under the trimmed service name; a query error is passed through, otherwise the trimmed non-blank names |
| SqliteReadStore.IsMissingEnvPriorityTableInsensitive | apps/ddash/internal/adapters/sqlite/service_read_store.go:524-530 | the missing-table test ignores letter case |
| SqliteReadStore.ListEnvironmentPriorities | apps/ddash/internal/adapters/sqlite/service_read_store.go:229-245 | a missing priorities table reads as no priorities, any other error is passed through, and rows give their trimmed non-blank environments |
| SqliteReadStore.StoreUpsertDependency | apps/ddash/internal/adapters/sqlite/service_read_store.go:151-162 | a write is issued only for the two trimmed names |
| SqliteReadStore.StoreDeleteDependency | apps/ddash/internal/adapters/sqlite/service_read_store.go:165-176 | a delete is issued exactly when both names are non-blank, for the two trimmed names |
| SqliteReadStore.StoreUpsertIsNormalize | apps/ddash/internal/adapters/sqlite/service_read_store.go:151-162 | the store's own guard on upsert is the catalog's dependency normalization |
| SqliteReadStore.DeleteAllowsSelfPair | apps/ddash/internal/adapters/sqlite/service_read_store.go:151-176 | a service paired with itself is refused on upsert but deleted on delete |
| SqliteReadStore.StoreGuardsIdempotent | apps/ddash/internal/adapters/sqlite/service_read_store.go:165-176 | the delete guard applied to its own output changes nothing |
| SqliteReadStore.InstanceQueryFor | apps/ddash/internal/adapters/sqlite/service_read_store.go:20-28 | all instances are listed exactly for an empty environment or "all", otherwise the given environment |
| SqliteReadStore.MapServiceInstance | apps/ddash/internal/adapters/sqlite/service_read_store.go:354-384 | a mapped instance shows the artifact as both revision and commit, and "-" as its duration |
| SqliteReadStore.MapServiceInstances | apps/ddash/internal/adapters/sqlite/service_read_store.go:354-384 | one instance per row |
| SqliteReadStore.ListServiceInstances | apps/ddash/internal/adapters/sqlite/service_read_store.go:19-33 | the query chosen by the environment is read; its error is passed through, otherwise its rows mapped |
| SqliteReadStore.CurrentStateOf | apps/ddash/internal/adapters/sqlite/service_read_store.go:253-270 | a missing row is an empty state and no error; only a failed read is an error; a row gives its trimmed status and its counters |
| SqliteReadStore.DeliveryStatsOf | apps/ddash/internal/adapters/sqlite/service_read_store.go:273-289 | a missing row gives zero counters and no error; only a failed read is an error; a row gives its three counts |
| SqliteReadStore.MissingRowIsNotAnError | apps/ddash/internal/adapters/sqlite/service_read_store.go:253-289 | neither read ever reports a missing row as an error |
| SqliteRelativeAge.RelativeAgeText | apps/ddash/internal/adapters/sqlite/service_read_store.go:508-521 | every bucket has a non-empty text |
| SqliteRelativeAge.RelativeAgeSymmetric | apps/ddash/internal/adapters/sqlite/service_read_store.go:504-506 | a time in the future reads as the same age as one equally far in the past |
| SqliteRelativeAge.RelativeAgeBuckets | apps/ddash/internal/adapters/sqlite/service_read_store.go:507-521 | "just now" below two minutes, then whole minutes below an hour, hours below a day, days below 30 days, and 30-day months, each count the truncated quotient |
| SqliteRelativeAge.RelativeAgeMonotone | apps/ddash/internal/adapters/sqlite/service_read_store.go:507-521 | an older time never falls in an earlier bucket |
| SqliteRelativeAge.RelativeFromFormattedTimestampCases | apps/ddash/internal/adapters/sqlite/service_read_store.go:494-522 | the text is empty exactly for a blank or unparsable value, and otherwise the bucket of the difference to now |
| RouteUtils.NullString | internal/server/routes/utils.go:188-193 | a NULL column reads as the empty string |
| RouteUtils.NullStringOr | internal/server/routes/utils.go:202-207 | a NULL column reads as the fallback |
| RouteUtils.ValueOr | internal/server/routes/utils.go:209-217 | the first valid of two columns, or empty |
| RouteUtils.ValueOrIsFirstValid | internal/server/routes/utils.go:209-217 | the value is that of the first valid column, and a non-empty one is one of the two values |
| RouteUtils.StatusFromString | internal/server/routes/utils.go:219-236 | the parsed status is always one of the named statuses |
| RouteUtils.StatusParsersAgree | internal/server/routes/utils.go:219-251 | the route helpers and the read store map every text to the same service and deployment status |
| RouteUtils.KeysAgree | internal/server/routes/utils.go:219-251 | the two sets of status tables agree key by key |
| RouteUtils.OutOfSyncSpellings | internal/server/routes/utils.go:225-226 | the three out-of-sync spellings parse as out of sync, in any letter case |
| RouteUtils.DurationText | internal/server/routes/utils.go:257 | a positive duration prints as hours, minutes and seconds from an hour up ("1h0m3s"), minutes and seconds from a minute up ("2m5s"), else seconds alone ("45s"), always ending in "s" |
| RouteUtils.FormatDuration | internal/server/routes/utils.go:253-258 | "-" exactly for a missing or non-positive duration, else the duration text |
| RouteUtils.DurationTextSeconds | internal/server/routes/utils.go:257 | under a minute the text is the number of seconds and "s" |
| RouteUtils.NextServiceStatus | internal/server/routes/utils.go:260-273 | the next status is synced, out of sync or progressing; anything other than synced and out of sync goes to synced |
| RouteUtils.NextServiceStatusCycle | apps/ddash/internal/server/routes/utils.go:5-18 | synced, out of sync and progressing cycle with period three |
| RouteUtils.NextServiceStatusPeriodic | internal/server/routes/utils.go:260-273 | from any status, after the first step the sequence repeats every three steps |
| RouteUtils.DeploymentMatchesFilter | internal/server/routes/utils.go:275-283 | a row matches exactly when each filter is empty, "all", or equal to the row's field |
| RouteUtils.DeploymentFilterWildcards | internal/server/routes/utils.go:275-283 | the wildcard filters and the row's own fields always match |
| RouteUtils.DeploymentFilterNarrows | internal/server/routes/utils.go:275-283 | a row matching both filters matches each on its own |
| RouteUtils.MapServiceInstanceRow | internal/server/routes/utils.go:66-111 | the card keeps name, environment and parsed status; missing deploy time and revision become "-"; the commit is "-" exactly when the commit SHA (else the revision) is blank or "-", and otherwise is that value; description, context, team, the commit, repository, logs and endpoint URLs and the action label and kind show their column or "" when NULL; the duration is formatted; the action is disabled exactly for a non-zero flag |
| RouteUtils.MapServiceInstanceRowDefaults | internal/server/routes/utils.go:86-102 | a row with no commit, revision or deploy time shows "-" for each |
| RouteUtils.MapServiceInstances | internal/server/routes/utils.go:12-38 | one card per row, each the mapped row |
| ViewServices.ServiceDetailsRedirect | apps/ddash/internal/server/routes/view_services.go:20-37 | the level is "error" exactly when asked for, else "success"; the message is present exactly when non-blank and is then trimmed; the path names the trimmed service |
| ViewServices.HandleDependencyWrite | apps/ddash/internal/server/routes/view_services.go:261-303 | an organization or settings error is returned; with dependencies hidden the reply is 403 and the store is not called; otherwise one store call with the trimmed names, then its error or a redirect |
| ViewServices.DependencyRedirectSucceeds | apps/ddash/internal/server/routes/view_services.go:261-303 | every redirect after a dependency write reports success |
| ViewServices.DependencyMessageTrimmed | apps/ddash/internal/server/routes/view_services.go:261-303 | the success messages are non-empty and trimmed |
| ViewServices.TrimDeploymentHistoryWindow | apps/ddash/internal/server/routes/view_services.go:305-319 | a non-positive window keeps every row; otherwise a row is kept exactly when it is not dated before the cutoff |
| ViewServices.KeepRecentMembers | apps/ddash/internal/server/routes/view_services.go:310-318 | a row is kept exactly when it is not expired |
| ViewServices.KeepRecentConcat | apps/ddash/internal/server/routes/view_services.go:311-317 | the filter works row by row |
| ViewServices.KeepRecentAllRecent | apps/ddash/internal/server/routes/view_services.go:311-317 | with no expired row nothing is dropped |
| ViewServices.KeepRecentIdempotent | apps/ddash/internal/server/routes/view_services.go:305-319 | trimming twice is trimming once |
| ViewServices.MaskField | apps/ddash/internal/server/routes/view_services.go:324-331 | label and filterable flag are kept; the value is "***" exactly when the label is sensitive and the value non-blank, or it already was "***" |
| ViewServices.MaskSensitiveFields | apps/ddash/internal/server/routes/view_services.go:321-334 | one masked field per field, in order |
| ViewServices.MaskSensitiveFieldsIdempotent | apps/ddash/internal/server/routes/view_services.go:321-334 | masking twice is masking once, and labels never change |
| ViewServices.MaskKeepsPlainFields | apps/ddash/internal/server/routes/view_services.go:325-330 | a field whose label is not sensitive is unchanged |
| OrgManagement.NormalizeRole | internal/app/services/organization_management.go:415-423 | the role is one of owner, admin, member or ""; it is non-empty exactly when the trimmed, lower-cased input is one of the three, and is then that folded input |
| OrgManagement.NormalizeRoleIdempotent | internal/app/services/organization_management.go:415-423 | normalising a normalised role changes nothing |
| OrgManagement.NormalizedRolesOwnership | internal/app/services/organization_management.go:29-31 | of the three normalised roles only "owner" counts as an owner role |
| OrgManagement.CollapseShape | internal/app/services/organization_management.go:440-454 | the builder's output holds only a-z, 0-9 and dashes, never two dashes in a row, and no leading dash after a dash |
| OrgManagement.TrimmedCollapseIsSlug | internal/app/services/organization_management.go:440-455 | trimming the dashes off the builder's output leaves a slug: lower-case letters, digits and single inner dashes |
| OrgManagement.TrimDashesIsSlug | internal/app/services/organization_management.go:455 | strings.Trim of "-" turns any collapsed text into a slug |
| OrgManagement.CollapseOfSlug | internal/app/services/organization_management.go:440-454 | a text that is already a slug passes through the builder unchanged |
| OrgManagement.CollapseRuns | internal/app/services/organization_management.go:440-454 | the rune loop with its prevDash flag computes the run-collapsing function |
| OrgManagement.DefaultOrgBase | internal/app/services/organization_management.go:426-438 | the base name is never empty (nickname, else email local part, else name, else "user-<id>") |
| OrgManagement.UserScopedDefaultOrgName | internal/app/services/organization_management.go:425-460 | the name is the default slug followed by "-org" |
| OrgManagement.DefaultOrgNameShape | internal/app/services/organization_management.go:455-459 | the slug before "-org" is non-empty and is either a well-formed slug or the "user-<id>" fallback |
| OrgManagement.DefaultOrgSlugOfSlugNickname | internal/app/services/organization_management.go:426-459 | a nickname that already is a slug is used unchanged |
| OrgManagement.BaseIsNickname | internal/app/services/organization_management.go:426-432 | a non-blank nickname wins over email and name, trimmed |
| OrgManagement.OrganizationById | internal/app/services/organization_management.go:121-123 | a found organization is in the store with that id; no row means no organization has the id |
| OrgManagement.OrganizationsOfUser | internal/app/services/organization_management.go:188-193 | every listed organization is one the user holds a membership in |
| OrgManagement.OrganizationsOfUserComplete | internal/app/services/organization_management.go:188-193 | every organization the user belongs to is listed |
| OrgManagement.FirstEnabled | internal/app/services/organization_management.go:174-178 | the chosen organization is enabled and listed; none is chosen only when none listed is enabled |
| OrgManagement.EnabledCount | internal/app/services/organization_management.go:380-385 | the number of enabled organizations is at most the number listed |
| OrgManagement.GetActiveOrDefaultOrganizationForUser | internal/app/services/organization_management.go:158-180 | a non-positive user id is access denied; a result is always an enabled organization the user belongs to; the only errors are access denied and membership required |
| OrgManagement.ActiveOrganizationPreferred | internal/app/services/organization_management.go:162-179 | a usable active organization (existing, enabled, with the user as member) is returned; otherwise a returned organization is the first one in listing order that is enabled and has the user as member, no earlier organization qualifying |
| OrgManagement.FirstUsable | internal/app/services/organization_management.go:172-179 | the first enabled organization among the user's memberships sits at an index of the full listing before which no organization is both enabled and the user's |
| OrgManagement.MembershipRequiredMeansNoneEnabled | internal/app/services/organization_management.go:170-179 | membership required is returned only when every organization of the user is disabled |
| OrgManagement.CanManageOrganization | internal/app/services/organization_management.go:235-245 | true exactly when a membership exists and its trimmed, lower-cased role is owner or admin; no membership gives false |
| OrgManagement.CanManageByRole | internal/app/services/organization_management.go:243-244 | owners and admins may manage; a plain member may not |
| OrgManagement.UpdateMemberRole | internal/app/services/organization_management.go:320-338 | an invalid role is admin-required with no write; owner is always written; last-owner refusal happens exactly when an owner is demoted while the owner count is at most one, and leaves the store unchanged; otherwise the normalised role is stored |
| OrgManagement.RemoveMember | internal/app/services/organization_management.go:341-359 | a non-member is a no-op without error; last-owner refusal happens exactly when the member is an owner and owners number at most one; otherwise only that membership is deleted |
| OrgManagement.OwnersAfterWrite | internal/app/services/organization_management.go:337 | storing a role changes the organization's owner set only at that user |
| OrgManagement.OwnersAfterDelete | internal/app/services/organization_management.go:358 | deleting a membership removes only that user from the owner set |
| OrgManagement.UpdateMemberRoleKeepsAnOwner | internal/app/services/organization_management.go:320-338 | an organization with an owner still has one after any role update |
| OrgManagement.PromoteKeepsOwner | internal/app/services/organization_management.go:325 | writing the owner role always leaves an owner |
| OrgManagement.DemoteKeepsOwner | internal/app/services/organization_management.go:325-336 | a demotion allowed by the count guard leaves an owner |
| OrgManagement.RemoveMemberKeepsAnOwner | internal/app/services/organization_management.go:341-359 | an organization with an owner still has one after any member removal |
| OrgManagement.WithEnabled | internal/app/services/organization_management.go:397 | the enabled flag changes on the organizations with that id and nowhere else |
| OrgManagement.CountEnabled | internal/app/services/organization_management.go:380-385 | the counting loop returns the number of enabled organizations |
| OrgManagement.SetOrganizationEnabled | internal/app/services/organization_management.go:371-398 | a non-positive id is a no-op; enabling always writes; disabling is skipped for a missing organization or for the only enabled one, and otherwise writes |
| OrgManagement.DisableCount | internal/app/services/organization_management.go:371-398 | with unique ids, disabling one organization lowers the enabled count by at most one, and not at all if it was already disabled |
| OrgManagement.SetOrganizationEnabledKeepsOneEnabled | internal/app/services/organization_management.go:375-397 | while some organization is enabled, disabling never leaves none enabled |
| OrgManagement.DeleteOrganization | internal/app/services/organization_management.go:401-413 | a non-positive id is a no-op; at most one organization is last-organization with no delete; with more than one the delete succeeds, exactly the organization with that id goes, its memberships go with it (the store deletes cascading tenant data) and every other membership keeps its role |
| OrgManagement.DeletedOrganizationUnmanaged | internal/db/store.go:42-43 | after a delete nobody can manage the deleted organization and it has no owner left |
| OrgManagement.Without | internal/app/services/organization_management.go:412 | the remaining organizations are the old ones other than the deleted id |
| OrgManagement.WithoutConcat | internal/app/services/organization_management.go:412 | deleting distributes over concatenation, so the remaining organizations keep their listing order |
| OrgManagement.WithoutLength | internal/app/services/organization_management.go:412 | with unique ids a delete removes at most one organization |
| OrgManagement.DeleteOrganizationKeepsOne | internal/app/services/organization_management.go:401-413 | at least one organization always remains |
| OrgConfig.DefaultFlagsOff | internal/app/services/org_config.go:122-135 | strict enforcement and value masking default to off |
| OrgConfig.DefaultFlagsOn | internal/app/services/org_config.go:122-135 | every other known flag defaults to on |
| OrgConfig.FoldFeatureKeysOf | internal/app/services/org_config.go:136-137 | each feature row's key is trimmed and lower-cased, the rows kept in order |
| OrgConfig.FlagFromDefault | internal/app/services/org_config.go:136-141 | a known flag that no row names keeps its default |
| OrgConfig.FlagFromLast | internal/app/services/org_config.go:136-141 | a known flag takes the value of the last row that names it |
| OrgConfig.ResolveFeatureFlags | internal/app/services/org_config.go:122-141 | the flag map has exactly the twelve known keys, each resolved over its default from the folded rows; unknown keys add nothing |
| OrgConfig.OverrideFlag | internal/app/services/org_config.go:137-140 | one loop step applies one row's override and keeps the known key set |
| OrgConfig.CleanPreferencesOf | internal/app/services/org_config.go:151-152 | each preference row's key is trimmed and lower-cased and its value trimmed |
| OrgConfig.PreferencesFromValid | internal/app/services/org_config.go:147-167 | the retention is positive, the view is "table" or "grid" and the semantics "plain" or "technical" |
| OrgConfig.PreferencesFromDefault | internal/app/services/org_config.go:147-149 | without an accepted row the preferences are 30 days, "grid" and "technical" |
| OrgConfig.RetentionFromLast | internal/app/services/org_config.go:154-157 | the retention is the last positive parsable value given for it |
| OrgConfig.ViewFromLast | internal/app/services/org_config.go:158-161 | the view is the last accepted "table"/"grid" value |
| OrgConfig.SemanticsFromLast | internal/app/services/org_config.go:162-165 | the semantics is the last accepted "plain"/"technical" value |
| OrgConfig.PreferencesFromStep | internal/app/services/org_config.go:150-167 | each loop step applies one row's switch case to the preferences so far |
| OrgConfig.ResolvePreferences | internal/app/services/org_config.go:143-167 | the preference loop computes the resolved preferences over the cleaned rows, which are always valid |
| OrgConfig.UnseenMembers | internal/app/services/org_config.go:256-264 | every kept discovered name was discovered and was not seen case-insensitively |
| OrgConfig.UnseenDistinct | internal/app/services/org_config.go:256-264 | no two kept discovered names are equal ignoring case |
| OrgConfig.UnseenCovers | internal/app/services/org_config.go:256-264 | every discovered name is either already seen or kept |
| OrgConfig.MergedOrderNormalized | internal/app/services/org_config.go:249-268 | the merged order is trimmed, non-blank and free of case-insensitive duplicates |
| OrgConfig.MergedOrderPrefix | internal/app/services/org_config.go:250-267 | the merged order starts with the normalised prioritised list, in its order |
| OrgConfig.MergedOrderRestSorted | internal/app/services/org_config.go:265-267 | after the prioritised names, the remaining names are in ascending order |
| OrgConfig.MergedOrderCovers | internal/app/services/org_config.go:249-268 | every non-blank discovered name appears, ignoring case, in the merged order |
| OrgConfig.MergeEnvironmentOrder | internal/app/services/org_config.go:249-268 | the loops compute the merged order |
| OrgConfig.SeenOf | internal/app/services/org_config.go:251-254 | the seen map holds the lower-cased prioritised names |
| OrgConfig.KeepUnseen | internal/app/services/org_config.go:256-264 | the discovered-name loop keeps exactly the names unseen so far, marking each as seen |
| OrgConfig.SettingsFields | internal/app/services/org_config.go:237-247 | each required-field row becomes a field with the same label, the type as its value and the same filterable flag |
| OrgConfig.GetSettings | internal/app/services/org_config.go:98-191 | the first failing read's error, a missing priorities table counting as no priorities; it succeeds exactly when every read does, and then gives the organization's token, secret and enabled flag, the resolved flags and preferences, one required field per stored row with that row's label, type and filterable flag, and the merged environment order |
| OrgConfig.KeptFieldsSound | internal/app/services/org_config.go:199-211 | every forwarded required field is the trimmed form of an input field whose label and type are non-blank |
| OrgConfig.KeptFieldsComplete | internal/app/services/org_config.go:199-211 | every input field with non-blank label and type is forwarded, trimmed |
| OrgConfig.KeptFieldsConcat | internal/app/services/org_config.go:199-211 | the filter works row by row: filtering a concatenation concatenates the filtered parts |
| OrgConfig.KeptFieldsIdempotent | internal/app/services/org_config.go:199-211 | filtering the forwarded fields again changes nothing |
| OrgConfig.CleanRequiredFields | internal/app/services/org_config.go:199-211 | the filtering loop computes the kept fields |
| OrgConfig.UpdateSettings | internal/app/services/org_config.go:194-235 | the token and secret are trimmed, the environment order normalised, the required fields filtered, and every flag, preference and the enabled state forwarded unchanged |
| MetadataWrite.EditsFold | apps/ddash/internal/app/services/metadata.go:52-54 | each edited field is keyed by its trimmed, lower-cased label and carries its trimmed value |
| MetadataWrite.LabelsFold | apps/ddash/internal/app/services/metadata.go:42-47 | each required field is keyed by its trimmed, lower-cased label |
| MetadataWrite.AllowedEntries | apps/ddash/internal/app/services/metadata.go:41-48 | every allowed key comes from a required field with a non-blank label and maps to that trimmed label |
| MetadataWrite.AllowedCovers | apps/ddash/internal/app/services/metadata.go:41-48 | every required field with a non-blank label is allowed |
| MetadataWrite.AllowedIsKeyed | apps/ddash/internal/app/services/metadata.go:41-48 | distinct allowed keys map to distinct configured labels |
| MetadataWrite.AllowedOf | apps/ddash/internal/app/services/metadata.go:41-48 | the loop builds the allowed-label map |
| MetadataWrite.CleanedSource | apps/ddash/internal/app/services/metadata.go:50-67 | every kept field comes from an edit whose key is allowed and not yet seen, relabelled to the configured spelling |
| MetadataWrite.CleanedDistinct | apps/ddash/internal/app/services/metadata.go:50-67 | no two kept fields share a label |
| MetadataWrite.CleanedFirst | apps/ddash/internal/app/services/metadata.go:52-66 | the first occurrence of an allowed label is kept, with its trimmed value |
| MetadataWrite.CleanOf | apps/ddash/internal/app/services/metadata.go:50-67 | the loop with its seen map computes the kept fields |
| MetadataWrite.NonEmptyValuesMembers | apps/ddash/internal/app/services/metadata.go:69-77 | a value is persisted exactly when it was kept and is non-blank |
| MetadataWrite.PresentHas | apps/ddash/internal/app/services/metadata.go:75 | every persisted value's folded label is marked present |
| MetadataWrite.PresentSource | apps/ddash/internal/app/services/metadata.go:75 | every present label is the folded label of a persisted value |
| MetadataWrite.ValuesOf | apps/ddash/internal/app/services/metadata.go:69-77 | the loop computes the non-blank values and their present-label set |
| MetadataWrite.CheckRequired | apps/ddash/internal/app/services/metadata.go:79-89 | the strict check passes exactly when every non-blank required label is present |
| MetadataWrite.UpdateServiceMetadata | apps/ddash/internal/app/services/metadata.go:31-92 | a blank service or non-positive organization returns nil with no write; a read error is returned; strict mode with a required label missing returns the missing-metadata error with no write; otherwise exactly one replace call with the persisted values, whose answer is returned |
| MetadataWrite.PersistedSource | apps/ddash/internal/app/services/metadata.go:50-77 | every persisted value is non-blank, the trimmed value of an input field whose label is allowed, under the configured spelling |
| MetadataWrite.PersistedEntries | apps/ddash/internal/app/services/metadata.go:41-77 | every persisted label is the trimmed label of some required field |
| MetadataWrite.PersistedDistinct | apps/ddash/internal/app/services/metadata.go:50-77 | the persisted labels are pairwise distinct |
| MetadataWrite.FirstKept | apps/ddash/internal/app/services/metadata.go:52-66 | the first input field matching a required label is the one kept for it |
| MetadataWrite.PersistedFirstWins | apps/ddash/internal/app/services/metadata.go:52-77 | when the first matching field has a value, that value is the one written for the label |
| MetadataWrite.PersistedBlankFirstBlocks | apps/ddash/internal/app/services/metadata.go:52-77 | when the first matching field is blank, nothing is written for the label even if a later duplicate has a value |
| MetadataWrite.StrictWriteComplete | apps/ddash/internal/app/services/metadata.go:79-91 | a write that passes the strict check holds a non-blank value for every required label |
| MetadataWrite.StrictRejectsMissing | apps/ddash/internal/app/services/metadata.go:79-89 | a required label without a persisted value fails the strict check |
| AppStore.NullStringOf | apps/ddash/internal/adapters/sqlite/store.go:50-56 | the value is valid exactly when the input is non-blank, and then it is the trimmed input; otherwise NULL with empty text |
| AppStore.NullStringStable | apps/ddash/internal/adapters/sqlite/store.go:50-56 | nullString of a valid result's text gives that result again |
| AppStore.NullInt64Of | apps/ddash/internal/adapters/sqlite/store.go:58-63 | the value is valid exactly when the input is positive, and then it is the input; otherwise NULL zero |
| AppStore.BoolToInt64 | apps/ddash/internal/adapters/sqlite/store.go:574-579 | the column is 0 or 1, and non-zero exactly when the flag is true |
| AppStore.CreateOrganization | apps/ddash/internal/adapters/sqlite/store.go:113-130 | one insert: name, auth token and webhook secret are the trimmed inputs; the join code is the trimmed code, or NULL exactly when it is blank; the enabled flag is 1 or 0 |
| AppStore.CreateOrganizationStable | apps/ddash/internal/adapters/sqlite/store.go:113-125 | re-creating from the inserted values produces the same insert |
| AppStore.UpdateOrganizationName | apps/ddash/internal/adapters/sqlite/store.go:133-139 | no statement exactly when the id is non-positive or the name blank; otherwise the rename with the trimmed, non-empty name |
| AppStore.UpdateOrganizationEnabled | apps/ddash/internal/adapters/sqlite/store.go:142-147 | no statement exactly when the id is non-positive; otherwise the enabled update |
| AppStore.DeleteOrganization | apps/ddash/internal/adapters/sqlite/store.go:150-155 | no statement exactly when the id is non-positive; otherwise the delete |
| AppStore.UpsertOrganizationJoinRequest | apps/ddash/internal/adapters/sqlite/store.go:340-349 | no statement exactly when either id is non-positive; otherwise the upsert with the trimmed request code |
| AppStore.SetOrganizationJoinRequestStatus | apps/ddash/internal/adapters/sqlite/store.go:377-387 | no statement exactly when any id is non-positive; otherwise the update with the trimmed status and a positive reviewed-by user id |
| AppStore.DeleteGitHubInstallationMapping | apps/ddash/internal/adapters/sqlite/store.go:278-290 | nil exactly when a row was deleted; no rows when the count is zero; a query error is passed through |
| AppStore.KeptAt | apps/ddash/internal/adapters/sqlite/store.go:525-544 | every statement a filtering loop sends is the row of an input at a recorded index |
| AppStore.KeptOrdered | apps/ddash/internal/adapters/sqlite/store.go:525-544 | the statements are sent in input order |
| AppStore.KeptComplete | apps/ddash/internal/adapters/sqlite/store.go:525-544 | every input whose row is not skipped is sent |
| AppStore.KeptAll | apps/ddash/internal/adapters/sqlite/store.go:491-499 | when no input is skipped, the statements are the rows of all inputs, one each |
| AppStore.KeepRows | apps/ddash/internal/adapters/sqlite/store.go:525-544 | the loop with its continue computes the kept rows |
| AppStore.FirstFailure | apps/ddash/internal/adapters/sqlite/store.go:458-571 | the statement at which a transaction stops: every one before it succeeded, and it failed unless the plan ran out |
| AppStore.FirstFailureAt | apps/ddash/internal/adapters/sqlite/store.go:458-571 | the stopping point is the first failing statement |
| AppStore.Transaction | apps/ddash/internal/adapters/sqlite/store.go:458-571 | a transaction is always opened |
| AppStore.TransactionShape | apps/ddash/internal/adapters/sqlite/store.go:458-571 | statements go out in plan order with nothing skipped; only the last sent may have failed; an error persists nothing; what persists is a prefix of successful statements |
| AppStore.TransactionCommitsAll | apps/ddash/internal/adapters/sqlite/store.go:458-571 | the whole plan persists without error exactly when every statement succeeds |
| AppStore.TransactionRollsBack | apps/ddash/internal/adapters/sqlite/store.go:464-544 | a failure among the organization, feature, preference and field statements rolls everything back and returns that error |
| AppStore.TransactionToleratesMissingTable | apps/ddash/internal/adapters/sqlite/store.go:546-568 | a missing priorities table reported by a priority statement ends the transaction successfully, committing what was sent before it |
| AppStore.TransactionOtherErrorRollsBack | apps/ddash/internal/adapters/sqlite/store.go:546-568 | any other priority-statement error rolls back and is returned |
| AppStore.RunTransaction | apps/ddash/internal/adapters/sqlite/store.go:458-571 | the statement-by-statement loop yields the transaction outcome |
| AppStore.UpdateOrganizationSettings | apps/ddash/internal/adapters/sqlite/store.go:454-572 | the settings write is one transaction over the organization, feature, preference and field statements followed by the priority statements |
| AppStore.FeatureRowsAll | apps/ddash/internal/adapters/sqlite/store.go:473-499 | one feature upsert per known key, thirteen in all, in the listed order, each with its flag as 0 or 1 |
| AppStore.PreferenceWritten | apps/ddash/internal/adapters/sqlite/store.go:509-520 | a preference is upserted exactly when its value is non-blank |
| AppStore.PreferenceListWritten | apps/ddash/internal/adapters/sqlite/store.go:501-520 | each of the three preferences is upserted exactly when its trimmed value is non-empty |
| AppStore.RetentionAlwaysWritten | apps/ddash/internal/adapters/sqlite/store.go:505 | the retention, written as a decimal, is always upserted |
| AppStore.ViewWrittenUnlessBlank | apps/ddash/internal/adapters/sqlite/store.go:506-512 | the dashboard view is upserted, trimmed, exactly when it is non-blank |
| AppStore.SemanticsWrittenUnlessBlank | apps/ddash/internal/adapters/sqlite/store.go:507-512 | the status semantics is upserted, trimmed, exactly when it is non-blank |
| AppStore.FieldRowsSound | apps/ddash/internal/adapters/sqlite/store.go:525-544 | every field insert has a trimmed non-empty label and type of the field at its sort order, and the field's filterable flag |
| AppStore.FieldRowsOrdered | apps/ddash/internal/adapters/sqlite/store.go:525-544 | field inserts are sent in increasing sort order |
| AppStore.FieldRowsComplete | apps/ddash/internal/adapters/sqlite/store.go:525-544 | every field with non-blank label and type is inserted with its input index as sort order |
| AppStore.PriorityRowsSound | apps/ddash/internal/adapters/sqlite/store.go:553-568 | every priority insert is the trimmed, non-empty environment at its sort order |
| AppStore.PriorityRowsComplete | apps/ddash/internal/adapters/sqlite/store.go:553-568 | every non-blank environment is inserted with its input index as sort order |
| AppStore.SettingsMissingTableCommits | apps/ddash/internal/adapters/sqlite/store.go:546-568 | a missing priorities table never loses the organization, feature, preference and field writes |
| AppStore.ReplaceServiceMetadataOutcome | apps/ddash/internal/adapters/sqlite/store.go:582-613 | a transaction is opened exactly when the service name is non-blank |
| AppStore.ReplaceServiceMetadata | apps/ddash/internal/adapters/sqlite/store.go:582-613 | the method runs the delete-then-upsert transaction |
| AppStore.ReplaceAllOrNothing | apps/ddash/internal/adapters/sqlite/store.go:588-612 | without error the delete and every kept upsert persist; with an error nothing does |
| AppStore.DeleteThenUpsert | apps/ddash/internal/adapters/sqlite/store.go:589-610 | after the delete and upserts the service has a row for exactly the upserted labels |
| AppStore.DeleteThenUpsertOthers | apps/ddash/internal/adapters/sqlite/store.go:589-610 | other services' rows are untouched |
| AppStore.MetadataRowsUpsert | apps/ddash/internal/adapters/sqlite/store.go:596-610 | every kept statement is an upsert for this organization and service |
| AppStore.MetadataRowSource | apps/ddash/internal/adapters/sqlite/store.go:596-610 | every upsert is the trimmed label and value of an input entry with both non-blank |
| AppStore.ReplaceLeaves | apps/ddash/internal/adapters/sqlite/store.go:588-612 | after a replacement the service has exactly one row per kept label, valued with a trimmed input value; other services keep their rows |
| AppStore.PersistedStoredExactly | apps/ddash/internal/adapters/sqlite/store.go:582-613 | every value the metadata service hands over is stored exactly under its label |
| AppStore.CleanStoredExactly | apps/ddash/internal/adapters/sqlite/store.go:596-610 | trimmed, non-blank, distinct-label entries are each stored exactly |
| GitHubIntegration.NormalizeEnvironment | apps/ddash/internal/domains/githubintegration/models.go:24-33 | the trimmed value when non-blank, else the trimmed fallback when non-blank, else "production" |
| GitHubIntegration.NormalizeEnvironmentClean | apps/ddash/internal/domains/githubintegration/models.go:24-33 | the result is never blank and is already trimmed |
| GitHubIntegration.NormalizeEnvironmentIdempotent | apps/ddash/internal/domains/githubintegration/models.go:24-33 | normalising a normalised environment changes nothing |
| GitHubIntegration.HexEncode | apps/ddash/internal/application/githubintegration/service.go:103-109 | the hex state has two characters per random byte |
| GitHubIntegration.HexEncodeDigits | apps/ddash/internal/application/githubintegration/service.go:108 | every character of the state is a lower-case hex digit |
| GitHubIntegration.HexEncodeByte | apps/ddash/internal/application/githubintegration/service.go:108 | each pair of digits spells its byte |
| GitHubIntegration.HexEncodeInjective | apps/ddash/internal/application/githubintegration/service.go:103-109 | different random bytes give different states |
| GitHubIntegration.HexEncodeTrimmed | apps/ddash/internal/adapters/sqlite/store.go:311 | trimming the state, as the store does, leaves it unchanged |
| GitHubIntegration.Enabled | apps/ddash/internal/application/githubintegration/service.go:36-38 | true exactly when the service and its installer exist and the installer is enabled |
| GitHubIntegration.Service.constructor | apps/ddash/internal/application/githubintegration/service.go:32-34 | a new service holds the installer and empty intent and mapping tables |
| GitHubIntegration.Service.StartInstall | apps/ddash/internal/application/githubintegration/service.go:58-73 | a failed state draw or a failed store write stores nothing; otherwise the intent is stored under the hex state with the trimmed label, the normalised environment and a 15-minute expiry, and the installer's answer is returned; mappings never change |
| GitHubIntegration.Service.CompleteInstall | apps/ddash/internal/application/githubintegration/service.go:75-97 | an unknown state is not-found with no writes; an expired intent is deleted, with the delete error ignored, and refused; otherwise an enabled mapping with the intent's organization, label and environment is upserted under the installation id, then the intent is deleted |
| GitHubIntegration.Service.DeleteMapping | apps/ddash/internal/application/githubintegration/service.go:99-101 | the mapping goes exactly when it exists for that organization; deleting nothing is no rows; intents never change |
| ProcessConfig.HeaderPair | internal/config/config.go:215-228 | an entry yields a pair only with a non-empty, trimmed key free of "=" and a non-empty, trimmed value |
| ProcessConfig.SplitPair | internal/config/config.go:219-227 | the entry is split at its first "=", and both trimmed sides must be non-empty |
| ProcessConfig.Pairs | internal/config/config.go:214-229 | one parse result per comma-separated part, in order |
| ProcessConfig.ParseOTLPHeaders | internal/config/config.go:208-234 | the parsing loop computes the header map of the list |
| ProcessConfig.CollectHeaders | internal/config/config.go:213-229 | the loop collects exactly the pairs of the parts |
| ProcessConfig.CollectSound | internal/config/config.go:213-229 | every header comes from an entry, and no later entry sets the same key |
| ProcessConfig.CollectLastWins | internal/config/config.go:228 | a repeated key takes the value of its last entry |
| ProcessConfig.CollectHolds | internal/config/config.go:228 | every key some entry sets is in the map |
| ProcessConfig.HeadersClean | internal/config/config.go:223-228 | every key and value in the map is non-empty and trimmed, and keys hold no "=" |
| ProcessConfig.ParsedSinglePair | internal/config/config.go:208-234 | "key=value" with clean key and value parses to exactly that one header |
| ProcessConfig.ParsedSingleEntry | internal/config/config.go:208-234 | a one-entry list whose text is key, "=", value parses to that header |
| ProcessConfig.ParsedHeadersNil | internal/config/config.go:209-233 | a blank list is nil; a map that is not nil is never empty; a non-blank list is nil only when no entry is a valid pair |
| ProcessConfig.MergedHeadersEntries | internal/config/config.go:236-248 | the merge is nil exactly when both maps are empty; otherwise it has the keys of both, and the override's value wins |
| ProcessConfig.MergeHeaderMaps | internal/config/config.go:236-248 | the two copy loops compute the merge |
| ProcessConfig.MergeIntoNil | internal/config/config.go:236-248 | merging a parsed map over nil gives that map back |
| ProcessConfig.LocalDevelopmentFolds | internal/config/config.go:250-257 | local development ignores case and surrounding space, and a blank environment counts as local |
| ProcessConfig.ResolveEnvironment | internal/config/config.go:263-271 | empty exactly when every candidate is blank; the result is trimmed and lower-case |
| ProcessConfig.ResolveEnvironmentFirst | internal/config/config.go:264-269 | the first non-blank candidate, trimmed and lower-cased, is the environment |
| ProcessConfig.Lookup | internal/config/config.go:74-97 | a set, non-empty variable wins over the registered default |
| ProcessConfig.LookupInt | internal/config/config.go:77 | an unset variable gives the default; a parsable one gives its number |
| ProcessConfig.LookupBool | internal/config/config.go:79-81 | an unset variable gives the default; a set one is true exactly when it spells true |
| ProcessConfig.Read | internal/config/config.go:74-97 | without DDASH_PORT the port is 8080; the session secret has no default |
| ProcessConfig.ClampBatchSize | internal/config/config.go:113-119 | the batch size is within 1..2000, unchanged inside that range, 100 when non-positive and 2000 above |
| ProcessConfig.ClampBatchFlushMs | internal/config/config.go:121-127 | the flush interval is within 1..5000 ms, unchanged inside that range, 50 when non-positive and 5000 above |
| ProcessConfig.FirstNonBlank | internal/config/config.go:134-148 | the first non-blank of the two settings, trimmed, else the fallback, so never empty with a non-empty fallback |
| ProcessConfig.CallbackUrl | internal/config/config.go:129-132 | the trimmed configured callback, else a localhost URL on the chosen port; never empty |
| ProcessConfig.FinishFacts | internal/config/config.go:195-205 | the secret is refused exactly when it is required, empty and the environment is not local; otherwise only a blank database path and an empty local secret are filled in |
| ProcessConfig.AssembleFacts | internal/config/config.go:99-193 | the assembled configuration has the resolved environment, the port, trimmed path and secret, a callback, clamped batch settings, non-empty service name and version, telemetry enabled by flag, endpoint or console, and the merged header maps |
| ProcessConfig.BuildPort | internal/config/config.go:100-103 | the load fails with the port exactly when it is outside 1..65535; otherwise the port is kept |
| ProcessConfig.BuildSessionSecretRequired | internal/config/config.go:61-68 | the missing-secret error happens exactly for Load outside local development with a blank secret; LoadForTool only fails on the port |
| ProcessConfig.BuildSessionSecret | internal/config/config.go:195-203 | the secret is the trimmed setting, or "ddash-local-dev" when blank in local development, and is non-empty whenever required or local |
| ProcessConfig.FinishSecret | internal/config/config.go:198-203 | the secret is replaced only when empty in local development |
| ProcessConfig.BuildBounds | internal/config/config.go:113-197 | a loaded configuration has batch size and flush interval in range, equal to the clamped settings, a non-blank database path, and non-empty service name, version and callback |
| ProcessConfig.BuildObservability | internal/config/config.go:150-157 | telemetry is enabled exactly by the flag, a non-blank endpoint or the console; trace and metric headers are the common map merged with their own |
| ProcessConfig.LoadForToolDefaultPort | internal/config/config.go:66-68 | LoadForTool without DDASH_PORT succeeds on port 8080 |
| AuthSession.Field | apps/ddash/internal/server/routes/auth_session.go:25-28 | a missing key reads as nil; a present key reads as its stored value |
| AuthSession.ToInt64 | apps/ddash/internal/server/routes/auth_session.go:149-162 | a number exactly for int64, int, int32 and float64 values; integers are kept and a float64 is truncated toward zero |
| AuthSession.ToString | apps/ddash/internal/server/routes/auth_session.go:164-169 | a string value is trimmed; anything else is ""; the result is always trimmed |
| AuthSession.FromLegacy | apps/ddash/internal/server/routes/auth_session.go:127-129 | the legacy record converts field for field |
| AuthSession.FromFields | apps/ddash/internal/server/routes/auth_session.go:130-146 | a user exactly when "id" decodes to a positive number; then its name, nickname, email and avatar are the trimmed string fields |
| AuthSession.FromSessionValue | apps/ddash/internal/server/routes/auth_session.go:123-147 | a user record or legacy record is returned as is; a field map decodes as above; any other value is no user |
| AuthSession.FieldsRoundTrip | apps/ddash/internal/server/routes/auth_session.go:123-147 | a user with a positive id and trimmed fields, stored as a field map, decodes back to itself; a non-positive id never decodes |
| AuthSession.FromFieldsTrimmed | apps/ddash/internal/server/routes/auth_session.go:140-146 | every decoded text field is trimmed |
| AuthSession.ClearedBy | apps/ddash/internal/server/routes/auth_session.go:18-23 | an invalid secure cookie clears both the auth and the goth cookie; any other store error clears nothing |
| AuthSession.GetAuthUser | apps/ddash/internal/server/routes/auth_session.go:44-54 | a user exactly when the request context holds a user record, and it is that record |
| AuthSession.GetAuthUserID | apps/ddash/internal/server/routes/auth_session.go:13-41 | a context user with a positive id wins; otherwise a store error gives no id and clears cookies as above; otherwise the session's "userID" decoded as a number |
| AuthSession.GetActiveOrganizationID | apps/ddash/internal/server/routes/auth_session.go:57-83 | a store error gives no id and clears cookies as above; otherwise the session's "activeOrgID" decoded as a number |
| AuthSession.AuthUserFromSession | apps/ddash/internal/server/routes/auth_session.go:103-117 | a store error gives no user and clears cookies as above; otherwise the session's "user" value decoded |
| AuthSession.ContextUserPrecedence | apps/ddash/internal/server/routes/auth_session.go:14-16 | with a context user of positive id the session is never consulted |
| AuthSession.SessionFallback | apps/ddash/internal/server/routes/auth_session.go:17-40 | without such a user the id comes from the session alone |
| AuthSession.Session.constructor | apps/ddash/internal/server/routes/auth_session.go:17 | a session holds the values the store loaded |
| AuthSession.Session.SetAuthUser | apps/ddash/internal/server/routes/auth_session.go:119-121 | only "user" changes, and reading the user back gives the stored record |
| AuthSession.SetActiveOrganizationID | apps/ddash/internal/server/routes/auth_session.go:86-101 | an invalid cookie clears both cookies and succeeds without writing; another store error is returned; otherwise only "activeOrgID" changes, reads back as written, and a save failure is returned wrapped |
| AuthSession.ActiveOrganizationRoundTrip | apps/ddash/internal/server/routes/auth_session.go:57-101 | the written organization reads back as written, and the signed-in user id and user record are unaffected |
| FragmentCache.WithoutFacts | apps/ddash/internal/renderer/fragment_renderer.go:154 | unlinking a key leaves every other key, keeps the list free of duplicates, shortens it by one when the key was there and changes nothing otherwise |
| FragmentCache.LookupHit | apps/ddash/internal/renderer/fragment_renderer.go:144-161 | get answers a body exactly when the key is present and the clock is not after its expiry; a hit returns the stored body, keeps every entry and moves the key to the front |
| FragmentCache.LookupKeepsOthers | apps/ddash/internal/renderer/fragment_renderer.go:144-161 | get never adds, drops or changes the entry of another key |
| FragmentCache.LookupCoherent | apps/ddash/internal/renderer/fragment_renderer.go:144-161 | get keeps the list and the map describing the same keys, without duplicates and within capacity |
| FragmentCache.StoreCoherent | apps/ddash/internal/renderer/fragment_renderer.go:163-192 | set keeps the list and the map describing the same keys, without duplicates and within capacity |
| FragmentCache.StoreThenLookup | apps/ddash/internal/renderer/fragment_renderer.go:144-192 | a body just set is read back until its expiry, and not after it |
| FragmentCache.StoreExisting | apps/ddash/internal/renderer/fragment_renderer.go:167-172 | setting a present key replaces its body and expiry in place, moves it to the front and keeps the size |
| FragmentCache.StoreNewEvictsTail | apps/ddash/internal/renderer/fragment_renderer.go:175-191 | setting a new key keeps every other entry unchanged except that a full cache evicts its least recently used key |
| FragmentCache.VersionKey | apps/ddash/internal/renderer/fragment_renderer.go:76 | the versioned key starts with the fragment key and "\|v=" |
| FragmentCache.TtlKey | apps/ddash/internal/renderer/fragment_renderer.go:83 | the TTL key starts with the fragment key |
| FragmentCache.VersionKeyInjective | apps/ddash/internal/renderer/fragment_renderer.go:76-83 | different fragment keys or versions never share a cache key, and no versioned key is a TTL key |
| FragmentCache.TtlKeyInjective | apps/ddash/internal/renderer/fragment_renderer.go:83 | different fragment keys never share a TTL key |
| FragmentCache.VersionBumpMisses | apps/ddash/internal/renderer/fragment_renderer.go:74-78 | after a body is stored under one version, a lookup of a new version misses |
| FragmentCache.FragmentRenderer.constructor | apps/ddash/internal/renderer/fragment_renderer.go:58-72 | a non-positive capacity becomes 512 and a non-positive TTL five seconds; the cache starts empty |
| FragmentCache.FragmentRenderer.Get | apps/ddash/internal/renderer/fragment_renderer.go:144-161 | get updates the list and the map in place as the lookup says and answers its body |
| FragmentCache.FragmentRenderer.Set | apps/ddash/internal/renderer/fragment_renderer.go:163-192 | set updates the list and the map in place as the store says, expiring a TTL after the clock |
| FragmentCache.FragmentRenderer.RenderCachedByKey | apps/ddash/internal/renderer/fragment_renderer.go:108-128 | a hit answers the cached body without rendering; a failed render returns its error and stores nothing; a successful render is stored and returned as a miss |
| FragmentCache.FragmentRenderer.RenderCached | apps/ddash/internal/renderer/fragment_renderer.go:74-78 | the same under the key and version |
| FragmentCache.FragmentRenderer.RenderCachedTTL | apps/ddash/internal/renderer/fragment_renderer.go:81-85 | the same under the TTL key, with no version |
| FragmentCache.FragmentRenderer.TryGetTTL | apps/ddash/internal/renderer/fragment_renderer.go:87-97 | a plain get of the TTL key |
| FragmentCache.FragmentRenderer.StoreTTL | apps/ddash/internal/renderer/fragment_renderer.go:99-106 | an empty key or body changes nothing; otherwise a set of the TTL key |
| QueryMetrics.SampleName | internal/db/query_metrics.go:38-41 | the filed name is never empty and is trimmed; a non-blank name is filed trimmed, a blank one as "unknown" |
| QueryMetrics.Appended | internal/db/query_metrics.go:46-49 | the window ends with the new duration and holds at most 512 samples; a window under 512 simply grows by it, a full one stays at 512 |
| QueryMetrics.ObservedNewest | internal/db/query_metrics.go:46-50 | after n observations a window holds exactly the newest min(n, 512) durations, in arrival order |
| QueryMetrics.P95Index | internal/db/query_metrics.go:74 | the 95th-percentile index lies between the median index and the last index |
| QueryMetrics.SortedCopy | internal/db/query_metrics.go:66-68 | the sorted copy has the window's durations, and its last is the largest |
| QueryMetrics.StatsOf | internal/db/query_metrics.go:66-76 | the count is the window size; median, 95th percentile and maximum are durations of the window, in that order of size, and the maximum bounds every sample |
| QueryMetrics.StatsOfRanks | internal/db/query_metrics.go:66-76 | for any ascending rearrangement of the window, the median is at rank (n-1)/2, the 95th percentile at rank P95Index(n) and the maximum last |
| QueryMetrics.BeforeOrder | internal/db/query_metrics.go:79-84 | the snapshot comparator is a strict weak order |
| QueryMetrics.ByP95 | internal/db/query_metrics.go:79-84 | the sorted report is a permutation of the entries, larger 95th percentile first and ties by name ascending |
| QueryMetrics.InOrderUnique | internal/db/query_metrics.go:62-86 | two reports in snapshot order with the same entries are equal, so the map's walk order does not show |
| QueryMetrics.FirstLine | internal/db/query_metrics.go:148-152 | the trimmed query up to its first newline, trimmed again; it holds no newline |
| QueryMetrics.NameField | internal/db/query_metrics.go:153-160 | the third whitespace-separated field when the line starts with "-- name:" and has at least three fields, else "unknown"; never empty and free of spaces |
| QueryMetrics.QueryName | internal/db/query_metrics.go:147-161 | the third field of the query's first line when that line starts with "-- name:" and has three fields, else "unknown"; never empty and free of spaces |
| QueryMetrics.QueryNameFiled | internal/db/query_metrics.go:102-108 | a name from queryName is filed unchanged by observe |
| QueryMetrics.Tracker.constructor | internal/db/query_metrics.go:30-32 | a new tracker has no windows |
| QueryMetrics.Tracker.Observe | internal/db/query_metrics.go:34-51 | the duration joins the window of the cleaned name, bounded at 512; no other window changes |
| QueryMetrics.Tracker.Snapshot | internal/db/query_metrics.go:53-87 | one entry per name with samples, each the statistics of its window, in snapshot order |

## Left out

- Concurrency: the ingest batcher goroutine, its channel queue, ticker and atomics, the SSE stream loops, and the mutexes of the fragment cache and the latency tracker. The two classes are single-threaded.
- I/O: HTTP routing and handlers beyond the functions modelled, cookies and OAuth, servers, HTTP clients, CLI mains, the sqlc query layer, SQL text, migrations and projection rebuild statements.
- Foreign libraries: the CDEvents SDK, CloudEvents binding, `encoding/json`, go-github payload parsing, URL encoding, templ rendering and OpenTelemetry metrics and spans. HMAC, hex and random bytes are parameters.
- Time: `time.Parse` and `time.Format` (formatTimestamp, parseTimestamp) are not modelled. Timestamps are integers and the clock is a parameter.
- Floating point: formatChangeFailureRate, formatDailyRate, the sampling-ratio clamp in internal/config/config.go, the float cases of toInt64, and k6's `Math.random` routing.
- ServiceCatalog.PercentileIndex: the percentile is an integer percentage and the index is ceil(pct*n/100)-1 in exact arithmetic; Go's float `ceil(p*n)` rounding is not modelled.
- QueryMetrics.P95Index: int(float64(n-1)*0.95) is taken as (n-1)*95/100 in exact arithmetic; float rounding is not modelled.
- ServiceCatalog.ParseDependencyInputs: its Go body is not part of this model; the function follows the behaviour its unit test asserts (split on ",", ";" and newline, drop the service itself and case-insensitive duplicates, keep first-seen order).
- OrgConfig.GetSettings: the feature-key folding that Go does inside the override loop is done in a pass of its own first (FoldFeatureKeys); the result is the same.
- OrgManagement: the thin pass-through operations (EnsureDefaultOrganization, ListOrganizations, ListMembers, EnsureUser, RenameOrganization, join requests, AddMemberByLookup, CreateOrganization and createInitialOrganizationForUser with its name-conflict retry loop) are not modelled.
- OrgManagement: store failures other than a missing row are not modelled; the model answers as if every store call succeeded. The Go code returns the store's error from GetActiveOrDefaultOrganizationForUser (listing the user's organizations), CanManageOrganization (reading the role), UpdateMemberRole (counting owners, and the member upsert), RemoveMember (reading the role, counting owners, and the delete), SetOrganizationEnabled (listing organizations, reading the organization, and the update) and DeleteOrganization (listing organizations, and the delete). In UpdateMemberRole a failing role read skips the last-owner guard and the new role is written anyway; the model does not capture that write.
- GitHubIntegration: ListMappings and randomStateHex are not modelled; the random state is a parameter.
- AppStore: the plain read and write pass-throughs (user, member, mapping and setup-intent queries, ListPendingOrganizationJoinRequests) are not modelled.
- QueryMetrics: the instrumentedDBTX wrappers only time a call and file it under queryName; the timing is not modelled.
- FragmentCache: the render metrics and RecordBypass/RecordError only emit telemetry and are not modelled.
- ProcessConfig: IngestionBatchFlushInterval only converts milliseconds to a duration and is not modelled; viper's own parsing is modelled only as far as GetString, GetInt and GetBool are used.
- AuthSession: isInvalidSecureCookieError and the cookie clearing live in auth_cookie.go, which is not part of this model; the error test is a predicate over an error datatype and clearing is returned as the list of cookie names.
- EventStore.BatchBody: the store's answer to each INSERT is a fixed function of the item, independent of what the same transaction inserted before it; the model does not capture that a second item with the same event key in one batch conflicts with the first, so unless that answer is "no row" a repeated event is inserted and projected twice. EventStore.AppendEventStoreBatch inherits this.
- Go integer widths: int64 overflow is not modelled.
- Nil receivers and nil maps are modelled only where the code checks for them.

## Findings

| source | as written | input that shows it | evidently intended | confidence | as-written member | corrected member |
|---|---|---|---|---|---|---|
| apps/ddash/internal/application/servicecatalog/service.go:119-124 | BuildDependencyGraph remembers edges by the string name + "->" + dep, so two different edges can share one key | service "a->b" depending on "c", then service "a" depending on "b->c": both keys are "a->b->c", so the second edge is dropped | every distinct (from, to) edge is emitted once | not executed | ServiceCatalog.EdgeKeyCollision | ServiceCatalog.AddDependencyKeepsEdge |
