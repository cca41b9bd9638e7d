/**
 * CDEvents type names as the system spells them: `dev.cdevents.<subject>.<predicate>.<version>`.
 * The eight versioned service and environment types are the ones the v0.5 SDK reports
 * (written out in pkg/eventpublisher/normalize.go and loadtest/common.js).
 */
module CDEvents {
  import opened GoStrings

  const ServiceDeployed: String := "dev.cdevents.service.deployed.0.3.0"
  const ServiceUpgraded: String := "dev.cdevents.service.upgraded.0.3.0"
  const ServiceRolledback: String := "dev.cdevents.service.rolledback.0.3.0"
  const ServiceRemoved: String := "dev.cdevents.service.removed.0.3.0"
  const ServicePublished: String := "dev.cdevents.service.published.0.3.0"
  const EnvironmentCreated: String := "dev.cdevents.environment.created.0.3.0"
  const EnvironmentModified: String := "dev.cdevents.environment.modified.0.3.0"
  const EnvironmentDeleted: String := "dev.cdevents.environment.deleted.0.3.0"

  const PipelineRunStarted: String := "dev.cdevents.pipeline.run.started.0.3.0"
  const PipelineRunSucceeded: String := "dev.cdevents.pipeline.run.succeeded.0.3.0"
  const PipelineRunFailed: String := "dev.cdevents.pipeline.run.failed.0.3.0"
  const ChangePushed: String := "dev.cdevents.change.pushed.0.3.0"

  /** The eight exact types both ingestion pipelines accept. */
  const DeliveryTypes: set<String> := {
    EnvironmentCreated, EnvironmentModified, EnvironmentDeleted,
    ServiceDeployed, ServiceUpgraded, ServiceRolledback, ServiceRemoved, ServicePublished
  }

  /** Short name of each versioned type, e.g. "service.deployed". */
  const ShortNames: map<String, String> := map[
    ServiceDeployed := "service.deployed",
    ServiceUpgraded := "service.upgraded",
    ServiceRolledback := "service.rolledback",
    ServiceRemoved := "service.removed",
    ServicePublished := "service.published",
    EnvironmentCreated := "environment.created",
    EnvironmentModified := "environment.modified",
    EnvironmentDeleted := "environment.deleted"
  ]

  /** The versioned type of each short name: the inverse of ShortNames. */
  const VersionedNames: map<String, String> := map[
    "service.deployed" := ServiceDeployed,
    "service.upgraded" := ServiceUpgraded,
    "service.rolledback" := ServiceRolledback,
    "service.removed" := ServiceRemoved,
    "service.published" := ServicePublished,
    "environment.created" := EnvironmentCreated,
    "environment.modified" := EnvironmentModified,
    "environment.deleted" := EnvironmentDeleted
  ]

  const ServiceShortNames: set<String> := {
    "service.deployed", "service.upgraded", "service.rolledback", "service.removed", "service.published"
  }

  const EnvironmentShortNames: set<String> := {
    "environment.created", "environment.modified", "environment.deleted"
  }

  /** Prefixes of the custom (pipeline, change, artifact, incident) types. */
  const PipelinePrefix: String := "dev.cdevents.pipeline."
  const ChangePrefix: String := "dev.cdevents.change."
  const ArtifactPrefix: String := "dev.cdevents.artifact."
  const IncidentPrefix: String := "dev.cdevents.incident."

  predicate HasCustomPrefix(t: String)
  {
    HasPrefix(t, PipelinePrefix) || HasPrefix(t, ChangePrefix) ||
    HasPrefix(t, ArtifactPrefix) || HasPrefix(t, IncidentPrefix)
  }

  lemma ShortNamesKeys()
    ensures ShortNames.Keys == DeliveryTypes
    ensures VersionedNames.Keys == ServiceShortNames + EnvironmentShortNames
  {
  }

  /** Every short name has a versioned type. */
  lemma ShortNameIsKey(n: String)
    requires n in ServiceShortNames + EnvironmentShortNames
    ensures n in VersionedNames
  {
    ShortNamesKeys();
  }

  /** ShortNames and VersionedNames are inverse tables. */
  lemma ShortNameOf(t: String)
    requires t in DeliveryTypes
    ensures t in ShortNames && ShortNames[t] in VersionedNames && VersionedNames[ShortNames[t]] == t
  {
  }

  lemma VersionedNameOf(n: String)
    requires n in VersionedNames
    ensures VersionedNames[n] in DeliveryTypes && ShortNames[VersionedNames[n]] == n
  {
  }

  /** The short names are lower-case, not blank, trimmed, and not themselves versioned types. */
  lemma ShortNameLower(n: String)
    requires n in VersionedNames
    ensures IsLower(n)
  {
  }

  lemma ShortNameTrimmed(n: String)
    requires n in VersionedNames
    ensures TrimmedBy(n, Spaces) && n != ""
  {
  }

  lemma ShortNameNotVersioned(n: String)
    requires n in VersionedNames
    ensures n !in ShortNames
  {
  }

  lemma ServiceShortNamePrefix(n: String)
    requires n in ServiceShortNames
    ensures HasPrefix(n, "service.")
  {
  }

  /** Service and environment short names are disjoint: they differ in their first letter. */
  lemma ServiceNotEnvironment(n: String)
    requires n in ServiceShortNames
    ensures n !in EnvironmentShortNames
  {
    assert n[0] == 's';
  }

  /** Of the service types, deployed, upgraded and rolled back are exactly the ones other than removed and published. */
  lemma ServiceShortNameSplit(n: String)
    requires n in ServiceShortNames
    ensures n in {"service.removed", "service.published"} <==> n !in {"service.deployed", "service.upgraded", "service.rolledback"}
  {
  }

  lemma CustomPrefixNotService(t: String)
    requires HasCustomPrefix(t)
    ensures !HasPrefix(t, "service.") && t !in ServiceShortNames + EnvironmentShortNames
  {
    var p := if HasPrefix(t, PipelinePrefix) then PipelinePrefix
             else if HasPrefix(t, ChangePrefix) then ChangePrefix
             else if HasPrefix(t, ArtifactPrefix) then ArtifactPrefix
             else IncidentPrefix;
    assert HasPrefix(t, p);
    assert t[0] == t[..|p|][0] == p[0] == 'd';
  }

  lemma VersionedTypeFolded(t: String)
    requires t in DeliveryTypes
    ensures IsLower(t) && TrimmedBy(t, Spaces)
  {
    if t in {ServiceDeployed, ServiceUpgraded, ServiceRolledback} {
      VersionedTypeLower3(t);
    } else if t in {ServiceRemoved, ServicePublished} {
      VersionedTypeLower2(t);
    } else {
      VersionedTypeLowerEnv(t);
    }
  }

  lemma VersionedTypeLower3(t: String)
    requires t in {ServiceDeployed, ServiceUpgraded, ServiceRolledback}
    ensures IsLower(t) && TrimmedBy(t, Spaces)
  {
  }

  lemma VersionedTypeLower2(t: String)
    requires t in {ServiceRemoved, ServicePublished}
    ensures IsLower(t) && TrimmedBy(t, Spaces)
  {
  }

  lemma VersionedTypeLowerEnv(t: String)
    requires t in {EnvironmentCreated, EnvironmentModified, EnvironmentDeleted}
    ensures IsLower(t) && TrimmedBy(t, Spaces)
  {
  }

  /** No exact delivery type starts with a custom prefix: the two ways in are disjoint. */
  lemma DeliveryTypesNotCustom(t: String)
    requires t in DeliveryTypes
    ensures !HasCustomPrefix(t)
  {
    assert |t| > 13 && (t[13] == 's' || t[13] == 'e');
    assert PipelinePrefix[13] == 'p' && ChangePrefix[13] == 'c';
    assert ArtifactPrefix[13] == 'a' && IncidentPrefix[13] == 'i';
  }

  /** The change type with a given predicate, "dev.cdevents.change.<suffix>.0.3.0". */
  function ChangeType(suffix: String): String
  {
    ChangePrefix + suffix + ".0.3.0"
  }

  /** A change type over a lower-case predicate is folded and custom. */
  lemma ChangeTypeCustom(suffix: String)
    requires IsLower(suffix)
    ensures IsLower(ChangeType(suffix)) && TrimmedBy(ChangeType(suffix), Spaces)
    ensures HasCustomPrefix(ChangeType(suffix))
  {
    var t := ChangeType(suffix);
    assert IsLower(ChangePrefix);
    assert IsLower(".0.3.0");
    IsLowerConcat(ChangePrefix, suffix);
    IsLowerConcat(ChangePrefix + suffix, ".0.3.0");
    assert t[0] == 'd' && t[|t| - 1] == '0';
    assert t[..|ChangePrefix|] == ChangePrefix;
  }

  lemma ChangePushedCustom()
    ensures IsLower("pushed") && ChangePushed == ChangeType("pushed")
    ensures IsLower(ChangePushed) && TrimmedBy(ChangePushed, Spaces) && HasCustomPrefix(ChangePushed)
  {
    ChangeTypeCustom("pushed");
  }

  /** The three pipeline-run types are folded and custom. */
  lemma PipelineRunTypeCustom(t: String)
    requires t in {PipelineRunStarted, PipelineRunSucceeded, PipelineRunFailed}
    ensures IsLower(t) && TrimmedBy(t, Spaces) && HasCustomPrefix(t)
  {
    if t == PipelineRunStarted {
      PipelineRunStartedCustom();
    } else if t == PipelineRunSucceeded {
      PipelineRunSucceededCustom();
    } else {
      PipelineRunFailedCustom();
    }
  }

  lemma PipelineRunStartedCustom()
    ensures IsLower(PipelineRunStarted) && TrimmedBy(PipelineRunStarted, Spaces) && HasCustomPrefix(PipelineRunStarted)
  {
    PipelineTypeCustom("run.started.0.3.0");
  }

  lemma PipelineRunSucceededCustom()
    ensures IsLower(PipelineRunSucceeded) && TrimmedBy(PipelineRunSucceeded, Spaces) && HasCustomPrefix(PipelineRunSucceeded)
  {
    PipelineTypeCustom("run.succeeded.0.3.0");
  }

  lemma PipelineRunFailedCustom()
    ensures IsLower(PipelineRunFailed) && TrimmedBy(PipelineRunFailed, Spaces) && HasCustomPrefix(PipelineRunFailed)
  {
    PipelineTypeCustom("run.failed.0.3.0");
  }

  lemma PipelineTypeCustom(rest: String)
    requires IsLower(rest) && rest != [] && rest[|rest| - 1] == '0'
    ensures var t := PipelinePrefix + rest;
            IsLower(t) && TrimmedBy(t, Spaces) && HasCustomPrefix(t)
  {
    var p := PipelinePrefix;
    var t := p + rest;
    assert IsLower(p);
    IsLowerConcat(p, rest);
    assert t[..|p|] == p;
    assert t[0] == 'd' && t[|t| - 1] == '0';
  }
}
