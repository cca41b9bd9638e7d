/**
 * The legacy-deployment backfill tool (cmd/eventbackfill/main.go): each row of the old
 * deployments table becomes a service deployed or rolled-back event with a deterministic id,
 * subject and package URL, and is appended to the event store.
 *
 * The SDK's validation and JSON encoding, and the store's append, are parameters: whether a
 * built event is accepted, and whether its append succeeds. Timestamps are not modelled.
 */
module Backfill {
  import opened Wrappers
  import opened GoStrings
  import opened CDEvents
  import opened Bridge

  /** A row of the legacy deployments table; a NULL release ref is None. */
  datatype LegacyDeployment = LegacyDeployment(
    id: int, service: String, environment: String, status: String, releaseRef: Option<String>)

  /** The fields the tool sets on the SDK event. */
  datatype BackfillEvent = BackfillEvent(
    eventId: String, eventType: String, source: String, subjectId: String, environment: String, artifactId: String)

  /** The event type of a legacy status, as given (already trimmed by the caller): only "error" rolls back. */
  function ServiceEventForStatus(status: String): (r: String)
    ensures r in {ServiceDeployed, ServiceRolledback}
    ensures r == ServiceRolledback <==> ToLower(status) == "error"
  {
    if ToLower(status) == "error" then ServiceRolledback else ServiceDeployed
  }

  // ---------------------------------------------------------------------------
  // Package-URL names

  /** The characters a package-URL name keeps: ASCII letters and digits, '.', '_' and '-'. */
  predicate PurlChar(c: char)
  {
    ('a' <= c <= 'z') || ('A' <= c <= 'Z') || ('0' <= c <= '9') || c == '.' || c == '_' || c == '-'
  }

  function CleanChar(c: char): (r: char)
    ensures PurlChar(r)
  {
    if PurlChar(c) then c else '-'
  }

  /** Every character kept or replaced by a single '-'. */
  function CleanChars(s: String): (r: String)
    ensures |r| == |s|
    ensures forall i :: 0 <= i < |s| ==> r[i] == CleanChar(s[i])
    ensures forall i :: 0 <= i < |r| ==> PurlChar(r[i])
  {
    if s == [] then [] else CleanChars(s[..|s| - 1]) + [CleanChar(s[|s| - 1])]
  }

  const NameTrim: set<char> := {'-', '.'}

  /** The name sanitizePurlName computes: trimmed, cleaned, stripped of '-' and '.' at both ends, "service" if nothing is left. */
  function SanitizedName(value: String): (r: String)
    ensures r != []
    ensures forall i :: 0 <= i < |r| ==> PurlChar(r[i])
    ensures TrimmedBy(r, NameTrim)
  {
    var clean := CleanChars(TrimSpace(value));
    var name := TrimSet(clean, NameTrim);
    if name == [] then
      ServiceNameIsPurl();
      "service"
    else
      TrimKeepsPurl(clean);
      name
  }

  /** Trimming the ends keeps a name made of package-URL characters made of them. */
  lemma TrimKeepsPurl(c: String)
    requires forall i :: 0 <= i < |c| ==> PurlChar(c[i])
    ensures forall i :: 0 <= i < |TrimSet(c, NameTrim)| ==> PurlChar(TrimSet(c, NameTrim)[i])
  {
    var l := TrimLeftSet(c, NameTrim);
    assert forall i :: 0 <= i < |l| ==> PurlChar(l[i]) by {
      assert forall i :: 0 <= i < |l| ==> l[i] == c[|c| - |l| + i];
    }
    TrimRightKeepsPurl(l);
  }

  lemma TrimRightKeepsPurl(l: String)
    requires forall i :: 0 <= i < |l| ==> PurlChar(l[i])
    ensures forall i :: 0 <= i < |TrimRightSet(l, NameTrim)| ==> PurlChar(TrimRightSet(l, NameTrim)[i])
  {
    var r := TrimRightSet(l, NameTrim);
    assert forall i :: 0 <= i < |r| ==> r[i] == l[i];
  }

  lemma ServiceNameIsPurl()
    ensures forall i :: 0 <= i < |"service"| ==> PurlChar("service"[i])
    ensures TrimmedBy("service", NameTrim)
  {
  }

  lemma CleanCharsStep(v: String, i: int)
    requires 0 <= i < |v|
    ensures CleanChars(v[..i + 1]) == CleanChars(v[..i]) + [CleanChar(v[i])]
  {
    assert v[..i + 1][..i] == v[..i];
  }

  /** sanitizePurlName: the same name, built character by character. */
  method SanitizePurlName(value: String) returns (name: String)
    ensures name == SanitizedName(value)
  {
    var v := TrimSpace(value);
    var clean: String := "";
    var i := 0;
    while i < |v|
      invariant 0 <= i <= |v|
      invariant clean == CleanChars(v[..i])
    {
      CleanCharsStep(v, i);
      if PurlChar(v[i]) {
        clean := clean + [v[i]];
      } else {
        clean := clean + ['-'];
      }
      i := i + 1;
    }
    assert v[..|v|] == v;
    name := TrimSet(clean, NameTrim);
    if name == "" {
      name := "service";
    }
  }

  /** A cleaned name holds no spaces, so trimming leaves it alone. */
  lemma CleanNameTrimmed(r: String)
    requires forall i :: 0 <= i < |r| ==> PurlChar(r[i])
    ensures TrimSpace(r) == r
  {
    assert r != [] ==> !IsSpace(r[0]) && !IsSpace(r[|r| - 1]);
  }

  /** ... and cleaning leaves it alone. */
  lemma CleanNameClean(r: String)
    requires forall i :: 0 <= i < |r| ==> PurlChar(r[i])
    ensures CleanChars(r) == r
  {
    assert forall i :: 0 <= i < |r| ==> CleanChars(r)[i] == r[i];
  }

  /** Sanitizing twice is sanitizing once. */
  lemma SanitizedNameIdempotent(value: String)
    ensures SanitizedName(SanitizedName(value)) == SanitizedName(value)
  {
    var r := SanitizedName(value);
    CleanNameTrimmed(r);
    CleanNameClean(r);
  }

  // ---------------------------------------------------------------------------
  // Events

  /** The package URL: the trimmed release ref when there is one, else "backfill-<id>", under the sanitized name. */
  function ArtifactForBackfill(service: String, releaseRef: Option<String>, deploymentId: int): (r: String)
    ensures HasPrefix(r, "pkg:generic/" + SanitizedName(service) + "@")
    ensures releaseRef.Some? && !IsBlank(releaseRef.value) ==>
              r == GenericPurl(SanitizedName(service), TrimSpace(releaseRef.value))
    ensures (releaseRef.None? || IsBlank(releaseRef.value)) ==>
              r == GenericPurl(SanitizedName(service), "backfill-" + IntToString(deploymentId))
  {
    var name := SanitizedName(service);
    var version := if releaseRef.Some? && TrimSpace(releaseRef.value) != "" then TrimSpace(releaseRef.value)
                   else "backfill-" + IntToString(deploymentId);
    PrefixOfConcat("pkg:generic/" + name + "@", version);
    GenericPurl(name, version)
  }

  function EventId(deploymentId: int): String
  {
    "backfill-deployment-" + IntToString(deploymentId)
  }

  /** Distinct legacy rows get distinct event ids, so a second run appends duplicates the store rejects. */
  lemma EventIdInjective(a: int, b: int)
    requires EventId(a) == EventId(b)
    ensures a == b
  {
    var p := "backfill-deployment-";
    assert EventId(a)[|p|..] == IntToString(a);
    assert EventId(b)[|p|..] == IntToString(b);
    IntToStringInjective(a, b);
  }

  /** The event built for one row. */
  function EventFor(row: LegacyDeployment, source: String): BackfillEvent
  {
    BackfillEvent(EventId(row.id), ServiceEventForStatus(TrimSpace(row.status)), source,
                  "service/" + row.service, row.environment, ArtifactForBackfill(row.service, row.releaseRef, row.id))
  }

  /** The events for a batch of rows, in row order. */
  function EventsFor(rows: seq<LegacyDeployment>, source: String): (r: seq<BackfillEvent>)
    ensures |r| == |rows|
  {
    seq(|rows|, k requires 0 <= k < |rows| => EventFor(rows[k], source))
  }

  /** The events accepted and, unless this is a dry run, appended: the ones counted. */
  function Converted(events: seq<BackfillEvent>, dryRun: bool,
                     accepted: BackfillEvent -> bool, appended: BackfillEvent -> bool): (r: seq<BackfillEvent>)
    ensures |r| <= |events|
  {
    if events == [] then []
    else
      var ev := events[|events| - 1];
      Converted(events[..|events| - 1], dryRun, accepted, appended) +
      (if accepted(ev) && (dryRun || appended(ev)) then [ev] else [])
  }

  /**
   * The backfill loop over the events of the legacy rows: an event that fails validation or
   * whose append fails is skipped; `written` is what reached the store (nothing on a dry run)
   * and `converted` counts the events validated and, outside a dry run, written.
   */
  method RunBackfill(events: seq<BackfillEvent>, dryRun: bool,
                     accepted: BackfillEvent -> bool, appended: BackfillEvent -> bool)
    returns (written: seq<BackfillEvent>, converted: nat)
    ensures converted == |Converted(events, dryRun, accepted, appended)| <= |events|
    ensures written == (if dryRun then [] else Converted(events, dryRun, accepted, appended))
  {
    written := [];
    converted := 0;
    var done: seq<BackfillEvent> := [];
    var i := 0;
    assert events[..0] == [];
    while i < |events|
      invariant 0 <= i <= |events|
      invariant done == Converted(events[..i], dryRun, accepted, appended)
      invariant converted == |done|
      invariant written == (if dryRun then [] else done)
    {
      assert events[..i + 1][..i] == events[..i];
      var ev := events[i];
      if accepted(ev) {
        if dryRun {
          done := done + [ev];
          converted := converted + 1;
        } else if appended(ev) {
          written := written + [ev];
          done := done + [ev];
          converted := converted + 1;
        }
      }
      i := i + 1;
    }
    assert events[..|events|] == events;
  }

  /** Every event counted is one of the batch's events, accepted, and appended unless this is a dry run. */
  lemma {:induction false} ConvertedFromEvents(events: seq<BackfillEvent>, dryRun: bool,
                                               accepted: BackfillEvent -> bool, appended: BackfillEvent -> bool,
                                               ev: BackfillEvent)
    requires ev in Converted(events, dryRun, accepted, appended)
    ensures ev in events && accepted(ev) && (dryRun || appended(ev))
  {
    var init := events[..|events| - 1];
    if ev in Converted(init, dryRun, accepted, appended) {
      ConvertedFromEvents(init, dryRun, accepted, appended, ev);
    }
  }

  /** Every event accepted and appended is counted: nothing is dropped but what fails. */
  lemma {:induction false} ConvertedComplete(events: seq<BackfillEvent>, dryRun: bool,
                                             accepted: BackfillEvent -> bool, appended: BackfillEvent -> bool,
                                             ev: BackfillEvent)
    requires ev in events && accepted(ev) && (dryRun || appended(ev))
    ensures ev in Converted(events, dryRun, accepted, appended)
  {
    var init := events[..|events| - 1];
    if ev != events[|events| - 1] {
      assert events == init + [events[|events| - 1]];
      ConvertedComplete(init, dryRun, accepted, appended, ev);
    }
  }
}
