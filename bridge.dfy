/**
 * Helpers the GitHub and GitLab bridges share, each written twice in the repository with the
 * same body (apps/githubappingestor/internal/githubbridge/converter.go and
 * apps/gitlabingestor/internal/gitlabbridge/converter.go): the converter configuration, the
 * defaulted environment and source, the short commit hash and the generic package URL.
 */
module Bridge {
  import opened GoStrings
  import opened CDEvents
  import opened EventPublisher

  datatype ConvertConfig = ConvertConfig(defaultEnvironment: String, source: String)

  /** The trimmed hash, cut to its first 12 characters; "unknown" when blank. */
  function ShortSHA(value: String): (r: String)
    ensures r != "" && !IsSpace(r[0])
    ensures |r| <= 12
    ensures IsBlank(value) ==> r == "unknown"
    ensures !IsBlank(value) ==> HasPrefix(TrimSpace(value), r)
    ensures !IsBlank(value) && |TrimSpace(value)| <= 12 ==> r == TrimSpace(value)
  {
    var v := TrimSpace(value);
    if v == "" then "unknown"
    else if |v| > 12 then
      assert v[..12][0] == v[0];
      v[..12]
    else v
  }

  /** The configured default environment, trimmed, or "production". */
  function DefaultEnvironment(cfg: ConvertConfig): (r: String)
    ensures r != "" && TrimmedBy(r, Spaces) && !IsBlank(r)
    ensures IsBlank(cfg.defaultEnvironment) ==> r == "production"
    ensures !IsBlank(cfg.defaultEnvironment) ==> r == TrimSpace(cfg.defaultEnvironment)
  {
    var v := TrimSpace(cfg.defaultEnvironment);
    if v == "" then "production" else TrimSpaceIdempotent(cfg.defaultEnvironment); v
  }

  /** The configured source, trimmed, or the bridge's own fallback. */
  function DefaultSource(cfg: ConvertConfig, fallback: String): (r: String)
    ensures IsBlank(cfg.source) ==> r == fallback
    ensures !IsBlank(cfg.source) ==> r == TrimSpace(cfg.source) && !IsBlank(r)
  {
    var v := TrimSpace(cfg.source);
    if v == "" then fallback else TrimSpaceIdempotent(cfg.source); v
  }

  /** The first argument that is not blank, trimmed; "" when all are blank. */
  function FirstNonEmpty(values: seq<String>): (r: String)
    ensures TrimmedBy(r, Spaces)
  {
    if values == [] then ""
    else if TrimSpace(values[0]) != "" then TrimSpace(values[0])
    else FirstNonEmpty(values[1..])
  }

  /** The result is "" exactly when every argument is blank. */
  lemma {:induction false} FirstNonEmptyBlank(values: seq<String>)
    ensures FirstNonEmpty(values) == "" <==> forall i :: 0 <= i < |values| ==> IsBlank(values[i])
  {
    if values != [] && IsBlank(values[0]) {
      FirstNonEmptyBlank(values[1..]);
      assert forall i :: 1 <= i < |values| ==> values[i] == values[1..][i - 1];
    }
  }

  /** The value found is the trimmed form of the first argument that is not blank. */
  lemma {:induction false} FirstNonEmptyIsFirst(values: seq<String>, i: int)
    requires 0 <= i < |values| && !IsBlank(values[i])
    requires forall j :: 0 <= j < i ==> IsBlank(values[j])
    ensures FirstNonEmpty(values) == TrimSpace(values[i])
  {
    if i > 0 {
      FirstNonEmptyIsFirst(values[1..], i - 1);
    }
  }

  /** FirstNonEmpty over three arguments, spelled out. */
  lemma FirstNonEmpty3(a: String, b: String, c: String)
    ensures FirstNonEmpty([a, b, c]) ==
            if !IsBlank(a) then TrimSpace(a) else if !IsBlank(b) then TrimSpace(b) else TrimSpace(c)
  {
    assert [a, b, c][1..] == [b, c];
    FirstNonEmpty2(b, c);
  }

  /** FirstNonEmpty over two arguments, spelled out. */
  lemma FirstNonEmpty2(a: String, b: String)
    ensures FirstNonEmpty([a, b]) == if !IsBlank(a) then TrimSpace(a) else TrimSpace(b)
  {
    assert [a, b][1..] == [b];
    assert [b][1..] == [];
    assert FirstNonEmpty([b]) == TrimSpace(b);
  }

  /** `fmt.Sprintf("pkg:generic/%s@%s", name, version)`. */
  function GenericPurl(name: String, version: String): (r: String)
    ensures HasPrefix(r, "pkg:generic/") && |r| == 13 + |name| + |version|
    ensures r[12..12 + |name|] == name && r[12 + |name|] == '@' && r[13 + |name|..] == version
  {
    "pkg:generic/" + name + "@" + version
  }

  // ---------------------------------------------------------------------------
  // The three shapes of event the bridges emit, and why the builder accepts each.

  /** A short service type for a named service in a named environment. */
  lemma ServiceShapeAdmissible(ev: Event)
    requires ev.eventType in ServiceShortNames
    requires ev.service != "" && TrimmedBy(ev.service, Spaces) && !IsBlank(ev.environment)
    ensures Admissible(ev)
  {
    ServiceEventAdmissible(ev);
  }

  /** Subject ids "pipeline/<service>/<id>" and "change/<x>-<n>" start with their subject. */
  lemma PipelineIdPrefix(service: String, id: String)
    ensures HasPrefix("pipeline/" + service + "/" + id, "pipeline/")
  {
    PrefixOfConcat("pipeline/", service);
    PrefixExtend("pipeline/" + service, "pipeline/", "/");
    PrefixExtend("pipeline/" + service + "/", "pipeline/", id);
  }

  lemma ChangeIdPrefix(n: String)
    ensures HasPrefix("change/pr-" + n, "change/") && HasPrefix("change/mr-" + n, "change/")
  {
    assert ("change/pr-" + n)[..7] == "change/";
    assert ("change/mr-" + n)[..7] == "change/";
  }

  /** A pipeline-run type whose subject id starts "pipeline/". */
  lemma PipelineShapeAdmissible(ev: Event)
    requires ev.eventType in {PipelineRunStarted, PipelineRunSucceeded, PipelineRunFailed}
    requires HasPrefix(ev.subjectId, "pipeline/")
    ensures Admissible(ev)
  {
    PipelineRunTypeCustom(ev.eventType);
    assert ev.subjectId[0] == "pipeline/"[0];
    NotBlankByHead(ev.subjectId);
    CustomEventAdmissible(ev);
  }

  /** The fallback change predicates are lower-case. */
  lemma ChangeSuffixesLower()
    ensures IsLower("merged") && IsLower("updated")
  {
  }

  /** A change type over a lower-case predicate whose subject id starts "change/". */
  lemma ChangeShapeAdmissible(ev: Event, suffix: String)
    requires IsLower(suffix) && ev.eventType == ChangeType(suffix)
    requires HasPrefix(ev.subjectId, "change/")
    ensures Admissible(ev)
  {
    ChangeTypeCustom(suffix);
    assert ev.subjectId[0] == "change/"[0];
    NotBlankByHead(ev.subjectId);
    CustomEventAdmissible(ev);
  }
}
