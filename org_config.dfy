/**
 * The organization settings service (internal/app/services/org_config.go): the settings page's
 * view of an organization, in which stored feature flags and preferences override their
 * defaults and the environment order merges the prioritised list with the environments seen in
 * events; and the update path that cleans a settings form before its single store write.
 *
 * The store reads are their results, in the order GetSettings issues them; the store write is
 * the value UpdateSettings hands to the store, whose answer it returns unchanged.
 */
module OrgConfig {
  import opened Wrappers
  import opened GoStrings
  import opened Sorting
  import opened ServiceRead
  import opened SqliteReadStore

  // ---------------------------------------------------------------------------
  // Feature flags

  const StrictEnforcementKey: String := "strict_metadata_enforcement"
  const MaskValuesKey: String := "mask_sensitive_metadata_values"

  /**
   * The initial `featureFlags` map: the twelve flags of the settings page by stored key, all on
   * except strict metadata enforcement and masking of sensitive values.
   */
  const DefaultFlags: map<String, bool> := map[
    "show_sync_status" := true,
    "show_metadata_badges" := true,
    "show_environment_column" := true,
    "enable_sse_live_updates" := true,
    "show_deployment_history" := true,
    "show_metadata_filters" := true,
    StrictEnforcementKey := false,
    MaskValuesKey := false,
    "allow_service_metadata_editing" := true,
    "show_onboarding_hints" := true,
    "show_integration_type_badges" := true,
    "show_service_detail_insights" := true
  ]

  /** Strict enforcement and masking are off by default. */
  lemma DefaultFlagsOff()
    ensures StrictEnforcementKey in DefaultFlags && !DefaultFlags[StrictEnforcementKey]
    ensures MaskValuesKey in DefaultFlags && !DefaultFlags[MaskValuesKey]
  {
  }

  /** Every other flag is on by default. */
  lemma DefaultFlagsOn(k: String)
    requires k in DefaultFlags && k != StrictEnforcementKey && k != MaskValuesKey
    ensures DefaultFlags[k]
  {
  }

  datatype FeatureRow = FeatureRow(key: String, enabled: bool)

  /**
   * The stored rows with their keys as the loop compares them, trimmed and lower-cased. The
   * model folds every key in a pass of its own before the override loop.
   */
  function FoldFeatureKeys(features: seq<FeatureRow>): (r: seq<FeatureRow>)
    ensures |r| == |features|
  {
    if features == [] then []
    else
      var row := features[|features| - 1];
      FoldFeatureKeys(features[..|features| - 1]) + [FeatureRow(Fold(row.key), row.enabled)]
  }

  lemma {:induction false} FoldFeatureKeysAt(features: seq<FeatureRow>, i: int)
    requires 0 <= i < |features|
    ensures FoldFeatureKeys(features)[i] == FeatureRow(Fold(features[i].key), features[i].enabled)
  {
    if i < |features| - 1 {
      FoldFeatureKeysAt(features[..|features| - 1], i);
    }
  }

  method FoldFeatureKeysOf(features: seq<FeatureRow>) returns (rows: seq<FeatureRow>)
    ensures rows == FoldFeatureKeys(features)
  {
    rows := [];
    for i := 0 to |features|
      invariant rows == FoldFeatureKeys(features[..i])
    {
      assert features[..i + 1][..i] == features[..i];
      rows := rows + [FeatureRow(Fold(features[i].key), features[i].enabled)];
    }
    assert features[..|features|] == features;
  }

  /** The value of the flag stored under key `k` after the override loop over `rows` (keys folded). */
  function FlagFrom(rows: seq<FeatureRow>, k: String): bool
    requires k in DefaultFlags
  {
    if rows == [] then DefaultFlags[k]
    else if rows[|rows| - 1].key == k then rows[|rows| - 1].enabled
    else FlagFrom(rows[..|rows| - 1], k)
  }

  /** A flag no stored row names keeps its default. */
  lemma {:induction false} FlagFromDefault(rows: seq<FeatureRow>, k: String)
    requires k in DefaultFlags
    requires forall i :: 0 <= i < |rows| ==> rows[i].key != k
    ensures FlagFrom(rows, k) == DefaultFlags[k]
  {
    if rows != [] {
      var n := |rows|;
      var prefix := rows[..n - 1];
      assert rows[n - 1].key != k;
      forall i | 0 <= i < n - 1 ensures prefix[i].key != k {
        assert prefix[i] == rows[i];
      }
      FlagFromDefault(prefix, k);
    }
  }

  /** The last stored row that names a flag decides it. */
  lemma {:induction false} FlagFromLast(rows: seq<FeatureRow>, k: String, i: int)
    requires k in DefaultFlags
    requires 0 <= i < |rows| && rows[i].key == k
    requires forall j :: i < j < |rows| ==> rows[j].key != k
    ensures FlagFrom(rows, k) == rows[i].enabled
  {
    var n := |rows|;
    if i < n - 1 {
      var prefix := rows[..n - 1];
      assert rows[n - 1].key != k;
      forall j | i < j < n - 1 ensures prefix[j].key != k {
        assert prefix[j] == rows[j];
      }
      assert prefix[i] == rows[i];
      FlagFromLast(prefix, k, i);
    }
  }

  /**
   * The override loop: a row whose folded key is in the map overwrites that entry, and rows
   * with other keys are ignored, so the map keeps exactly the twelve keys.
   */
  method ResolveFeatureFlags(features: seq<FeatureRow>) returns (flags: map<String, bool>)
    ensures flags.Keys == DefaultFlags.Keys
    ensures forall k :: k in flags ==> flags[k] == FlagFrom(FoldFeatureKeys(features), k)
  {
    var rows := FoldFeatureKeysOf(features);
    flags := DefaultFlags;
    assert rows[..0] == [];
    for i := 0 to |rows|
      invariant flags.Keys == DefaultFlags.Keys
      invariant forall k :: k in flags ==> flags[k] == FlagFrom(rows[..i], k)
    {
      flags := OverrideFlag(flags, rows, i);
    }
    assert rows[..|rows|] == rows;
  }

  /** One pass of the override loop. */
  method OverrideFlag(flags: map<String, bool>, rows: seq<FeatureRow>, i: nat) returns (flags': map<String, bool>)
    requires i < |rows| && flags.Keys == DefaultFlags.Keys
    requires forall k :: k in flags ==> flags[k] == FlagFrom(rows[..i], k)
    ensures flags'.Keys == DefaultFlags.Keys
    ensures forall k :: k in flags' ==> flags'[k] == FlagFrom(rows[..i + 1], k)
  {
    assert rows[..i + 1][..i] == rows[..i];
    var key := rows[i].key;
    flags' := flags;
    if key in flags {
      flags' := flags[key := rows[i].enabled];
    }
  }

  // ---------------------------------------------------------------------------
  // Preferences

  const RetentionKey: String := "deployment_retention_days"
  const ViewKey: String := "default_dashboard_view"
  const SemanticsKey: String := "status_semantics_mode"

  datatype PreferenceRow = PreferenceRow(key: String, value: String)

  datatype Preferences = Preferences(retentionDays: int, view: String, semantics: String)

  const DefaultPreferences := Preferences(30, "grid", "technical")

  /** What every preference value is: a positive retention, a known view and a known mode. */
  predicate ValidPreferences(p: Preferences)
  {
    p.retentionDays > 0 && (p.view == "table" || p.view == "grid") && (p.semantics == "plain" || p.semantics == "technical")
  }

  /**
   * The stored rows as the loop's switch sees them: key trimmed and lower-cased, value trimmed.
   * As with the flags, the model does this in a pass of its own.
   */
  function CleanPreferences(prefs: seq<PreferenceRow>): (r: seq<PreferenceRow>)
    ensures |r| == |prefs|
  {
    if prefs == [] then []
    else
      var row := prefs[|prefs| - 1];
      CleanPreferences(prefs[..|prefs| - 1]) + [PreferenceRow(Fold(row.key), TrimSpace(row.value))]
  }

  lemma {:induction false} CleanPreferencesAt(prefs: seq<PreferenceRow>, i: int)
    requires 0 <= i < |prefs|
    ensures CleanPreferences(prefs)[i] == PreferenceRow(Fold(prefs[i].key), TrimSpace(prefs[i].value))
  {
    if i < |prefs| - 1 {
      CleanPreferencesAt(prefs[..|prefs| - 1], i);
    }
  }

  method CleanPreferencesOf(prefs: seq<PreferenceRow>) returns (rows: seq<PreferenceRow>)
    ensures rows == CleanPreferences(prefs)
  {
    rows := [];
    for i := 0 to |prefs|
      invariant rows == CleanPreferences(prefs[..i])
    {
      CleanPreferencesStep(prefs, i);
      rows := rows + [PreferenceRow(Fold(prefs[i].key), TrimSpace(prefs[i].value))];
    }
    assert prefs[..|prefs|] == prefs;
  }

  lemma CleanPreferencesStep(prefs: seq<PreferenceRow>, i: int)
    requires 0 <= i < |prefs|
    ensures CleanPreferences(prefs[..i + 1]) == CleanPreferences(prefs[..i]) + [PreferenceRow(Fold(prefs[i].key), TrimSpace(prefs[i].value))]
  {
    assert prefs[..i + 1][..i] == prefs[..i];
  }

  /** Whether a cleaned row sets the retention: its key is the retention key and its value a positive integer. */
  predicate SetsRetention(row: PreferenceRow)
  {
    row.key == RetentionKey && ParseInt64(row.value).Some? && ParseInt64(row.value).value > 0
  }

  predicate SetsView(row: PreferenceRow)
  {
    row.key == ViewKey && (row.value == "table" || row.value == "grid")
  }

  predicate SetsSemantics(row: PreferenceRow)
  {
    row.key == SemanticsKey && (row.value == "plain" || row.value == "technical")
  }

  /** One pass of the preference loop's switch over a cleaned row. */
  function ApplyPreference(p: Preferences, row: PreferenceRow): Preferences
  {
    if SetsRetention(row) then p.(retentionDays := ParseInt64(row.value).value)
    else if SetsView(row) then p.(view := row.value)
    else if SetsSemantics(row) then p.(semantics := row.value)
    else p
  }

  /** The preferences after the loop over the cleaned `rows`. */
  function PreferencesFrom(rows: seq<PreferenceRow>): Preferences
  {
    if rows == [] then DefaultPreferences
    else ApplyPreference(PreferencesFrom(rows[..|rows| - 1]), rows[|rows| - 1])
  }

  /** Whatever is stored, the resolved preferences are valid. */
  lemma {:induction false} PreferencesFromValid(rows: seq<PreferenceRow>)
    ensures ValidPreferences(PreferencesFrom(rows))
  {
    if rows != [] {
      PreferencesFromValid(rows[..|rows| - 1]);
    }
  }

  /** With no row that sets a preference, every preference keeps its default (30, grid, technical). */
  lemma {:induction false} PreferencesFromDefault(rows: seq<PreferenceRow>)
    requires forall i :: 0 <= i < |rows| ==> !SetsRetention(rows[i]) && !SetsView(rows[i]) && !SetsSemantics(rows[i])
    ensures PreferencesFrom(rows) == Preferences(30, "grid", "technical")
  {
    if rows != [] {
      var n := |rows|;
      var prefix := rows[..n - 1];
      assert !SetsRetention(rows[n - 1]) && !SetsView(rows[n - 1]) && !SetsSemantics(rows[n - 1]);
      forall i | 0 <= i < n - 1
        ensures !SetsRetention(prefix[i]) && !SetsView(prefix[i]) && !SetsSemantics(prefix[i])
      {
        assert prefix[i] == rows[i];
      }
      PreferencesFromDefault(prefix);
    }
  }

  /** The last row that sets the retention decides it; rows with a bad value are skipped. */
  lemma {:induction false} RetentionFromLast(rows: seq<PreferenceRow>, i: int)
    requires 0 <= i < |rows| && SetsRetention(rows[i])
    requires forall j :: i < j < |rows| ==> !SetsRetention(rows[j])
    ensures PreferencesFrom(rows).retentionDays == ParseInt64(rows[i].value).value
  {
    var n := |rows|;
    if i < n - 1 {
      var prefix := rows[..n - 1];
      assert !SetsRetention(rows[n - 1]);
      forall j | i < j < n - 1 ensures !SetsRetention(prefix[j]) {
        assert prefix[j] == rows[j];
      }
      assert prefix[i] == rows[i];
      RetentionFromLast(prefix, i);
    }
  }

  /** The last row that sets the dashboard view decides it. */
  lemma {:induction false} ViewFromLast(rows: seq<PreferenceRow>, i: int)
    requires 0 <= i < |rows| && SetsView(rows[i])
    requires forall j :: i < j < |rows| ==> !SetsView(rows[j])
    ensures PreferencesFrom(rows).view == rows[i].value
  {
    var n := |rows|;
    if i < n - 1 {
      var prefix := rows[..n - 1];
      assert !SetsView(rows[n - 1]);
      forall j | i < j < n - 1 ensures !SetsView(prefix[j]) {
        assert prefix[j] == rows[j];
      }
      assert prefix[i] == rows[i];
      ViewFromLast(prefix, i);
    }
  }

  /** The last row that sets the status semantics decides it. */
  lemma {:induction false} SemanticsFromLast(rows: seq<PreferenceRow>, i: int)
    requires 0 <= i < |rows| && SetsSemantics(rows[i])
    requires forall j :: i < j < |rows| ==> !SetsSemantics(rows[j])
    ensures PreferencesFrom(rows).semantics == rows[i].value
  {
    var n := |rows|;
    if i < n - 1 {
      var prefix := rows[..n - 1];
      assert !SetsSemantics(rows[n - 1]);
      forall j | i < j < n - 1 ensures !SetsSemantics(prefix[j]) {
        assert prefix[j] == rows[j];
      }
      assert prefix[i] == rows[i];
      SemanticsFromLast(prefix, i);
    }
  }

  /** The loop's switch on the key, one case per known key, does what ApplyPreference does. */
  lemma SwitchIsApply(p: Preferences, row: PreferenceRow, q: Preferences)
    requires row.key == RetentionKey ==>
               q == (if ParseInt64(row.value).Some? && ParseInt64(row.value).value > 0
                     then p.(retentionDays := ParseInt64(row.value).value) else p)
    requires row.key != RetentionKey && row.key == ViewKey ==>
               q == (if row.value == "table" || row.value == "grid" then p.(view := row.value) else p)
    requires row.key != RetentionKey && row.key != ViewKey && row.key == SemanticsKey ==>
               q == (if row.value == "plain" || row.value == "technical" then p.(semantics := row.value) else p)
    requires row.key != RetentionKey && row.key != ViewKey && row.key != SemanticsKey ==> q == p
    ensures q == ApplyPreference(p, row)
  {
    if row.key == RetentionKey {
      assert RetentionKey[0] == 'd' && ViewKey[0] == 'd' && SemanticsKey[0] == 's';
      assert RetentionKey[2] != ViewKey[2];
    } else if row.key == ViewKey {
      assert ViewKey[0] != SemanticsKey[0];
    }
  }

  lemma PreferencesFromStep(rows: seq<PreferenceRow>, i: int)
    requires 0 <= i < |rows|
    ensures PreferencesFrom(rows[..i + 1]) == ApplyPreference(PreferencesFrom(rows[..i]), rows[i])
  {
    assert rows[..i + 1][..i] == rows[..i];
  }

  /** The preference loop and its switch on the key. */
  method ResolvePreferences(prefs: seq<PreferenceRow>) returns (p: Preferences)
    ensures p == PreferencesFrom(CleanPreferences(prefs))
    ensures ValidPreferences(p)
  {
    var rows := CleanPreferencesOf(prefs);
    var retentionDays := 30;
    var view: String := "grid";
    var semantics: String := "technical";
    for i := 0 to |rows|
      invariant Preferences(retentionDays, view, semantics) == PreferencesFrom(rows[..i])
    {
      PreferencesFromStep(rows, i);
      ghost var before := Preferences(retentionDays, view, semantics);
      var key := rows[i].key;
      var value := rows[i].value;
      if key == RetentionKey {
        var parsed := ParseInt64(value);
        if parsed.Some? && parsed.value > 0 {
          retentionDays := parsed.value;
        }
      } else if key == ViewKey {
        if value == "table" || value == "grid" {
          view := value;
        }
      } else if key == SemanticsKey {
        if value == "plain" || value == "technical" {
          semantics := value;
        }
      }
      SwitchIsApply(before, rows[i], Preferences(retentionDays, view, semantics));
    }
    assert rows[..|rows|] == rows;
    p := Preferences(retentionDays, view, semantics);
    PreferencesFromValid(rows);
  }

  // ---------------------------------------------------------------------------
  // mergeEnvironmentOrder

  /** The lower-cased forms of a list's names: the `seen` set after its first loop. */
  function LowerSet(s: seq<String>): set<String>
  {
    set x | x in s :: ToLower(x)
  }

  /**
   * The discovered names the second loop keeps: a name is kept when its lower-cased form is
   * neither in `seen` nor the form of a name kept before it.
   */
  function Unseen(ds: seq<String>, seen: set<String>): seq<String>
  {
    if ds == [] then []
    else if ToLower(ds[0]) in seen then Unseen(ds[1..], seen)
    else [ds[0]] + Unseen(ds[1..], seen + {ToLower(ds[0])})
  }

  /** Every kept name is a discovered one whose lower-cased form was not seen. */
  lemma {:induction false} UnseenMembers(ds: seq<String>, seen: set<String>, x: String)
    requires x in Unseen(ds, seen)
    ensures x in ds && ToLower(x) !in seen
  {
    if ToLower(ds[0]) in seen {
      UnseenMembers(ds[1..], seen, x);
    } else if x != ds[0] {
      UnseenMembers(ds[1..], seen + {ToLower(ds[0])}, x);
    }
  }

  /** No two kept names are equal ignoring case. */
  lemma {:induction false} UnseenDistinct(ds: seq<String>, seen: set<String>)
    ensures forall i, j :: 0 <= i < j < |Unseen(ds, seen)| ==> ToLower(Unseen(ds, seen)[i]) != ToLower(Unseen(ds, seen)[j])
  {
    if ds != [] {
      if ToLower(ds[0]) in seen {
        UnseenDistinct(ds[1..], seen);
      } else {
        var seen' := seen + {ToLower(ds[0])};
        var tail := Unseen(ds[1..], seen');
        UnseenDistinct(ds[1..], seen');
        var u := [ds[0]] + tail;
        forall i, j | 0 <= i < j < |u| ensures ToLower(u[i]) != ToLower(u[j]) {
          if i == 0 {
            UnseenMembers(ds[1..], seen', u[j]);
          } else {
            assert u[i] == tail[i - 1] && u[j] == tail[j - 1];
          }
        }
      }
    }
  }

  /** Every discovered name is either already seen or kept, ignoring case. */
  lemma {:induction false} UnseenCovers(ds: seq<String>, seen: set<String>, k: int)
    requires 0 <= k < |ds|
    ensures ToLower(ds[k]) in seen || ToLower(ds[k]) in LowerSet(Unseen(ds, seen))
  {
    if k == 0 {
      if ToLower(ds[0]) !in seen {
        assert ds[0] in Unseen(ds, seen);
      }
    } else {
      assert ds[1..][k - 1] == ds[k];
      if ToLower(ds[0]) in seen {
        UnseenCovers(ds[1..], seen, k - 1);
      } else {
        var seen' := seen + {ToLower(ds[0])};
        UnseenCovers(ds[1..], seen', k - 1);
        if ToLower(ds[k]) in LowerSet(Unseen(ds[1..], seen')) {
          var y :| y in Unseen(ds[1..], seen') && ToLower(y) == ToLower(ds[k]);
          assert y in Unseen(ds, seen);
        } else if ToLower(ds[k]) == ToLower(ds[0]) {
          assert ds[0] in Unseen(ds, seen);
        }
      }
    }
  }

  /** The order mergeEnvironmentOrder returns. */
  function MergedOrder(prioritized: seq<String>, discovered: seq<String>): seq<String>
  {
    NormalizedOrder(prioritized) + SortStrings(Unseen(NormalizedOrder(discovered), LowerSet(NormalizedOrder(prioritized))))
  }

  /** The merged order is normalized: trimmed, non-blank names with no two equal ignoring case. */
  lemma MergedOrderNormalized(prioritized: seq<String>, discovered: seq<String>)
    ensures Normalized(MergedOrder(prioritized, discovered))
  {
    var front := NormalizedOrder(prioritized);
    var ds := NormalizedOrder(discovered);
    var u := Unseen(ds, LowerSet(front));
    var rest := SortStrings(u);
    NormalizedOrderNormalized(prioritized);
    NormalizedOrderNormalized(discovered);
    UnseenDistinct(ds, LowerSet(front));
    assert Distinct(u) by {
      forall i, j | 0 <= i < j < |u| ensures u[i] != u[j] {
        assert ToLower(u[i]) != ToLower(u[j]);
      }
    }
    DistinctPermutation(u, rest);
    forall x | x in rest ensures x in ds && ToLower(x) !in LowerSet(front) {
      assert x in multiset(rest);
      UnseenMembers(ds, LowerSet(front), x);
    }
    RestNormalized(ds, u, rest);
    JoinNormalized(front, rest);
  }

  /** A rearrangement without repeats of lower-case-distinct names from a normalized list is normalized. */
  lemma RestNormalized(ds: seq<String>, u: seq<String>, rest: seq<String>)
    requires Normalized(ds) && Distinct(rest) && multiset(rest) == multiset(u)
    requires forall i, j :: 0 <= i < j < |u| ==> ToLower(u[i]) != ToLower(u[j])
    requires forall x :: x in rest ==> x in ds
    ensures Normalized(rest)
  {
    forall k | 0 <= k < |rest| ensures rest[k] != [] && TrimmedBy(rest[k], Spaces) {
      assert rest[k] in ds;
    }
    forall i, j | 0 <= i < j < |rest| ensures ToLower(rest[i]) != ToLower(rest[j]) {
      assert rest[i] in multiset(u) && rest[j] in multiset(u);
      DistinctLower(u, rest[i], rest[j]);
    }
  }

  lemma DistinctLower(u: seq<String>, x: String, y: String)
    requires forall i, j :: 0 <= i < j < |u| ==> ToLower(u[i]) != ToLower(u[j])
    requires x in u && y in u && x != y
    ensures ToLower(x) != ToLower(y)
  {
    var p :| 0 <= p < |u| && u[p] == x;
    var q :| 0 <= q < |u| && u[q] == y;
  }

  /** Two normalized lists with no name in common ignoring case join into a normalized list. */
  lemma JoinNormalized(front: seq<String>, rest: seq<String>)
    requires Normalized(front) && Normalized(rest)
    requires forall x :: x in rest ==> ToLower(x) !in LowerSet(front)
    ensures Normalized(front + rest)
  {
    var m := front + rest;
    forall i, j | 0 <= i < j < |m| ensures ToLower(m[i]) != ToLower(m[j]) {
      if j >= |front| && i < |front| {
        assert m[j] == rest[j - |front|] && m[i] == front[i];
        assert ToLower(front[i]) in LowerSet(front);
      } else if i >= |front| {
        assert m[i] == rest[i - |front|] && m[j] == rest[j - |front|];
      }
    }
  }

  /** The prioritised names come first, in their normalized order. */
  lemma MergedOrderPrefix(prioritized: seq<String>, discovered: seq<String>)
    ensures MergedOrder(prioritized, discovered)[..|NormalizedOrder(prioritized)|] == NormalizedOrder(prioritized)
  {
  }

  /** The names after the prioritised ones are in ascending order. */
  lemma MergedOrderRestSorted(prioritized: seq<String>, discovered: seq<String>, i: int, j: int)
    requires |NormalizedOrder(prioritized)| <= i < j < |MergedOrder(prioritized, discovered)|
    ensures !Less(MergedOrder(prioritized, discovered)[j], MergedOrder(prioritized, discovered)[i])
  {
    SortedAfter(NormalizedOrder(prioritized), Unseen(NormalizedOrder(discovered), LowerSet(NormalizedOrder(prioritized))), i, j);
  }

  /** Past a fixed prefix, a list followed by a sorted list is in ascending order. */
  lemma SortedAfter(front: seq<String>, u: seq<String>, i: int, j: int)
    requires |front| <= i < j < |front| + |u|
    ensures |SortStrings(u)| == |u|
    ensures !Less((front + SortStrings(u))[j], (front + SortStrings(u))[i])
  {
    var rest := SortStrings(u);
    assert (front + rest)[i] == rest[i - |front|];
    assert (front + rest)[j] == rest[j - |front|];
  }

  /** Every non-blank discovered name is in the merged order, ignoring case. */
  lemma MergedOrderCovers(prioritized: seq<String>, discovered: seq<String>, k: int)
    requires 0 <= k < |discovered| && !IsBlank(discovered[k])
    ensures ToLower(TrimSpace(discovered[k])) in LowerSet(MergedOrder(prioritized, discovered))
  {
    var front := NormalizedOrder(prioritized);
    var ds := NormalizedOrder(discovered);
    var u := Unseen(ds, LowerSet(front));
    var m := MergedOrder(prioritized, discovered);
    NormalizedOrderCovers(discovered, k);
    var key := ToLower(TrimSpace(discovered[k]));
    assert key in Lowered(ds);
    var p :| 0 <= p < |ds| && Lowered(ds)[p] == key;
    UnseenCovers(ds, LowerSet(front), p);
    if key in LowerSet(front) {
      var y :| y in front && ToLower(y) == key;
      assert y in m;
    } else {
      var y :| y in u && ToLower(y) == key;
      assert y in multiset(SortStrings(u));
      assert y in SortStrings(u);
      assert y in m;
    }
  }

  /** mergeEnvironmentOrder: the prioritised names, then the unseen discovered names sorted. */
  method MergeEnvironmentOrder(prioritized: seq<String>, discovered: seq<String>) returns (merged: seq<String>)
    ensures merged == MergedOrder(prioritized, discovered)
  {
    var front := NormalizeEnvironmentOrderInput(prioritized);
    var seen := SeenOf(front);
    var ds := NormalizeEnvironmentOrderInput(discovered);
    var rest := KeepUnseen(ds, seen);
    merged := front + SortStrings(rest);
  }

  /** The first loop: the lower-cased prioritised names. */
  method SeenOf(front: seq<String>) returns (seen: set<String>)
    ensures seen == LowerSet(front)
  {
    seen := {};
    for i := 0 to |front|
      invariant seen == LowerSet(front[..i])
    {
      assert front[..i + 1] == front[..i] + [front[i]];
      seen := seen + {ToLower(front[i])};
    }
    assert front[..|front|] == front;
  }

  /** One step of the second loop, read off the front of the remaining names. */
  lemma UnseenStep(ds: seq<String>, i: nat, seen: set<String>)
    requires i < |ds|
    ensures ToLower(ds[i]) in seen ==> Unseen(ds[i..], seen) == Unseen(ds[i + 1..], seen)
    ensures ToLower(ds[i]) !in seen ==>
              Unseen(ds[i..], seen) == [ds[i]] + Unseen(ds[i + 1..], seen + {ToLower(ds[i])})
  {
    assert ds[i..][0] == ds[i] && ds[i..][1..] == ds[i + 1..];
  }

  /** The second loop: the discovered names not seen yet, each marking its lower-cased form seen. */
  method KeepUnseen(ds: seq<String>, seen0: set<String>) returns (rest: seq<String>)
    ensures rest == Unseen(ds, seen0)
  {
    var seen := seen0;
    rest := [];
    assert ds[0..] == ds;
    for i := 0 to |ds|
      invariant rest + Unseen(ds[i..], seen) == Unseen(ds, seen0)
    {
      UnseenStep(ds, i, seen);
      var key := ToLower(ds[i]);
      if key in seen {
        continue;
      }
      Sorting.SeqAssoc(rest, [ds[i]], Unseen(ds[i + 1..], seen + {key}));
      seen := seen + {key};
      rest := rest + [ds[i]];
    }
    assert ds[|ds|..] == [];
    assert rest + [] == rest;
  }

  // ---------------------------------------------------------------------------
  // GetSettings

  datatype Organization = Organization(id: int, authToken: String, webhookSecret: String, enabled: bool)

  /** What each store read returned, in the order GetSettings issues them. */
  datatype StoreReads = StoreReads(
    org: Result<Organization, DbError>,
    fields: Result<seq<RequiredField>, DbError>,
    priorities: Result<seq<String>, DbError>,
    discovered: Result<seq<String>, DbError>,
    features: Result<seq<FeatureRow>, DbError>,
    prefs: Result<seq<PreferenceRow>, DbError>)

  datatype Settings = Settings(
    authToken: String, webhookSecret: String, enabled: bool,
    flags: map<String, bool>, preferences: Preferences,
    requiredFields: seq<MetadataField>, environmentOrder: seq<String>)

  /** normalizeSettingsFields: one field per stored row, in order. */
  method SettingsFields(rows: seq<RequiredField>) returns (fields: seq<MetadataField>)
    ensures |fields| == |rows|
    ensures forall i :: 0 <= i < |rows| ==>
              fields[i].fieldLabel == rows[i].fieldLabel && fields[i].value == rows[i].fieldType && fields[i].filterable == rows[i].filterable
  {
    fields := [];
    for i := 0 to |rows|
      invariant |fields| == i
      invariant forall k :: 0 <= k < i ==>
                  fields[k].fieldLabel == rows[k].fieldLabel && fields[k].value == rows[k].fieldType && fields[k].filterable == rows[k].filterable
    {
      fields := fields + [MetadataField(rows[i].fieldLabel, rows[i].fieldType, rows[i].filterable)];
    }
  }

  /** The priorities GetSettings goes on with: a missing priorities table counts as none. */
  function PrioritiesRead(r: Result<seq<String>, DbError>): Result<seq<String>, DbError>
  {
    if r.Err? && IsMissingEnvPriorityTable(r.error) then Ok([]) else r
  }

  /**
   * GetSettings: the first failing read's error, except that a missing priorities table is no
   * priorities; otherwise the organization's settings with the flags and preferences resolved
   * over their defaults and the merged environment order.
   */
  method GetSettings(answers: StoreReads) returns (r: Result<Settings, DbError>)
    ensures answers.org.Err? ==> r == Err(answers.org.error)
    ensures answers.org.Ok? && answers.fields.Err? ==> r == Err(answers.fields.error)
    ensures answers.org.Ok? && answers.fields.Ok? && PrioritiesRead(answers.priorities).Err? ==> r == Err(answers.priorities.error)
    ensures answers.org.Ok? && answers.fields.Ok? && PrioritiesRead(answers.priorities).Ok? && answers.discovered.Err? ==>
              r == Err(answers.discovered.error)
    ensures (answers.org.Ok? && answers.fields.Ok? && PrioritiesRead(answers.priorities).Ok? && answers.discovered.Ok? &&
             answers.features.Err?) ==> r == Err(answers.features.error)
    ensures (answers.org.Ok? && answers.fields.Ok? && PrioritiesRead(answers.priorities).Ok? && answers.discovered.Ok? &&
             answers.features.Ok? && answers.prefs.Err?) ==> r == Err(answers.prefs.error)
    ensures r.Ok? <==> answers.org.Ok? && answers.fields.Ok? && PrioritiesRead(answers.priorities).Ok?
                       && answers.discovered.Ok? && answers.features.Ok? && answers.prefs.Ok?
    ensures r.Ok? ==>
              && answers.org.Ok? && answers.fields.Ok? && PrioritiesRead(answers.priorities).Ok?
              && answers.discovered.Ok? && answers.features.Ok? && answers.prefs.Ok?
              && r.value.authToken == answers.org.value.authToken
              && r.value.webhookSecret == answers.org.value.webhookSecret
              && r.value.enabled == answers.org.value.enabled
              && r.value.flags.Keys == DefaultFlags.Keys
              && (forall k :: k in r.value.flags ==> r.value.flags[k] == FlagFrom(FoldFeatureKeys(answers.features.value), k))
              && r.value.preferences == PreferencesFrom(CleanPreferences(answers.prefs.value))
              && ValidPreferences(r.value.preferences)
              && |r.value.requiredFields| == |answers.fields.value|
              && (forall i :: 0 <= i < |answers.fields.value| ==>
                    r.value.requiredFields[i].fieldLabel == answers.fields.value[i].fieldLabel
                    && r.value.requiredFields[i].value == answers.fields.value[i].fieldType
                    && r.value.requiredFields[i].filterable == answers.fields.value[i].filterable)
              && r.value.environmentOrder
                 == MergedOrder(NormalizedOrder(PrioritiesRead(answers.priorities).value), NormalizedOrder(answers.discovered.value))
  {
    if answers.org.Err? {
      return Err(answers.org.error);
    }
    var org := answers.org.value;
    if answers.fields.Err? {
      return Err(answers.fields.error);
    }
    var priorities := PrioritiesRead(answers.priorities);
    if priorities.Err? {
      return Err(priorities.error);
    }
    if answers.discovered.Err? {
      return Err(answers.discovered.error);
    }
    if answers.features.Err? {
      return Err(answers.features.error);
    }
    var flags := ResolveFeatureFlags(answers.features.value);
    if answers.prefs.Err? {
      return Err(answers.prefs.error);
    }
    var preferences := ResolvePreferences(answers.prefs.value);
    var fields := SettingsFields(answers.fields.value);
    var prioritized := NormalizeEnvironmentOrderInput(priorities.value);
    var discovered := NormalizeEnvironmentOrderInput(answers.discovered.value);
    var order := MergeEnvironmentOrder(prioritized, discovered);
    r := Ok(Settings(org.authToken, org.webhookSecret, org.enabled, flags, preferences, fields, order));
  }

  // ---------------------------------------------------------------------------
  // UpdateSettings

  /** The settings form, and the update handed to the store (the same fields). */
  datatype SettingsUpdate = SettingsUpdate(
    authToken: String, webhookSecret: String, enabled: bool,
    flags: map<String, bool>, preferences: Preferences,
    requiredFields: seq<RequiredField>, environmentOrder: seq<String>)

  /** A field is kept when its label and type are both non-blank. */
  predicate KeepsField(f: RequiredField)
  {
    !IsBlank(f.fieldLabel) && !IsBlank(f.fieldType)
  }

  function CleanField(f: RequiredField): RequiredField
  {
    RequiredField(TrimSpace(f.fieldLabel), TrimSpace(f.fieldType), f.filterable)
  }

  /** The required fields UpdateSettings forwards: the kept ones, trimmed, in order. */
  function KeptFields(fields: seq<RequiredField>): seq<RequiredField>
  {
    if fields == [] then []
    else KeptFields(fields[..|fields| - 1]) + (if KeepsField(fields[|fields| - 1]) then [CleanField(fields[|fields| - 1])] else [])
  }

  /** Every forwarded field is the trimmed form of a form field with non-blank label and type. */
  lemma {:induction false} KeptFieldsSound(fields: seq<RequiredField>, p: int) returns (i: nat)
    requires 0 <= p < |KeptFields(fields)|
    ensures i < |fields| && KeepsField(fields[i]) && KeptFields(fields)[p] == CleanField(fields[i])
  {
    var n := |fields|;
    var prefix := fields[..n - 1];
    if p < |KeptFields(prefix)| {
      i := KeptFieldsSound(prefix, p);
      assert prefix[i] == fields[i];
    } else {
      i := n - 1;
    }
  }

  /** Every form field with non-blank label and type is forwarded, trimmed. */
  lemma {:induction false} KeptFieldsComplete(fields: seq<RequiredField>, i: int)
    requires 0 <= i < |fields| && KeepsField(fields[i])
    ensures CleanField(fields[i]) in KeptFields(fields)
  {
    var n := |fields|;
    var prefix := fields[..n - 1];
    var c := CleanField(fields[i]);
    if i == n - 1 {
      KeptFieldsLast(fields);
    } else {
      assert prefix[i] == fields[i];
      KeptFieldsComplete(prefix, i);
      assert c in KeptFields(prefix);
      KeptFieldsPrefix(fields, c);
    }
  }

  lemma KeptFieldsPrefix(fields: seq<RequiredField>, f: RequiredField)
    requires fields != [] && f in KeptFields(fields[..|fields| - 1])
    ensures f in KeptFields(fields)
  {
  }

  lemma KeptFieldsLast(fields: seq<RequiredField>)
    requires fields != [] && KeepsField(fields[|fields| - 1])
    ensures CleanField(fields[|fields| - 1]) in KeptFields(fields)
  {
    var n := |fields|;
    assert KeptFields(fields)[|KeptFields(fields[..n - 1])|] == CleanField(fields[n - 1]);
  }

  /** Filtering keeps order: the fields of a longer form are those of its parts, one after the other. */
  lemma {:induction false} KeptFieldsConcat(a: seq<RequiredField>, b: seq<RequiredField>)
    ensures KeptFields(a + b) == KeptFields(a) + KeptFields(b)
  {
    if b != [] {
      var n := |b|;
      assert (a + b)[..|a + b| - 1] == a + b[..n - 1];
      KeptFieldsConcat(a, b[..n - 1]);
    } else {
      assert a + b == a;
    }
  }

  /** Cleaning the forwarded fields again changes nothing. */
  lemma {:induction false} KeptFieldsIdempotent(fields: seq<RequiredField>)
    ensures KeptFields(KeptFields(fields)) == KeptFields(fields)
  {
    if fields != [] {
      var n := |fields|;
      var last := fields[n - 1];
      KeptFieldsIdempotent(fields[..n - 1]);
      var tail := if KeepsField(last) then [CleanField(last)] else [];
      KeptFieldsConcat(KeptFields(fields[..n - 1]), tail);
      if KeepsField(last) {
        TrimSpaceIdempotent(last.fieldLabel);
        TrimSpaceIdempotent(last.fieldType);
        assert KeptFields(tail) == KeptFields([] + tail);
      }
    }
  }

  /** The loop that filters the form's required fields. */
  method CleanRequiredFields(fields: seq<RequiredField>) returns (kept: seq<RequiredField>)
    ensures kept == KeptFields(fields)
  {
    kept := [];
    for i := 0 to |fields|
      invariant kept == KeptFields(fields[..i])
    {
      KeptFieldsStep(fields, i);
      var fieldLabel := TrimSpace(fields[i].fieldLabel);
      var fieldType := TrimSpace(fields[i].fieldType);
      if fieldLabel == [] || fieldType == [] {
        continue;
      }
      kept := kept + [RequiredField(fieldLabel, fieldType, fields[i].filterable)];
    }
    assert fields[..|fields|] == fields;
  }

  lemma KeptFieldsStep(fields: seq<RequiredField>, i: int)
    requires 0 <= i < |fields|
    ensures KeptFields(fields[..i + 1]) == KeptFields(fields[..i]) + (if KeepsField(fields[i]) then [CleanField(fields[i])] else [])
  {
    assert fields[..i + 1][..i] == fields[..i];
  }

  /**
   * UpdateSettings: the update handed to the store. Token and secret are trimmed, the
   * environment order normalized, blank required fields dropped, and every flag and preference
   * forwarded as given.
   */
  method UpdateSettings(update: SettingsUpdate) returns (forwarded: SettingsUpdate)
    ensures forwarded.authToken == TrimSpace(update.authToken)
    ensures forwarded.webhookSecret == TrimSpace(update.webhookSecret)
    ensures forwarded.environmentOrder == NormalizedOrder(update.environmentOrder)
    ensures Normalized(forwarded.environmentOrder)
    ensures forwarded.requiredFields == KeptFields(update.requiredFields)
    ensures forwarded.enabled == update.enabled && forwarded.flags == update.flags && forwarded.preferences == update.preferences
  {
    var order := NormalizeEnvironmentOrderInput(update.environmentOrder);
    NormalizedOrderNormalized(update.environmentOrder);
    var fields := CleanRequiredFields(update.requiredFields);
    forwarded := SettingsUpdate(TrimSpace(update.authToken), TrimSpace(update.webhookSecret), update.enabled,
                                update.flags, update.preferences, fields, order);
  }
}
