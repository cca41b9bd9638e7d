/**
 * The service metadata write (apps/ddash/internal/app/services/metadata.go): the edited
 * metadata of one service is filtered against the organization's required fields and written
 * with a single ReplaceServiceMetadata call, or refused in strict mode when a required field is
 * left without a value.
 *
 * The required-fields read is its result and the replace call is the value handed to the
 * store, whose answer is a parameter.
 */
module MetadataWrite {
  import opened Wrappers
  import opened GoStrings
  import opened ServiceRead
  import opened SqliteReadStore

  // An edited field (MetadataFieldUpdate) and a stored value (ports.MetadataValue) have the same
  // two fields; both are a MetadataValue here.

  datatype WriteError = RequiredMetadataMissing | StoreError(err: DbError)

  /** The ReplaceServiceMetadata call: the trimmed service name and the values, in order. */
  datatype Replace = Replace(organizationId: int, serviceName: String, values: seq<MetadataValue>)

  datatype Outcome = Outcome(call: Option<Replace>, err: Option<WriteError>)

  // ---------------------------------------------------------------------------
  // Trimmed labels and their keys

  /** A label trimmed, its lower-cased key, and a value trimmed, as the clean loop computes them. */
  datatype Edit = Edit(trimmed: String, key: String, value: String)

  function EditOf(fieldLabel: String, value: String): (e: Edit)
    ensures e.trimmed == TrimSpace(fieldLabel) && |e.key| == |e.trimmed|
  {
    var t := TrimSpace(fieldLabel);
    Edit(t, ToLower(t), TrimSpace(value))
  }

  /** The edited fields as the clean loop sees them. */
  function Edits(fields: seq<MetadataValue>): (es: seq<Edit>)
    ensures |es| == |fields|
  {
    if fields == [] then []
    else
      var f := fields[|fields| - 1];
      Edits(fields[..|fields| - 1]) + [EditOf(f.fieldLabel, f.value)]
  }

  lemma {:induction false} EditsAt(fields: seq<MetadataValue>, i: int)
    requires 0 <= i < |fields|
    ensures Edits(fields)[i] == EditOf(fields[i].fieldLabel, fields[i].value)
  {
    if i < |fields| - 1 {
      EditsAt(fields[..|fields| - 1], i);
    }
  }

  lemma EditsFold(fields: seq<MetadataValue>, i: int)
    requires 0 <= i < |fields|
    ensures Edits(fields)[i].key == Fold(fields[i].fieldLabel) && Edits(fields)[i].value == TrimSpace(fields[i].value)
  {
    EditsAt(fields, i);
  }

  /** A required label trimmed, and its lower-cased key, as the allowed and strict loops compute them. */
  datatype LabelKey = LabelKey(trimmed: String, key: String)

  function LabelOf(fieldLabel: String): (l: LabelKey)
    ensures l.trimmed == TrimSpace(fieldLabel) && |l.key| == |l.trimmed|
  {
    var t := TrimSpace(fieldLabel);
    LabelKey(t, ToLower(t))
  }

  /** The required labels as the allowed and strict loops see them. */
  function Labels(required: seq<RequiredField>): (ls: seq<LabelKey>)
    ensures |ls| == |required|
  {
    if required == [] then []
    else Labels(required[..|required| - 1]) + [LabelOf(required[|required| - 1].fieldLabel)]
  }

  lemma {:induction false} LabelsAt(required: seq<RequiredField>, i: int)
    requires 0 <= i < |required|
    ensures Labels(required)[i] == LabelOf(required[i].fieldLabel)
  {
    if i < |required| - 1 {
      LabelsAt(required[..|required| - 1], i);
    }
  }

  lemma LabelsFold(required: seq<RequiredField>, i: int)
    requires 0 <= i < |required|
    ensures Labels(required)[i].key == Fold(required[i].fieldLabel) && Labels(required)[i].key == ToLower(Labels(required)[i].trimmed)
  {
    LabelsAt(required, i);
  }

  // ---------------------------------------------------------------------------
  // allowed: the required labels by lower-cased form

  /**
   * The `allowed` map after its loop: each non-blank required label, trimmed, under its
   * lower-cased form; a later label with the same form replaces an earlier one.
   */
  function Allowed(labels: seq<LabelKey>): map<String, String>
  {
    if labels == [] then map[]
    else
      var e := labels[|labels| - 1];
      var m := Allowed(labels[..|labels| - 1]);
      if e.trimmed == [] then m else m[e.key := e.trimmed]
  }

  /** Each allowed label is the trimmed, non-blank label of one of `labels`, stored under its key. */
  lemma {:induction false} AllowedEntries(labels: seq<LabelKey>, k: String) returns (i: nat)
    requires k in Allowed(labels)
    ensures i < |labels| && labels[i].trimmed != [] && labels[i].key == k && Allowed(labels)[k] == labels[i].trimmed
  {
    var n := |labels|;
    var e := labels[n - 1];
    if e.trimmed != [] && k == e.key {
      i := n - 1;
    } else {
      i := AllowedEntries(labels[..n - 1], k);
      assert labels[..n - 1][i] == labels[i];
    }
  }

  /** Every non-blank label is allowed under its key. */
  lemma {:induction false} AllowedCovers(labels: seq<LabelKey>, i: int)
    requires 0 <= i < |labels| && labels[i].trimmed != []
    ensures labels[i].key in Allowed(labels)
  {
    var n := |labels|;
    if i < n - 1 {
      assert labels[..n - 1][i] == labels[i];
      AllowedCovers(labels[..n - 1], i);
    }
  }

  /** Configured labels of different keys differ: a label's key is its lower-cased form. */
  predicate Keyed(allowed: map<String, String>)
  {
    forall k :: k in allowed ==> ToLower(allowed[k]) == k
  }

  lemma AllowedIsKeyed(required: seq<RequiredField>)
    ensures Keyed(Allowed(Labels(required)))
  {
    forall k | k in Allowed(Labels(required)) ensures ToLower(Allowed(Labels(required))[k]) == k {
      var i := AllowedEntries(Labels(required), k);
      LabelsFold(required, i);
    }
  }

  method AllowedOf(labels: seq<LabelKey>) returns (allowed: map<String, String>)
    ensures allowed == Allowed(labels)
  {
    allowed := map[];
    for i := 0 to |labels|
      invariant allowed == Allowed(labels[..i])
    {
      assert labels[..i + 1][..i] == labels[..i];
      var trimmed := labels[i].trimmed;
      if trimmed == [] {
        continue;
      }
      allowed := allowed[labels[i].key := trimmed];
    }
    assert labels[..|labels|] == labels;
  }

  // ---------------------------------------------------------------------------
  // clean: the allowed fields, first occurrence only

  /**
   * The `clean` list the second loop builds from `es` once the keys in `seen` are taken: a
   * field is kept when its trimmed label is non-blank and its key is unseen and allowed; it is
   * kept under the configured label with its value trimmed, and its key is then seen.
   */
  function Cleaned(es: seq<Edit>, allowed: map<String, String>, seen: set<String>): seq<MetadataValue>
  {
    if es == [] then []
    else
      var e := es[0];
      if e.trimmed == [] || e.key in seen || e.key !in allowed then Cleaned(es[1..], allowed, seen)
      else [MetadataValue(allowed[e.key], e.value)] + Cleaned(es[1..], allowed, seen + {e.key})
  }

  /** Each kept field comes from an edit whose key was unseen and allowed. */
  lemma {:induction false} CleanedSource(es: seq<Edit>, allowed: map<String, String>, seen: set<String>, p: int)
    returns (j: nat)
    requires 0 <= p < |Cleaned(es, allowed, seen)|
    ensures j < |es| && es[j].key in allowed && es[j].key !in seen
    ensures Cleaned(es, allowed, seen)[p] == MetadataValue(allowed[es[j].key], es[j].value)
  {
    var e := es[0];
    if e.trimmed == [] || e.key in seen || e.key !in allowed {
      j := CleanedSource(es[1..], allowed, seen, p);
      j := j + 1;
    } else if p == 0 {
      j := 0;
    } else {
      j := CleanedSource(es[1..], allowed, seen + {e.key}, p - 1);
      j := j + 1;
    }
  }

  /** No configured label is kept twice. */
  lemma {:induction false} CleanedDistinct(es: seq<Edit>, allowed: map<String, String>, seen: set<String>, p: int, q: int)
    requires Keyed(allowed) && 0 <= p < q < |Cleaned(es, allowed, seen)|
    ensures Cleaned(es, allowed, seen)[p].fieldLabel != Cleaned(es, allowed, seen)[q].fieldLabel
  {
    var e := es[0];
    if e.trimmed == [] || e.key in seen || e.key !in allowed {
      CleanedDistinct(es[1..], allowed, seen, p, q);
    } else if p == 0 {
      var j := CleanedSource(es[1..], allowed, seen + {e.key}, q - 1);
      assert ToLower(allowed[e.key]) == e.key && ToLower(allowed[es[1..][j].key]) == es[1..][j].key;
    } else {
      CleanedDistinct(es[1..], allowed, seen + {e.key}, p - 1, q - 1);
    }
  }

  /**
   * The first edit with an unseen allowed key is the one kept for that key: it appears, under
   * the configured label, with its trimmed value, even when that value is blank.
   */
  lemma {:induction false} CleanedFirst(es: seq<Edit>, allowed: map<String, String>, seen: set<String>, j: int)
    requires 0 <= j < |es| && es[j].trimmed != [] && es[j].key in allowed && es[j].key !in seen
    requires forall i :: 0 <= i < j ==> es[i].key != es[j].key
    ensures MetadataValue(allowed[es[j].key], es[j].value) in Cleaned(es, allowed, seen)
  {
    var e := es[0];
    if j > 0 {
      var seen' := if e.trimmed == [] || e.key in seen || e.key !in allowed then seen else seen + {e.key};
      assert es[1..][j - 1] == es[j];
      CleanedFirst(es[1..], allowed, seen', j - 1);
    }
  }

  /** One step of the clean loop over the edits from `i` on. */
  lemma CleanedStep(es: seq<Edit>, allowed: map<String, String>, seen: set<String>, i: int)
    requires 0 <= i < |es|
    ensures Cleaned(es[i..], allowed, seen) ==
              if es[i].trimmed == [] || es[i].key in seen || es[i].key !in allowed then Cleaned(es[i + 1..], allowed, seen)
              else [MetadataValue(allowed[es[i].key], es[i].value)] + Cleaned(es[i + 1..], allowed, seen + {es[i].key})
  {
    assert es[i..][1..] == es[i + 1..];
  }

  method CleanOf(fields: seq<MetadataValue>, allowed: map<String, String>) returns (clean: seq<MetadataValue>)
    ensures clean == Cleaned(Edits(fields), allowed, {})
  {
    var es := Edits(fields);
    var seen: set<String> := {};
    clean := [];
    assert es[0..] == es;
    for i := 0 to |fields|
      invariant clean + Cleaned(es[i..], allowed, seen) == Cleaned(es, allowed, {})
    {
      var trimmed, key := es[i].trimmed, es[i].key;
      CleanedStep(es, allowed, seen, i);
      if trimmed == [] || key in seen {
        continue;
      }
      if key !in allowed {
        continue;
      }
      var canonicalLabel := allowed[key];
      seen := seen + {key};
      clean := clean + [MetadataValue(canonicalLabel, es[i].value)];
    }
    assert es[|fields|..] == [];
    assert clean + [] == clean;
  }

  // ---------------------------------------------------------------------------
  // values and present

  /** The values written: the clean fields whose value is not empty, in order. */
  function NonEmptyValues(clean: seq<MetadataValue>): seq<MetadataValue>
  {
    if clean == [] then []
    else NonEmptyValues(clean[..|clean| - 1]) + (if clean[|clean| - 1].value == [] then [] else [clean[|clean| - 1]])
  }

  lemma {:induction false} NonEmptyValuesMembers(clean: seq<MetadataValue>, v: MetadataValue)
    ensures v in NonEmptyValues(clean) <==> v in clean && v.value != []
  {
    if clean != [] {
      NonEmptyValuesMembers(clean[..|clean| - 1], v);
      assert clean == clean[..|clean| - 1] + [clean[|clean| - 1]];
    }
  }

  /** The `present` set: the trimmed, lower-cased labels of the values written. */
  function Present(values: seq<MetadataValue>): set<String>
  {
    if values == [] then {} else Present(values[..|values| - 1]) + {Fold(values[|values| - 1].fieldLabel)}
  }

  /** The key of every written value is present. */
  lemma {:induction false} PresentHas(values: seq<MetadataValue>, i: int)
    requires 0 <= i < |values|
    ensures Fold(values[i].fieldLabel) in Present(values)
  {
    if i < |values| - 1 {
      var prefix := values[..|values| - 1];
      assert prefix[i] == values[i];
      PresentHas(prefix, i);
    }
  }

  /** Every present key is the key of a written value. */
  lemma {:induction false} PresentSource(values: seq<MetadataValue>, x: String) returns (i: nat)
    requires x in Present(values)
    ensures i < |values| && Fold(values[i].fieldLabel) == x
  {
    var prefix := values[..|values| - 1];
    if x == Fold(values[|values| - 1].fieldLabel) {
      i := |values| - 1;
    } else {
      i := PresentSource(prefix, x);
      assert prefix[i] == values[i];
    }
  }

  /** A key that no written value folds to is not present. */
  lemma {:induction false} PresentAbsent(values: seq<MetadataValue>, x: String)
    requires forall i :: 0 <= i < |values| ==> Fold(values[i].fieldLabel) != x
    ensures x !in Present(values)
  {
    if values != [] {
      var prefix := values[..|values| - 1];
      forall i | 0 <= i < |prefix| ensures Fold(prefix[i].fieldLabel) != x {
        assert prefix[i] == values[i];
      }
      PresentAbsent(prefix, x);
    }
  }

  method ValuesOf(clean: seq<MetadataValue>) returns (values: seq<MetadataValue>, present: set<String>)
    ensures values == NonEmptyValues(clean) && present == Present(values)
  {
    values := [];
    present := {};
    for i := 0 to |clean|
      invariant values == NonEmptyValues(clean[..i]) && present == Present(values)
    {
      NonEmptyValuesStep(clean, i);
      if clean[i].value == [] {
        continue;
      }
      PresentStep(values, clean[i]);
      present := present + {Fold(clean[i].fieldLabel)};
      values := values + [clean[i]];
    }
    assert clean[..|clean|] == clean;
  }

  lemma NonEmptyValuesStep(clean: seq<MetadataValue>, i: int)
    requires 0 <= i < |clean|
    ensures NonEmptyValues(clean[..i + 1]) == NonEmptyValues(clean[..i]) + (if clean[i].value == [] then [] else [clean[i]])
  {
    assert clean[..i + 1][..i] == clean[..i];
  }

  lemma PresentStep(values: seq<MetadataValue>, v: MetadataValue)
    ensures Present(values + [v]) == Present(values) + {Fold(v.fieldLabel)}
  {
    assert (values + [v])[..|values|] == values;
  }

  /** Strict mode's test: the key of every required label that is not blank is present. */
  predicate AllRequiredPresent(labels: seq<LabelKey>, present: set<String>)
  {
    forall i :: 0 <= i < |labels| && labels[i].key != [] ==> labels[i].key in present
  }

  method CheckRequired(labels: seq<LabelKey>, present: set<String>) returns (ok: bool)
    ensures ok == AllRequiredPresent(labels, present)
  {
    for i := 0 to |labels|
      invariant forall k :: 0 <= k < i && labels[k].key != [] ==> labels[k].key in present
    {
      var key := labels[i].key;
      if key != [] && key !in present {
        return false;
      }
    }
    return true;
  }

  // ---------------------------------------------------------------------------
  // UpdateServiceMetadata

  /** The values UpdateServiceMetadata writes for the edited `fields`. */
  function Persisted(required: seq<RequiredField>, fields: seq<MetadataValue>): seq<MetadataValue>
  {
    NonEmptyValues(Cleaned(Edits(fields), Allowed(Labels(required)), {}))
  }

  /** Whether strict mode lets the write through. */
  predicate StrictSatisfied(required: seq<RequiredField>, fields: seq<MetadataValue>)
  {
    AllRequiredPresent(Labels(required), Present(Persisted(required, fields)))
  }

  /**
   * UpdateServiceMetadata: nothing for a blank service or a non-positive organization; the
   * read's error; in strict mode with a required label left without a value, the missing-metadata
   * error and no write; otherwise one replace call with the persisted values, whose answer is
   * returned.
   */
  method UpdateServiceMetadata(organizationId: int, serviceName: String, fields: seq<MetadataValue>, strict: bool,
                               required: Result<seq<RequiredField>, DbError>, replaceAnswer: Option<DbError>)
    returns (out: Outcome)
    ensures IsBlank(serviceName) || organizationId <= 0 ==> out == Outcome(None, None)
    ensures !IsBlank(serviceName) && organizationId > 0 && required.Err? ==> out == Outcome(None, Some(StoreError(required.error)))
    ensures (!IsBlank(serviceName) && organizationId > 0 && required.Ok? && strict && !StrictSatisfied(required.value, fields))
            ==> out == Outcome(None, Some(RequiredMetadataMissing))
    ensures out.call.Some? <==>
              !IsBlank(serviceName) && organizationId > 0 && required.Ok? && (strict ==> StrictSatisfied(required.value, fields))
    ensures out.call.Some? ==>
              && out.call.value == Replace(organizationId, TrimSpace(serviceName), Persisted(required.value, fields))
              && out.err == (if replaceAnswer.Some? then Some(StoreError(replaceAnswer.value)) else None)
  {
    var name := TrimSpace(serviceName);
    if name == [] || organizationId <= 0 {
      return Outcome(None, None);
    }
    if required.Err? {
      return Outcome(None, Some(StoreError(required.error)));
    }
    var labels := Labels(required.value);
    var allowed := AllowedOf(labels);
    var clean := CleanOf(fields, allowed);
    var values, present := ValuesOf(clean);
    if strict {
      var ok := CheckRequired(labels, present);
      if !ok {
        return Outcome(None, Some(RequiredMetadataMissing));
      }
    }
    var err := if replaceAnswer.Some? then Some(StoreError(replaceAnswer.value)) else None;
    out := Outcome(Some(Replace(organizationId, name, values)), err);
  }

  // ---------------------------------------------------------------------------
  // What the written values are

  /** A configured label folds back to its key. */
  lemma AllowedFold(required: seq<RequiredField>, k: String)
    requires k in Allowed(Labels(required))
    ensures Fold(Allowed(Labels(required))[k]) == k
  {
    var i := AllowedEntries(Labels(required), k);
    LabelsFold(required, i);
    var t := TrimSpace(required[i].fieldLabel);
    assert TrimSpace(t) == t;
  }

  /** Each written value is a kept field with a non-empty value. */
  lemma PersistedSource(required: seq<RequiredField>, fields: seq<MetadataValue>, v: MetadataValue) returns (j: nat)
    requires v in Persisted(required, fields)
    ensures v.value != [] && j < |fields| && v.value == TrimSpace(fields[j].value)
    ensures Fold(fields[j].fieldLabel) in Allowed(Labels(required))
    ensures v.fieldLabel == Allowed(Labels(required))[Fold(fields[j].fieldLabel)]
  {
    var clean := Cleaned(Edits(fields), Allowed(Labels(required)), {});
    NonEmptyValuesMembers(clean, v);
    var q :| 0 <= q < |clean| && clean[q] == v;
    j := CleanedSource(Edits(fields), Allowed(Labels(required)), {}, q);
    EditsFold(fields, j);
  }

  /**
   * Every written value has a non-empty, trimmed value and a required label in its configured
   * (trimmed) spelling, under which the edited label folds.
   */
  lemma PersistedEntries(required: seq<RequiredField>, fields: seq<MetadataValue>, v: MetadataValue)
    requires v in Persisted(required, fields)
    ensures v.value != [] && TrimmedBy(v.value, Spaces)
    ensures exists i :: 0 <= i < |required| && v.fieldLabel == TrimSpace(required[i].fieldLabel) && v.fieldLabel != []
  {
    var j := PersistedSource(required, fields, v);
    var i := AllowedEntries(Labels(required), Fold(fields[j].fieldLabel));
    LabelsAt(required, i);
  }

  /** No label is written twice. */
  lemma PersistedDistinct(required: seq<RequiredField>, fields: seq<MetadataValue>, p: int, q: int)
    requires 0 <= p < q < |Persisted(required, fields)|
    ensures Persisted(required, fields)[p].fieldLabel != Persisted(required, fields)[q].fieldLabel
  {
    var clean := Cleaned(Edits(fields), Allowed(Labels(required)), {});
    NonEmptySubsequence(clean, p, q);
    var p', q' :| 0 <= p' < q' < |clean| && clean[p'] == Persisted(required, fields)[p] && clean[q'] == Persisted(required, fields)[q];
    AllowedIsKeyed(required);
    CleanedDistinct(Edits(fields), Allowed(Labels(required)), {}, p', q');
  }

  /** Two written values come from two kept fields in the same order. */
  lemma {:induction false} NonEmptySubsequence(clean: seq<MetadataValue>, p: int, q: int)
    requires 0 <= p < q < |NonEmptyValues(clean)|
    ensures exists p', q' :: 0 <= p' < q' < |clean| && clean[p'] == NonEmptyValues(clean)[p] && clean[q'] == NonEmptyValues(clean)[q]
  {
    var n := |clean|;
    var prefix := clean[..n - 1];
    var front := NonEmptyValues(prefix);
    if q < |front| {
      NonEmptySubsequence(prefix, p, q);
      var p', q' :| 0 <= p' < q' < |prefix| && prefix[p'] == front[p] && prefix[q'] == front[q];
      assert clean[p'] == NonEmptyValues(clean)[p] && clean[q'] == NonEmptyValues(clean)[q];
    } else {
      NonEmptyValuesMembers(prefix, front[p]);
      var p' :| 0 <= p' < |prefix| && prefix[p'] == front[p];
      assert clean[p'] == NonEmptyValues(clean)[p] && clean[n - 1] == NonEmptyValues(clean)[q];
    }
  }

  /** The first edited field of a configured key, as the clean loop keeps it. */
  lemma FirstKept(required: seq<RequiredField>, fields: seq<MetadataValue>, j: int, k: int)
    requires 0 <= j < |fields| && 0 <= k < |required| && Fold(required[k].fieldLabel) != []
    requires Fold(fields[j].fieldLabel) == Fold(required[k].fieldLabel)
    requires forall i :: 0 <= i < j ==> Fold(fields[i].fieldLabel) != Fold(fields[j].fieldLabel)
    ensures Fold(fields[j].fieldLabel) in Allowed(Labels(required))
    ensures MetadataValue(Allowed(Labels(required))[Fold(fields[j].fieldLabel)], TrimSpace(fields[j].value))
            in Cleaned(Edits(fields), Allowed(Labels(required)), {})
  {
    LabelsFold(required, k);
    AllowedCovers(Labels(required), k);
    EditsAt(fields, j);
    EditsFold(fields, j);
    assert Edits(fields)[j].trimmed != [];
    forall i | 0 <= i < j ensures Edits(fields)[i].key != Edits(fields)[j].key {
      EditsFold(fields, i);
    }
    CleanedFirst(Edits(fields), Allowed(Labels(required)), {}, j);
  }

  /**
   * The first edited field whose label folds to a required label's decides that label: its
   * trimmed value is written under the configured spelling when it is not blank.
   */
  lemma PersistedFirstWins(required: seq<RequiredField>, fields: seq<MetadataValue>, j: int, k: int)
    requires 0 <= j < |fields| && 0 <= k < |required| && Fold(required[k].fieldLabel) != []
    requires Fold(fields[j].fieldLabel) == Fold(required[k].fieldLabel)
    requires forall i :: 0 <= i < j ==> Fold(fields[i].fieldLabel) != Fold(fields[j].fieldLabel)
    requires TrimSpace(fields[j].value) != []
    ensures exists v :: v in Persisted(required, fields) && Fold(v.fieldLabel) == Fold(required[k].fieldLabel) && v.value == TrimSpace(fields[j].value)
  {
    var key := Fold(fields[j].fieldLabel);
    FirstKept(required, fields, j, k);
    var v := MetadataValue(Allowed(Labels(required))[key], TrimSpace(fields[j].value));
    NonEmptyValuesMembers(Cleaned(Edits(fields), Allowed(Labels(required)), {}), v);
    AllowedFold(required, key);
  }

  /**
   * A first occurrence with a blank value blocks later values for its label: nothing is
   * written for that label.
   */
  lemma PersistedBlankFirstBlocks(required: seq<RequiredField>, fields: seq<MetadataValue>, j: int, k: int, v: MetadataValue)
    requires 0 <= j < |fields| && 0 <= k < |required| && Fold(required[k].fieldLabel) != []
    requires Fold(fields[j].fieldLabel) == Fold(required[k].fieldLabel)
    requires forall i :: 0 <= i < j ==> Fold(fields[i].fieldLabel) != Fold(fields[j].fieldLabel)
    requires TrimSpace(fields[j].value) == []
    requires v in Persisted(required, fields)
    ensures Fold(v.fieldLabel) != Fold(required[k].fieldLabel)
  {
    var allowed := Allowed(Labels(required));
    var key := Fold(fields[j].fieldLabel);
    FirstKept(required, fields, j, k);
    var blank := MetadataValue(allowed[key], TrimSpace(fields[j].value));
    var j' := PersistedSource(required, fields, v);
    AllowedFold(required, Fold(fields[j'].fieldLabel));
    if v.fieldLabel == blank.fieldLabel {
      NonEmptyValuesMembers(Cleaned(Edits(fields), allowed, {}), v);
      AllowedIsKeyed(required);
      CleanedLabelUnique(Edits(fields), allowed, {}, blank, v);
    }
  }

  /** Two kept fields with the same label are the same field. */
  lemma CleanedLabelUnique(es: seq<Edit>, allowed: map<String, String>, seen: set<String>, a: MetadataValue, b: MetadataValue)
    requires Keyed(allowed) && a in Cleaned(es, allowed, seen) && b in Cleaned(es, allowed, seen) && a.fieldLabel == b.fieldLabel
    ensures a == b
  {
    var clean := Cleaned(es, allowed, seen);
    var p :| 0 <= p < |clean| && clean[p] == a;
    var q :| 0 <= q < |clean| && clean[q] == b;
    if p < q {
      CleanedDistinct(es, allowed, seen, p, q);
    } else if q < p {
      CleanedDistinct(es, allowed, seen, q, p);
    }
  }

  /** In strict mode a write carries a non-empty value for every required label that is not blank. */
  lemma StrictWriteComplete(required: seq<RequiredField>, fields: seq<MetadataValue>, k: int)
    requires StrictSatisfied(required, fields) && 0 <= k < |required| && Fold(required[k].fieldLabel) != []
    ensures exists v :: v in Persisted(required, fields) && Fold(v.fieldLabel) == Fold(required[k].fieldLabel) && v.value != []
  {
    LabelsFold(required, k);
    var i := PresentSource(Persisted(required, fields), Fold(required[k].fieldLabel));
    var v := Persisted(required, fields)[i];
    NonEmptyValuesMembers(Cleaned(Edits(fields), Allowed(Labels(required)), {}), v);
  }

  /** Strict mode refuses the write when some required label that is not blank gets no value. */
  lemma StrictRejectsMissing(required: seq<RequiredField>, fields: seq<MetadataValue>, k: int)
    requires 0 <= k < |required| && Fold(required[k].fieldLabel) != []
    requires forall v :: v in Persisted(required, fields) ==> Fold(v.fieldLabel) != Fold(required[k].fieldLabel)
    ensures !StrictSatisfied(required, fields)
  {
    LabelsFold(required, k);
    var values := Persisted(required, fields);
    forall i | 0 <= i < |values| ensures Fold(values[i].fieldLabel) != Fold(required[k].fieldLabel) {
      assert values[i] in values;
    }
    PresentAbsent(values, Fold(required[k].fieldLabel));
  }
}
