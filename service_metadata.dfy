/**
 * The metadata filter data of the read-side service: tags and missing-metadata counts
 * per service, the filter option list, and their application to service and deployment
 * rows (loadMetadataFilterData, metadataTagValue, applyMetadataToServices,
 * applyMetadataToDeployments, mapRequiredFields).
 */
module ServiceMetadata {
  import opened Wrappers
  import opened GoStrings
  import opened Sorting
  import opened ServiceRead

  /** domain.Service: one service row or card. */
  datatype Service = Service(title: String, environment: String, status: String, lastDeploy: String,
                             revision: String, commitSha: String, deployDuration: String,
                             missingMetadata: int, metadataTags: String)

  /** domain.DeploymentRow: one deployment row. */
  datatype DeploymentRow = DeploymentRow(service: String, environment: String, deployedAt: String,
                                         status: String, metadataTags: String)

  /** ports.ServiceMetadataValue: one stored metadata value of one service. */
  datatype ServiceMetadataValue = ServiceMetadataValue(serviceName: String, fieldLabel: String, value: String)

  /** domain.MetadataFilterOption: one entry of the metadata filter drop-down. */
  datatype FilterOption = FilterOption(value: String, fieldLabel: String)

  /** metadataFilterData. */
  datatype MetadataFilterData = MetadataFilterData(options: seq<FilterOption>,
                                                   missingByService: map<String, int>,
                                                   tagsByService: map<String, String>)

  /** The store read failed; its cause is not modelled. */
  datatype StoreError = StoreError

  // ---------------------------------------------------------------------------
  // metadataTagValue

  /** metadataTagValue: "label:value", both lower-cased and trimmed, or "" when either is blank. */
  function MetadataTagValue(fieldLabel: String, value: String): (tag: String)
    ensures tag == [] || (|tag| > 1 && ':' in tag)
  {
    var l := TrimSpace(ToLower(fieldLabel));
    var v := TrimSpace(ToLower(value));
    if l == [] || v == [] then [] else l + ":" + v
  }

  /** Lower-casing never makes a blank string non-blank or the other way round. */
  lemma BlankLower(s: String)
    ensures IsBlank(ToLower(s)) <==> IsBlank(s)
  {
    TrimSpaceToLower(s);
  }

  /** A tag is empty exactly when the label or the value is blank. */
  lemma MetadataTagValueEmpty(fieldLabel: String, value: String)
    ensures MetadataTagValue(fieldLabel, value) == [] <==> IsBlank(fieldLabel) || IsBlank(value)
  {
    BlankLower(fieldLabel);
    BlankLower(value);
  }

  /** Otherwise it is the trimmed, lower-cased label and value around a colon. */
  lemma MetadataTagValueParts(fieldLabel: String, value: String)
    requires !IsBlank(fieldLabel) && !IsBlank(value)
    ensures MetadataTagValue(fieldLabel, value) == ToLower(TrimSpace(fieldLabel)) + ":" + ToLower(TrimSpace(value))
  {
    BlankLower(fieldLabel);
    BlankLower(value);
    TrimSpaceToLower(fieldLabel);
    TrimSpaceToLower(value);
  }

  // ---------------------------------------------------------------------------
  // loadMetadataFilterData, first loop: the required and the filterable labels

  /** The trimmed, lower-cased form under which labels and service names are compared. */
  function Key(s: String): String
  {
    ToLower(TrimSpace(s))
  }

  /** The key of every required field's label. */
  function FieldKeys(rows: seq<RequiredField>): (keys: seq<String>)
    ensures |keys| == |rows|
  {
    if rows == [] then [] else FieldKeys(rows[..|rows| - 1]) + [Key(rows[|rows| - 1].fieldLabel)]
  }

  lemma {:induction false} FieldKeysAt(rows: seq<RequiredField>, i: int)
    requires 0 <= i < |rows|
    ensures FieldKeys(rows)[i] == Key(rows[i].fieldLabel)
  {
    if i < |rows| - 1 {
      FieldKeysAt(rows[..|rows| - 1], i);
    }
  }

  /** `required`: the non-blank keys. */
  function RequiredOf(keys: seq<String>): (required: set<String>)
  {
    if keys == [] then {}
    else RequiredOf(keys[..|keys| - 1]) + (if keys[|keys| - 1] == [] then {} else {keys[|keys| - 1]})
  }

  /** The trimmed label of every required field. */
  function TrimmedLabels(rows: seq<RequiredField>): (labels: seq<String>)
    ensures |labels| == |rows|
  {
    if rows == [] then [] else TrimmedLabels(rows[..|rows| - 1]) + [TrimSpace(rows[|rows| - 1].fieldLabel)]
  }

  lemma {:induction false} TrimmedLabelsAt(rows: seq<RequiredField>, i: int)
    requires 0 <= i < |rows|
    ensures TrimmedLabels(rows)[i] == TrimSpace(rows[i].fieldLabel)
  {
    if i < |rows| - 1 {
      TrimmedLabelsAt(rows[..|rows| - 1], i);
    }
  }

  /** `filterable`: each non-blank key of a filterable row to the trimmed label of its last such row. */
  function FilterableOf(keys: seq<String>, rows: seq<RequiredField>): (labels: map<String, String>)
    requires |keys| == |rows|
  {
    FilterableUpTo(keys, TrimmedLabels(rows), rows, |rows|)
  }

  /** `filterable` after the loop has seen the first `n` rows, whose trimmed labels are `labels`. */
  function FilterableUpTo(keys: seq<String>, labels: seq<String>, rows: seq<RequiredField>, n: nat): (m: map<String, String>)
    requires |keys| == |rows| == |labels| && n <= |rows|
  {
    if n == 0 then map[]
    else
      var prev := FilterableUpTo(keys, labels, rows, n - 1);
      if keys[n - 1] != [] && rows[n - 1].filterable then prev[keys[n - 1] := labels[n - 1]] else prev
  }

  lemma RequiredOfStep(keys: seq<String>, i: int)
    requires 0 <= i < |keys|
    ensures RequiredOf(keys[..i + 1]) == RequiredOf(keys[..i]) + (if keys[i] == [] then {} else {keys[i]})
  {
    assert keys[..i + 1][..i] == keys[..i];
  }

  /** A key is required exactly when some required field has it and it is not blank. */
  lemma {:induction false} RequiredOfMembers(keys: seq<String>, key: String)
    ensures key in RequiredOf(keys) <==> key != [] && key in keys
  {
    if keys != [] {
      RequiredOfMembers(keys[..|keys| - 1], key);
      assert keys == keys[..|keys| - 1] + [keys[|keys| - 1]];
    }
  }

  /** The first loop of loadMetadataFilterData, over the required fields. */
  method IndexRequiredFields(rows: seq<RequiredField>) returns (required: set<String>, filterable: map<String, String>)
    ensures required == RequiredOf(FieldKeys(rows)) && filterable == FilterableOf(FieldKeys(rows), rows)
  {
    ghost var keys := FieldKeys(rows);
    ghost var labels := TrimmedLabels(rows);
    required := {};
    filterable := map[];
    var i := 0;
    while i < |rows|
      invariant 0 <= i <= |rows|
      invariant required == RequiredOf(keys[..i]) && filterable == FilterableUpTo(keys, labels, rows, i)
    {
      var key := Key(rows[i].fieldLabel);
      FieldKeysAt(rows, i);
      TrimmedLabelsAt(rows, i);
      required, filterable := IndexRequiredField(rows, keys, labels, i, key, required, filterable);
      i := i + 1;
    }
    assert keys[..i] == keys;
  }

  /** One iteration of the first loop: records row `i`. */
  method IndexRequiredField(rows: seq<RequiredField>, ghost keys: seq<String>, ghost labels: seq<String>, i: int,
                            key: String, required: set<String>, filterable: map<String, String>)
    returns (required': set<String>, filterable': map<String, String>)
    requires |keys| == |rows| == |labels| && 0 <= i < |rows| && keys[i] == key
    requires labels[i] == TrimSpace(rows[i].fieldLabel)
    requires required == RequiredOf(keys[..i]) && filterable == FilterableUpTo(keys, labels, rows, i)
    ensures required' == RequiredOf(keys[..i + 1]) && filterable' == FilterableUpTo(keys, labels, rows, i + 1)
  {
    RequiredOfStep(keys, i);
    required', filterable' := required, filterable;
    if key != [] {
      required' := required + {key};
      if rows[i].filterable {
        filterable' := filterable[key := TrimSpace(rows[i].fieldLabel)];
      }
    }
  }

  /** A key is filterable exactly when it is not blank and some filterable row has it. */
  lemma FilterableOfMembers(keys: seq<String>, rows: seq<RequiredField>, key: String)
    requires |keys| == |rows|
    ensures key in FilterableOf(keys, rows) <==>
              key != [] && exists i :: 0 <= i < |rows| && keys[i] == key && rows[i].filterable
  {
    if key in FilterableOf(keys, rows) {
      var i := FilterableWitness(keys, TrimmedLabels(rows), rows, |rows|, key);
    }
    if key != [] && exists i :: 0 <= i < |rows| && keys[i] == key && rows[i].filterable {
      var i :| 0 <= i < |rows| && keys[i] == key && rows[i].filterable;
      FilterableHas(keys, TrimmedLabels(rows), rows, |rows|, i);
    }
  }

  /** The row a filterable key came from. */
  lemma {:induction false} FilterableWitness(keys: seq<String>, labels: seq<String>, rows: seq<RequiredField>, n: nat, key: String)
    returns (i: int)
    requires |keys| == |rows| == |labels| && n <= |rows| && key in FilterableUpTo(keys, labels, rows, n)
    ensures 0 <= i < n && keys[i] == key && key != [] && rows[i].filterable
  {
    if key in FilterableUpTo(keys, labels, rows, n - 1) {
      i := FilterableWitness(keys, labels, rows, n - 1, key);
    } else {
      i := n - 1;
    }
  }

  /** A filterable row's key is filterable once the loop has passed it. */
  lemma {:induction false} FilterableHas(keys: seq<String>, labels: seq<String>, rows: seq<RequiredField>, n: nat, i: int)
    requires |keys| == |rows| == |labels| && 0 <= i < n <= |rows| && keys[i] != [] && rows[i].filterable
    ensures keys[i] in FilterableUpTo(keys, labels, rows, n)
  {
    if i < n - 1 {
      FilterableHas(keys, labels, rows, n - 1, i);
    }
  }

  /** Every filterable key is also required. */
  lemma FilterableRequired(keys: seq<String>, rows: seq<RequiredField>, key: String)
    requires |keys| == |rows| && key in FilterableOf(keys, rows)
    ensures key in RequiredOf(keys)
  {
    FilterableOfMembers(keys, rows, key);
    RequiredOfMembers(keys, key);
  }

  // ---------------------------------------------------------------------------
  // loadMetadataFilterData, second loop: filled labels and tags per service

  /** A metadata row with its service name and label as keys, its value trimmed and its tag. */
  datatype CleanValue = CleanValue(service: String, key: String, value: String, tag: String)

  function Cleaned(row: ServiceMetadataValue): CleanValue
  {
    var key := Key(row.fieldLabel);
    var value := TrimSpace(row.value);
    CleanValue(Key(row.serviceName), key, value, MetadataTagValue(key, value))
  }

  /** Trimming and lower-casing a key again changes nothing. */
  lemma KeyStable(s: String)
    ensures TrimSpace(ToLower(Key(s))) == Key(s)
  {
    ToLowerIdempotent(TrimSpace(s));
    TrimSpaceToLower(Key(s));
    TrimSpaceToLower(TrimSpace(s));
    TrimSpaceIdempotent(s);
  }

  /** Trimming a lower-cased trimmed string changes nothing. */
  lemma TrimmedLower(s: String)
    ensures TrimSpace(ToLower(TrimSpace(s))) == ToLower(TrimSpace(s))
  {
    TrimSpaceToLower(TrimSpace(s));
    TrimSpaceIdempotent(s);
  }

  /** Once the key and the trimmed value are not empty, the tag is never empty: it is the key, a colon and the lower-cased value. */
  lemma CleanedTag(row: ServiceMetadataValue)
    requires Cleaned(row).key != [] && Cleaned(row).value != []
    ensures Cleaned(row).tag == Cleaned(row).key + ":" + ToLower(Cleaned(row).value)
  {
    TagOfKey(row.fieldLabel, row.value);
  }

  lemma TagOfKey(fieldLabel: String, value: String)
    requires Key(fieldLabel) != [] && TrimSpace(value) != []
    ensures MetadataTagValue(Key(fieldLabel), TrimSpace(value)) == Key(fieldLabel) + ":" + ToLower(TrimSpace(value))
  {
    KeyStable(fieldLabel);
    TrimmedLower(value);
  }

  /** A row fills a required label of its service: nothing is blank and the label is required. */
  predicate Fills(c: CleanValue, required: set<String>)
  {
    c.service != [] && c.key != [] && c.value != [] && c.key in required
  }

  /** A row also tags its service: its label is filterable and its tag is not empty. */
  predicate Tags(c: CleanValue, required: set<String>, filterable: map<String, String>)
  {
    Fills(c, required) && c.key in filterable && c.tag != []
  }

  /** `filledByService`, `tagsByService` and `tagLabels`. */
  datatype Scan = Scan(filled: map<String, set<String>>, tags: map<String, set<String>>, tagLabels: map<String, String>)

  /** The members recorded for `k`, none when it has no entry. */
  function Members(m: map<String, set<String>>, k: String): set<String>
  {
    if k in m then m[k] else {}
  }

  /** The effect of one metadata row on the scan. */
  function ScanRow(acc: Scan, required: set<String>, filterable: map<String, String>, c: CleanValue): Scan
  {
    if !Fills(c, required) then acc
    else
      var filled := acc.filled[c.service := Members(acc.filled, c.service) + {c.key}];
      if !Tags(c, required, filterable) then acc.(filled := filled)
      else Scan(filled, acc.tags[c.service := Members(acc.tags, c.service) + {c.tag}],
                acc.tagLabels[c.tag := filterable[c.key] + ": " + c.value])
  }

  /** The scan of all rows, in order. */
  function ScanOf(cs: seq<CleanValue>, required: set<String>, filterable: map<String, String>): Scan
  {
    if cs == [] then Scan(map[], map[], map[])
    else ScanRow(ScanOf(cs[..|cs| - 1], required, filterable), required, filterable, cs[|cs| - 1])
  }

  function CleanAll(rows: seq<ServiceMetadataValue>): (cs: seq<CleanValue>)
    ensures |cs| == |rows|
  {
    if rows == [] then [] else CleanAll(rows[..|rows| - 1]) + [Cleaned(rows[|rows| - 1])]
  }

  lemma {:induction false} CleanAllAt(rows: seq<ServiceMetadataValue>, i: int)
    requires 0 <= i < |rows|
    ensures CleanAll(rows)[i] == Cleaned(rows[i])
  {
    if i < |rows| - 1 {
      CleanAllAt(rows[..|rows| - 1], i);
    }
  }

  lemma ScanOfAppend(cs: seq<CleanValue>, c: CleanValue, required: set<String>, filterable: map<String, String>)
    ensures ScanOf(cs + [c], required, filterable) == ScanRow(ScanOf(cs, required, filterable), required, filterable, c)
  {
    assert (cs + [c])[..|cs|] == cs;
  }

  lemma ScanNext(rows: seq<ServiceMetadataValue>, i: int, required: set<String>, filterable: map<String, String>)
    requires 0 <= i < |rows|
    ensures ScanOf(CleanAll(rows[..i + 1]), required, filterable) ==
              ScanRow(ScanOf(CleanAll(rows[..i]), required, filterable), required, filterable, Cleaned(rows[i]))
  {
    assert rows[..i + 1][..i] == rows[..i];
    assert CleanAll(rows[..i + 1]) == CleanAll(rows[..i]) + [Cleaned(rows[i])];
    ScanOfAppend(CleanAll(rows[..i]), Cleaned(rows[i]), required, filterable);
  }

  /** The second loop of loadMetadataFilterData, over the stored metadata values. */
  method ScanMetadataValues(rows: seq<ServiceMetadataValue>, required: set<String>, filterable: map<String, String>)
    returns (filled: map<String, set<String>>, tags: map<String, set<String>>, tagLabels: map<String, String>)
    ensures Scan(filled, tags, tagLabels) == ScanOf(CleanAll(rows), required, filterable)
  {
    filled, tags, tagLabels := map[], map[], map[];
    var i := 0;
    while i < |rows|
      invariant 0 <= i <= |rows|
      invariant Scan(filled, tags, tagLabels) == ScanOf(CleanAll(rows[..i]), required, filterable)
    {
      ScanNext(rows, i, required, filterable);
      filled, tags, tagLabels := ScanMetadataValue(rows[i], required, filterable, filled, tags, tagLabels);
      i := i + 1;
    }
    assert rows[..i] == rows;
  }

  /** One iteration of the second loop. */
  method ScanMetadataValue(row: ServiceMetadataValue,
                           required: set<String>, filterable: map<String, String>,
                           filled: map<String, set<String>>, tags: map<String, set<String>>, tagLabels: map<String, String>)
    returns (filled': map<String, set<String>>, tags': map<String, set<String>>, tagLabels': map<String, String>)
    ensures Scan(filled', tags', tagLabels') == ScanRow(Scan(filled, tags, tagLabels), required, filterable, Cleaned(row))
  {
    filled', tags', tagLabels' := filled, tags, tagLabels;
    var serviceName := Key(row.serviceName);
    var fieldKey := Key(row.fieldLabel);
    var value := TrimSpace(row.value);
    if serviceName == [] || fieldKey == [] || value == [] {
      return;
    }
    if fieldKey !in required {
      return;
    }
    filled' := filled[serviceName := Members(filled, serviceName) + {fieldKey}];
    if fieldKey !in filterable {
      return;
    }
    var tag := MetadataTagValue(fieldKey, value);
    if tag == [] {
      return;
    }
    tags' := tags[serviceName := Members(tags, serviceName) + {tag}];
    tagLabels' := tagLabels[tag := filterable[fieldKey] + ": " + value];
  }

  // Properties of the scan.

  lemma ScanRowFilled(acc: Scan, required: set<String>, filterable: map<String, String>, c: CleanValue, s: String)
    ensures Members(ScanRow(acc, required, filterable, c).filled, s) ==
              Members(acc.filled, s) + (if Fills(c, required) && c.service == s then {c.key} else {})
    ensures s in ScanRow(acc, required, filterable, c).filled <==> s in acc.filled || (Fills(c, required) && c.service == s)
  {
  }

  lemma ScanRowTags(acc: Scan, required: set<String>, filterable: map<String, String>, c: CleanValue, s: String)
    ensures Members(ScanRow(acc, required, filterable, c).tags, s) ==
              Members(acc.tags, s) + (if Tags(c, required, filterable) && c.service == s then {c.tag} else {})
    ensures s in ScanRow(acc, required, filterable, c).tags <==> s in acc.tags || (Tags(c, required, filterable) && c.service == s)
  {
  }

  lemma ScanRowLabels(acc: Scan, required: set<String>, filterable: map<String, String>, c: CleanValue, t: String)
    ensures t in ScanRow(acc, required, filterable, c).tagLabels <==> t in acc.tagLabels || (Tags(c, required, filterable) && c.tag == t)
    ensures t in ScanRow(acc, required, filterable, c).tagLabels ==>
              ScanRow(acc, required, filterable, c).tagLabels[t] ==
                if Tags(c, required, filterable) && c.tag == t then filterable[c.key] + ": " + c.value else acc.tagLabels[t]
  {
  }

  lemma ScanOfLast(cs: seq<CleanValue>, required: set<String>, filterable: map<String, String>)
    requires cs != []
    ensures ScanOf(cs, required, filterable) ==
              ScanRow(ScanOf(cs[..|cs| - 1], required, filterable), required, filterable, cs[|cs| - 1])
  {
  }

  /** Every service with filled labels has at least one, and only required ones; every tagged service has filled labels. */
  lemma {:induction false} ScanShape(cs: seq<CleanValue>, required: set<String>, filterable: map<String, String>, s: String)
    ensures s in ScanOf(cs, required, filterable).filled ==>
              ScanOf(cs, required, filterable).filled[s] != {} && ScanOf(cs, required, filterable).filled[s] <= required
    ensures s in ScanOf(cs, required, filterable).tags ==> s in ScanOf(cs, required, filterable).filled
  {
    if cs != [] {
      var n := |cs| - 1;
      ScanShape(cs[..n], required, filterable, s);
      ScanOfLast(cs, required, filterable);
      ScanRowFilled(ScanOf(cs[..n], required, filterable), required, filterable, cs[n], s);
      ScanRowTags(ScanOf(cs[..n], required, filterable), required, filterable, cs[n], s);
    }
  }

  /** A row that fills a label records it for its service. */
  lemma {:induction false} ScanFilledHas(cs: seq<CleanValue>, required: set<String>, filterable: map<String, String>, i: int)
    requires 0 <= i < |cs| && Fills(cs[i], required)
    ensures cs[i].key in Members(ScanOf(cs, required, filterable).filled, cs[i].service)
  {
    var n := |cs| - 1;
    ScanOfLast(cs, required, filterable);
    ScanRowFilled(ScanOf(cs[..n], required, filterable), required, filterable, cs[n], cs[i].service);
    if i < n {
      assert cs[..n][i] == cs[i];
      ScanFilledHas(cs[..n], required, filterable, i);
    }
  }

  /** Every recorded label comes from a row that fills it. */
  lemma {:induction false} ScanFilledWitness(cs: seq<CleanValue>, required: set<String>, filterable: map<String, String>,
                                             s: String, k: String) returns (i: int)
    requires k in Members(ScanOf(cs, required, filterable).filled, s)
    ensures 0 <= i < |cs| && Fills(cs[i], required) && cs[i].service == s && cs[i].key == k
  {
    var n := |cs| - 1;
    ScanOfLast(cs, required, filterable);
    ScanRowFilled(ScanOf(cs[..n], required, filterable), required, filterable, cs[n], s);
    if k in Members(ScanOf(cs[..n], required, filterable).filled, s) {
      i := ScanFilledWitness(cs[..n], required, filterable, s, k);
      assert cs[..n][i] == cs[i];
    } else {
      i := n;
    }
  }

  /** A row that tags its service records the tag for it and in `tagLabels`. */
  lemma {:induction false} ScanTagsHas(cs: seq<CleanValue>, required: set<String>, filterable: map<String, String>, i: int)
    requires 0 <= i < |cs| && Tags(cs[i], required, filterable)
    ensures cs[i].tag in Members(ScanOf(cs, required, filterable).tags, cs[i].service)
    ensures cs[i].tag in ScanOf(cs, required, filterable).tagLabels
  {
    var n := |cs| - 1;
    ScanOfLast(cs, required, filterable);
    ScanRowTags(ScanOf(cs[..n], required, filterable), required, filterable, cs[n], cs[i].service);
    ScanRowLabels(ScanOf(cs[..n], required, filterable), required, filterable, cs[n], cs[i].tag);
    if i < n {
      assert cs[..n][i] == cs[i];
      ScanTagsHas(cs[..n], required, filterable, i);
    }
  }

  /** Every recorded tag comes from a row that tags its service with it. */
  lemma {:induction false} ScanTagsWitness(cs: seq<CleanValue>, required: set<String>, filterable: map<String, String>,
                                           s: String, t: String) returns (i: int)
    requires t in Members(ScanOf(cs, required, filterable).tags, s)
    ensures 0 <= i < |cs| && Tags(cs[i], required, filterable) && cs[i].service == s && cs[i].tag == t
  {
    var n := |cs| - 1;
    ScanOfLast(cs, required, filterable);
    ScanRowTags(ScanOf(cs[..n], required, filterable), required, filterable, cs[n], s);
    if t in Members(ScanOf(cs[..n], required, filterable).tags, s) {
      i := ScanTagsWitness(cs[..n], required, filterable, s, t);
      assert cs[..n][i] == cs[i];
    } else {
      i := n;
    }
  }

  /** A tag's option label is the display label and value of the last row that produced the tag. */
  lemma {:induction false} ScanLabelsLast(cs: seq<CleanValue>, required: set<String>, filterable: map<String, String>,
                                          t: String) returns (i: int)
    requires t in ScanOf(cs, required, filterable).tagLabels
    ensures 0 <= i < |cs| && Tags(cs[i], required, filterable) && cs[i].tag == t
    ensures ScanOf(cs, required, filterable).tagLabels[t] == filterable[cs[i].key] + ": " + cs[i].value
    ensures forall j :: i < j < |cs| ==> !(Tags(cs[j], required, filterable) && cs[j].tag == t)
  {
    var n := |cs| - 1;
    ScanOfLast(cs, required, filterable);
    ScanRowLabels(ScanOf(cs[..n], required, filterable), required, filterable, cs[n], t);
    if Tags(cs[n], required, filterable) && cs[n].tag == t {
      i := n;
    } else {
      i := ScanLabelsLast(cs[..n], required, filterable, t);
      assert cs[..n][i] == cs[i];
      forall j | i < j < |cs|
        ensures !(Tags(cs[j], required, filterable) && cs[j].tag == t)
      {
        if j < n {
          assert cs[..n][j] == cs[j];
        }
      }
    }
  }

  // ---------------------------------------------------------------------------
  // loadMetadataFilterData: missing counts

  /** `missingByService`: for every service with filled labels, how many required labels it lacks, never below zero; none when nothing is required. */
  function MissingOf(filled: map<String, set<String>>, requiredCount: nat): map<String, int>
  {
    if requiredCount > 0 then map s | s in filled :: if requiredCount - |filled[s]| < 0 then 0 else requiredCount - |filled[s]|
    else map[]
  }

  /** The loop that fills `missingByService`. */
  method CountMissing(filled: map<String, set<String>>, requiredCount: nat) returns (missing: map<String, int>)
    ensures missing == MissingOf(filled, requiredCount)
  {
    missing := map[];
    if requiredCount > 0 {
      var remaining := filled.Keys;
      while remaining != {}
        invariant remaining <= filled.Keys
        invariant missing.Keys == filled.Keys - remaining
        invariant forall s :: s in missing ==> missing[s] == MissingOf(filled, requiredCount)[s]
        decreases |remaining|
      {
        var s :| s in remaining;
        var count := requiredCount - |filled[s]|;
        if count < 0 {
          count := 0;
        }
        missing := missing[s := count];
        remaining := remaining - {s};
      }
    }
  }

  lemma SubsetCount(a: set<String>, b: set<String>)
    requires a <= b
    ensures |a| <= |b|
  {
    assert b == a + (b - a);
  }

  /** Since filled labels are required and a listed service has at least one, the count is exact and below the number of required labels. */
  lemma MissingExact(cs: seq<CleanValue>, required: set<String>, filterable: map<String, String>, s: String)
    requires |required| > 0 && s in ScanOf(cs, required, filterable).filled
    ensures s in MissingOf(ScanOf(cs, required, filterable).filled, |required|)
    ensures MissingOf(ScanOf(cs, required, filterable).filled, |required|)[s] ==
              |required| - |ScanOf(cs, required, filterable).filled[s]|
    ensures 0 <= MissingOf(ScanOf(cs, required, filterable).filled, |required|)[s] < |required|
  {
    ScanShape(cs, required, filterable, s);
    SubsetCount(ScanOf(cs, required, filterable).filled[s], required);
  }

  // ---------------------------------------------------------------------------
  // loadMetadataFilterData: the option list and the tag strings

  /** The label recorded for a tag, "" when there is none (a Go map read). */
  function LabelOf(tagLabels: map<String, String>, t: String): String
  {
    if t in tagLabels then tagLabels[t] else ""
  }

  /** The option list: "all" first, then every tag in ascending order with its label. */
  ghost function OptionsOf(tagLabels: map<String, String>): seq<FilterOption>
  {
    [FilterOption("all", "All metadata tags")] + TagOptions(SortedSet(tagLabels.Keys), tagLabels)
  }

  /** One option per tag, in order. */
  function TagOptions(tags: seq<String>, tagLabels: map<String, String>): (options: seq<FilterOption>)
    ensures |options| == |tags|
  {
    if tags == [] then [] else TagOptions(tags[..|tags| - 1], tagLabels) + [FilterOption(tags[|tags| - 1], LabelOf(tagLabels, tags[|tags| - 1]))]
  }

  lemma {:induction false} TagOptionsAt(tags: seq<String>, tagLabels: map<String, String>, i: int)
    requires 0 <= i < |tags|
    ensures TagOptions(tags, tagLabels)[i] == FilterOption(tags[i], LabelOf(tagLabels, tags[i]))
  {
    if i < |tags| - 1 {
      TagOptionsAt(tags[..|tags| - 1], tagLabels, i);
    }
  }

  method BuildOptions(tagLabels: map<String, String>) returns (options: seq<FilterOption>)
    ensures options == OptionsOf(tagLabels)
  {
    options := [FilterOption("all", "All metadata tags")];
    var tagKeys := SortedMembers(tagLabels.Keys);
    var i := 0;
    while i < |tagKeys|
      invariant 0 <= i <= |tagKeys|
      invariant options == [FilterOption("all", "All metadata tags")] + TagOptions(tagKeys[..i], tagLabels)
    {
      assert tagKeys[..i + 1][..i] == tagKeys[..i];
      var display := if tagKeys[i] in tagLabels then tagLabels[tagKeys[i]] else "";
      options := options + [FilterOption(tagKeys[i], display)];
      i := i + 1;
    }
    assert tagKeys[..i] == tagKeys;
  }

  /** Option `i + 1` is the `i`-th tag in ascending order, with its label. */
  lemma OptionAt(tagLabels: map<String, String>, i: int)
    requires 0 <= i < |tagLabels|
    ensures |SortedSet(tagLabels.Keys)| == |tagLabels| && SortedSet(tagLabels.Keys)[i] in tagLabels
    ensures |OptionsOf(tagLabels)| == |tagLabels| + 1
    ensures OptionsOf(tagLabels)[i + 1] ==
              FilterOption(SortedSet(tagLabels.Keys)[i], tagLabels[SortedSet(tagLabels.Keys)[i]])
  {
    SortedSetShape(tagLabels.Keys);
    assert |tagLabels.Keys| == |tagLabels|;
    TagOptionsAt(SortedSet(tagLabels.Keys), tagLabels, i);
  }

  /** The option list starts with "all", then lists the tags in strictly ascending order. */
  lemma OptionsOrder(tagLabels: map<String, String>)
    ensures |OptionsOf(tagLabels)| == |tagLabels| + 1
    ensures OptionsOf(tagLabels)[0] == FilterOption("all", "All metadata tags")
    ensures forall i, j :: 1 <= i < j < |OptionsOf(tagLabels)| ==>
              Less(OptionsOf(tagLabels)[i].value, OptionsOf(tagLabels)[j].value)
  {
    SortedSetShape(tagLabels.Keys);
    assert |tagLabels.Keys| == |tagLabels|;
    forall i, j | 1 <= i < j < |OptionsOf(tagLabels)|
      ensures Less(OptionsOf(tagLabels)[i].value, OptionsOf(tagLabels)[j].value)
    {
      OptionAt(tagLabels, i - 1);
      OptionAt(tagLabels, j - 1);
    }
  }

  /** Every option after the first is a recorded tag with its label. */
  lemma OptionIsTag(tagLabels: map<String, String>, i: int)
    requires 1 <= i < |OptionsOf(tagLabels)|
    ensures OptionsOf(tagLabels)[i].value in tagLabels
    ensures OptionsOf(tagLabels)[i].fieldLabel == tagLabels[OptionsOf(tagLabels)[i].value]
  {
    SortedSetShape(tagLabels.Keys);
    assert |tagLabels.Keys| == |tagLabels|;
    OptionAt(tagLabels, i - 1);
  }

  /** Every recorded tag has an option after the first, with its label. */
  lemma OptionForTag(tagLabels: map<String, String>, t: String) returns (i: int)
    requires t in tagLabels
    ensures 1 <= i < |OptionsOf(tagLabels)| && OptionsOf(tagLabels)[i] == FilterOption(t, tagLabels[t])
  {
    SortedSetShape(tagLabels.Keys);
    var tags := SortedSet(tagLabels.Keys);
    var k :| 0 <= k < |tags| && tags[k] == t;
    OptionAt(tagLabels, k);
    i := k + 1;
  }

  /** A service's tag string: its tags in ascending order, each followed and preceded by a bar. */
  ghost function TagString(tags: set<String>): String
  {
    "|" + Join(SortedSet(tags), '|') + "|"
  }

  /** `|tag|` occurs in the tag string of every tag of the set. */
  lemma TagStringHas(tags: set<String>, t: String)
    requires t in tags
    ensures Contains(TagString(tags), "|" + t + "|")
  {
    var sorted := SortedSet(tags);
    SortedSetShape(tags);
    var k :| 0 <= k < |sorted| && sorted[k] == t;
    var a, b := JoinInfix(sorted, k, '|');
    ContainsInfix(a, "|" + t + "|", b);
  }

  /** `normalizedTags`: the tag string of every tagged service. */
  ghost function TagStringsOf(tags: map<String, set<String>>): map<String, String>
  {
    map s | s in tags :: TagString(tags[s])
  }

  method NormalizeTags(tags: map<String, set<String>>) returns (normalized: map<String, String>)
    ensures normalized == TagStringsOf(tags)
  {
    normalized := map[];
    var remaining := tags.Keys;
    while remaining != {}
      invariant remaining <= tags.Keys
      invariant normalized.Keys == tags.Keys - remaining
      invariant forall s :: s in normalized ==> normalized[s] == TagString(tags[s])
      decreases |remaining|
    {
      var s :| s in remaining;
      var keys := SortedMembers(tags[s]);
      normalized := normalized[s := "|" + Join(keys, '|') + "|"];
      remaining := remaining - {s};
    }
  }

  // ---------------------------------------------------------------------------
  // loadMetadataFilterData

  /** The filter data of an organization, from its required fields and its stored metadata values. */
  ghost function FilterDataOf(requiredRows: seq<RequiredField>, metadataRows: seq<ServiceMetadataValue>): MetadataFilterData
  {
    var keys := FieldKeys(requiredRows);
    var required := RequiredOf(keys);
    var scan := ScanOf(CleanAll(metadataRows), required, FilterableOf(keys, requiredRows));
    MetadataFilterData(OptionsOf(scan.tagLabels), MissingOf(scan.filled, |required|), TagStringsOf(scan.tags))
  }

  /**
   * loadMetadataFilterData, given the results of the two store reads: a failed read is
   * returned as it is, and the second read only matters once the first succeeded.
   */
  method LoadMetadataFilterData(requiredRows: Result<seq<RequiredField>, StoreError>,
                                metadataRows: Result<seq<ServiceMetadataValue>, StoreError>)
    returns (r: Result<MetadataFilterData, StoreError>)
    ensures requiredRows.Err? ==> r == Err(requiredRows.error)
    ensures requiredRows.Ok? && metadataRows.Err? ==> r == Err(metadataRows.error)
    ensures requiredRows.Ok? && metadataRows.Ok? ==> r == Ok(FilterDataOf(requiredRows.value, metadataRows.value))
  {
    if requiredRows.Err? {
      return Err(requiredRows.error);
    }
    var required, filterable := IndexRequiredFields(requiredRows.value);
    if metadataRows.Err? {
      return Err(metadataRows.error);
    }
    var filled, tags, tagLabels := ScanMetadataValues(metadataRows.value, required, filterable);
    var missing := CountMissing(filled, |required|);
    var options := BuildOptions(tagLabels);
    var normalized := NormalizeTags(tags);
    r := Ok(MetadataFilterData(options, missing, normalized));
  }

  lemma BetweenBars(a: String, b: String)
    ensures "|" + (a + ":" + b) + "|" == "|" + a + ":" + b + "|"
  {
  }

  /** FilterDataOf in terms of the scan. */
  lemma FilterDataParts(requiredRows: seq<RequiredField>, metadataRows: seq<ServiceMetadataValue>)
    ensures FilterDataOf(requiredRows, metadataRows).tagsByService ==
              TagStringsOf(ScanOf(CleanAll(metadataRows), RequiredOf(FieldKeys(requiredRows)),
                                  FilterableOf(FieldKeys(requiredRows), requiredRows)).tags)
    ensures FilterDataOf(requiredRows, metadataRows).missingByService ==
              MissingOf(ScanOf(CleanAll(metadataRows), RequiredOf(FieldKeys(requiredRows)),
                               FilterableOf(FieldKeys(requiredRows), requiredRows)).filled, |RequiredOf(FieldKeys(requiredRows))|)
    ensures FilterDataOf(requiredRows, metadataRows).options ==
              OptionsOf(ScanOf(CleanAll(metadataRows), RequiredOf(FieldKeys(requiredRows)),
                               FilterableOf(FieldKeys(requiredRows), requiredRows)).tagLabels)
  {
  }

  /** The tag string of a service holds, between bars, every tag one of its rows produced. */
  lemma ScanTagString(cs: seq<CleanValue>, required: set<String>, filterable: map<String, String>, i: int)
    requires 0 <= i < |cs| && Tags(cs[i], required, filterable)
    ensures cs[i].service in TagStringsOf(ScanOf(cs, required, filterable).tags)
    ensures Contains(TagStringsOf(ScanOf(cs, required, filterable).tags)[cs[i].service], "|" + cs[i].tag + "|")
  {
    ScanTagsHas(cs, required, filterable, i);
    var tags := ScanOf(cs, required, filterable).tags;
    TagStringHas(tags[cs[i].service], cs[i].tag);
  }

  /**
   * A stored value of a filterable required label, with a service name and a value that are
   * not blank, puts "label:value" (lower-cased, between bars) into its service's tag string.
   */
  lemma FilterDataTags(requiredRows: seq<RequiredField>, metadataRows: seq<ServiceMetadataValue>, i: int)
    requires 0 <= i < |metadataRows|
    requires Key(metadataRows[i].serviceName) != [] && TrimSpace(metadataRows[i].value) != []
    requires Key(metadataRows[i].fieldLabel) in FilterableOf(FieldKeys(requiredRows), requiredRows)
    ensures Key(metadataRows[i].serviceName) in FilterDataOf(requiredRows, metadataRows).tagsByService
    ensures Contains(FilterDataOf(requiredRows, metadataRows).tagsByService[Key(metadataRows[i].serviceName)],
                     "|" + Key(metadataRows[i].fieldLabel) + ":" + ToLower(TrimSpace(metadataRows[i].value)) + "|")
  {
    var keys := FieldKeys(requiredRows);
    var required := RequiredOf(keys);
    var filterable := FilterableOf(keys, requiredRows);
    var cs := CleanAll(metadataRows);
    var fieldKey := Key(metadataRows[i].fieldLabel);
    FilterDataParts(requiredRows, metadataRows);
    FilterableOfMembers(keys, requiredRows, fieldKey);
    FilterableRequired(keys, requiredRows, fieldKey);
    CleanAllAt(metadataRows, i);
    assert cs[i].key == fieldKey && fieldKey != [] && cs[i].value == TrimSpace(metadataRows[i].value);
    CleanedTag(metadataRows[i]);
    assert Tags(cs[i], required, filterable);
    ScanTagString(cs, required, filterable, i);
    var needle := "|" + fieldKey + ":" + ToLower(TrimSpace(metadataRows[i].value)) + "|";
    assert cs[i].tag == fieldKey + ":" + ToLower(TrimSpace(metadataRows[i].value));
    BetweenBars(fieldKey, ToLower(TrimSpace(metadataRows[i].value)));
    var tagStrings := TagStringsOf(ScanOf(cs, required, filterable).tags);
    assert cs[i].service == Key(metadataRows[i].serviceName);
    assert FilterDataOf(requiredRows, metadataRows).tagsByService == tagStrings;
    assert Contains(tagStrings[cs[i].service], needle);
  }

  // ---------------------------------------------------------------------------
  // applyMetadataToServices, applyMetadataToDeployments, mapRequiredFields

  /** A Go map read of an int: 0 when the key is absent. */
  function CountOf(m: map<String, int>, k: String): int
  {
    if k in m then m[k] else 0
  }

  /** A Go map read of a string: "" when the key is absent. */
  function TextOf(m: map<String, String>, k: String): String
  {
    if k in m then m[k] else ""
  }

  /** The trimmed, lower-cased title of every service. */
  function TitleKeys(services: seq<Service>): (keys: seq<String>)
    ensures |keys| == |services|
  {
    if services == [] then [] else TitleKeys(services[..|services| - 1]) + [Key(services[|services| - 1].title)]
  }

  lemma {:induction false} TitleKeysAt(services: seq<Service>, i: int)
    requires 0 <= i < |services|
    ensures TitleKeys(services)[i] == Key(services[i].title)
  {
    if i < |services| - 1 {
      TitleKeysAt(services[..|services| - 1], i);
    }
  }

  /** One service with the count and the tag string found under `key`. */
  function WithMetadata(service: Service, key: String, data: MetadataFilterData): Service
  {
    service.(missingMetadata := CountOf(data.missingByService, key), metadataTags := TextOf(data.tagsByService, key))
  }

  method TitleKeysOf(services: seq<Service>) returns (keys: seq<String>)
    ensures keys == TitleKeys(services)
  {
    keys := [];
    var i := 0;
    while i < |services|
      invariant 0 <= i <= |services| && keys == TitleKeys(services[..i])
    {
      assert services[..i + 1][..i] == services[..i];
      keys := keys + [Key(services[i].title)];
      i := i + 1;
    }
    assert services[..i] == services;
  }

  /**
   * applyMetadataToServices: sets every service's missing-metadata count and tag string
   * from the entry under its trimmed, lower-cased title (the keys are computed first).
   */
  method ApplyMetadataToServices(services: array<Service>, data: MetadataFilterData)
    modifies services
    ensures forall i :: 0 <= i < services.Length ==>
              services[i] == WithMetadata(old(services[i]), TitleKeys(old(services[..]))[i], data)
  {
    var keys := TitleKeysOf(services[..]);
    ApplyMetadataByKey(services, keys, data);
  }

  method ApplyMetadataByKey(services: array<Service>, keys: seq<String>, data: MetadataFilterData)
    modifies services
    requires |keys| == services.Length
    ensures forall i :: 0 <= i < |keys| ==> services[i] == WithMetadata(old(services[i]), keys[i], data)
  {
    var i := 0;
    while i < services.Length
      invariant 0 <= i <= |keys|
      invariant forall j :: 0 <= j < i ==> services[j] == WithMetadata(old(services[j]), keys[j], data)
      invariant forall j :: i <= j < |keys| ==> services[j] == old(services[j])
    {
      var missing := if keys[i] in data.missingByService then data.missingByService[keys[i]] else 0;
      var tags := if keys[i] in data.tagsByService then data.tagsByService[keys[i]] else "";
      services[i] := services[i].(missingMetadata := missing, metadataTags := tags);
      i := i + 1;
    }
  }

  /** The trimmed, lower-cased service name of every deployment row. */
  function ServiceKeys(rows: seq<DeploymentRow>): (keys: seq<String>)
    ensures |keys| == |rows|
  {
    if rows == [] then [] else ServiceKeys(rows[..|rows| - 1]) + [Key(rows[|rows| - 1].service)]
  }

  lemma {:induction false} ServiceKeysAt(rows: seq<DeploymentRow>, i: int)
    requires 0 <= i < |rows|
    ensures ServiceKeys(rows)[i] == Key(rows[i].service)
  {
    if i < |rows| - 1 {
      ServiceKeysAt(rows[..|rows| - 1], i);
    }
  }

  method ServiceKeysOf(rows: seq<DeploymentRow>) returns (keys: seq<String>)
    ensures keys == ServiceKeys(rows)
  {
    keys := [];
    var i := 0;
    while i < |rows|
      invariant 0 <= i <= |rows| && keys == ServiceKeys(rows[..i])
    {
      assert rows[..i + 1][..i] == rows[..i];
      keys := keys + [Key(rows[i].service)];
      i := i + 1;
    }
    assert rows[..i] == rows;
  }

  /**
   * applyMetadataToDeployments: sets every deployment row's tag string from the entry
   * under its trimmed, lower-cased service name (the keys are computed first).
   */
  method ApplyMetadataToDeployments(rows: array<DeploymentRow>, data: MetadataFilterData)
    modifies rows
    ensures forall i :: 0 <= i < rows.Length ==>
              rows[i] == old(rows[i]).(metadataTags := TextOf(data.tagsByService, ServiceKeys(old(rows[..]))[i]))
  {
    var keys := ServiceKeysOf(rows[..]);
    ApplyTagsByKey(rows, keys, data);
  }

  method ApplyTagsByKey(rows: array<DeploymentRow>, keys: seq<String>, data: MetadataFilterData)
    modifies rows
    requires |keys| == rows.Length
    ensures forall i :: 0 <= i < |keys| ==> rows[i] == old(rows[i]).(metadataTags := TextOf(data.tagsByService, keys[i]))
  {
    var i := 0;
    while i < rows.Length
      invariant 0 <= i <= |keys|
      invariant forall j :: 0 <= j < i ==> rows[j] == old(rows[j]).(metadataTags := TextOf(data.tagsByService, keys[j]))
      invariant forall j :: i <= j < |keys| ==> rows[j] == old(rows[j])
    {
      var tags := if keys[i] in data.tagsByService then data.tagsByService[keys[i]] else "";
      rows[i] := rows[i].(metadataTags := tags);
      i := i + 1;
    }
  }

  /** A service no stored value fills keeps the count 0 and the empty tag string (Go's zero values). */
  lemma UnlistedServiceDefaults(data: MetadataFilterData, s: String)
    requires s !in data.missingByService && s !in data.tagsByService
    ensures CountOf(data.missingByService, s) == 0 && TextOf(data.tagsByService, s) == ""
  {
  }

  /** Every missing count is below the number of required labels, and there are none when nothing is required. */
  lemma FilterDataMissing(requiredRows: seq<RequiredField>, metadataRows: seq<ServiceMetadataValue>, s: String)
    requires s in FilterDataOf(requiredRows, metadataRows).missingByService
    ensures 0 <= FilterDataOf(requiredRows, metadataRows).missingByService[s] < |RequiredOf(FieldKeys(requiredRows))|
  {
    var keys := FieldKeys(requiredRows);
    var required := RequiredOf(keys);
    FilterDataParts(requiredRows, metadataRows);
    MissingExact(CleanAll(metadataRows), required, FilterableOf(keys, requiredRows), s);
  }

  /** mapRequiredFields: every required field, in order, with the value "Missing". */
  method MapRequiredFields(rows: seq<RequiredField>) returns (fields: seq<MetadataField>)
    ensures |fields| == |rows|
    ensures forall i :: 0 <= i < |rows| ==> fields[i] == MetadataField(rows[i].fieldLabel, "Missing", rows[i].filterable)
  {
    fields := [];
    var i := 0;
    while i < |rows|
      invariant 0 <= i <= |rows| && |fields| == i
      invariant forall j :: 0 <= j < i ==> fields[j] == MetadataField(rows[j].fieldLabel, "Missing", rows[j].filterable)
    {
      fields := fields + [MetadataField(rows[i].fieldLabel, "Missing", rows[i].filterable)];
      i := i + 1;
    }
  }
}
