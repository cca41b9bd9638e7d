/**
 * The read side of the service views (internal/app/services/service_read.go): the environment
 * priority order of a service's environments, the change-log enrichment of its deployment
 * history, and the metadata fields of the service detail page with their missing count.
 *
 * The store reads that feed these are their results. Timestamps and the float-formatted rates
 * are not modelled.
 */
module ServiceRead {
  import opened Wrappers
  import opened GoStrings
  import opened Sorting

  datatype DeploymentRecord = DeploymentRecord(ref: String, previousRef: String, changeLog: ChangeLog, commits: int,
                                               deployedAt: String, environment: String, deployedAgo: String)

  datatype ServiceEnvironment = ServiceEnvironment(name: String, lastDeploy: String, lastDeployedAgo: String, ref: String,
                                                   deployCount7d: int, deployCount30d: int, dailyRate30d: String)

  /** The key environments are grouped and ranked by: lower-cased and trimmed. */
  function EnvKey(name: String): String
  {
    ToLower(TrimSpace(name))
  }

  // ---------------------------------------------------------------------------
  // normalizeEnvironmentOrderInput

  /** Every value trimmed. */
  function TrimAll(values: seq<String>): (r: seq<String>)
    ensures |r| == |values|
  {
    if values == [] then [] else TrimAll(values[..|values| - 1]) + [TrimSpace(values[|values| - 1])]
  }

  lemma {:induction false} TrimAllAt(values: seq<String>, i: int)
    requires 0 <= i < |values|
    ensures TrimAll(values)[i] == TrimSpace(values[i])
  {
    if i < |values| - 1 {
      TrimAllAt(values[..|values| - 1], i);
    }
  }

  /** Every value lower-cased. */
  function Lowered(s: seq<String>): (r: seq<String>)
    ensures |r| == |s|
    ensures forall i :: 0 <= i < |s| ==> r[i] == ToLower(s[i])
  {
    if s == [] then [] else Lowered(s[..|s| - 1]) + [ToLower(s[|s| - 1])]
  }

  /** The values kept so far and their keys, the keys being what `seen` holds. */
  datatype Kept = Kept(values: seq<String>, keys: seq<String>)

  /**
   * The first-occurrence filter over trimmed values `ts` with keys `ks`: a value is kept when
   * it is not empty and no kept value has its key.
   */
  function Dedup(ts: seq<String>, ks: seq<String>): (r: Kept)
    requires |ts| == |ks|
    ensures |r.values| == |r.keys| <= |ts|
  {
    if ts == [] then Kept([], [])
    else
      var n := |ts|;
      var acc := Dedup(ts[..n - 1], ks[..n - 1]);
      if ts[n - 1] == [] || ks[n - 1] in acc.keys then acc
      else Kept(acc.values + [ts[n - 1]], acc.keys + [ks[n - 1]])
  }

  /**
   * The list normalizeEnvironmentOrderInput returns for `values`: each value trimmed, blanks
   * dropped, and a value kept only when no earlier kept value has the same lower-cased form.
   */
  function NormalizedOrder(values: seq<String>): seq<String>
  {
    var ts := TrimAll(values);
    Dedup(ts, Lowered(ts)).values
  }

  /** Non-blank, trimmed, and no two elements equal ignoring case. */
  predicate Normalized(s: seq<String>)
  {
    (forall k :: 0 <= k < |s| ==> s[k] != [] && TrimmedBy(s[k], Spaces)) &&
    (forall i, j :: 0 <= i < j < |s| ==> ToLower(s[i]) != ToLower(s[j]))
  }

  method NormalizeEnvironmentOrderInput(values: seq<String>) returns (result: seq<String>)
    ensures result == NormalizedOrder(values)
  {
    ghost var ts := TrimAll(values);
    ghost var ks := Lowered(ts);
    var seen: set<String> := {};
    result := [];
    var i := 0;
    while i < |values|
      invariant 0 <= i <= |values|
      invariant result == Dedup(ts[..i], ks[..i]).values
      invariant forall k :: k in seen <==> k in Dedup(ts[..i], ks[..i]).keys
    {
      DedupStep(ts, ks, i);
      var value := TrimSpace(values[i]);
      TrimAllAt(values, i);
      if value != [] {
        var key := ToLower(value);
        assert key == ks[i];
        if key !in seen {
          ghost var keys := Dedup(ts[..i], ks[..i]).keys;
          assert forall k :: k in keys + [key] <==> k in keys || k == key;
          seen := seen + {key};
          result := result + [value];
        }
      }
      i := i + 1;
    }
    assert ts[..i] == ts && ks[..i] == ks;
  }

  /** One more input value: the filter's step. */
  lemma DedupStep(ts: seq<String>, ks: seq<String>, i: int)
    requires |ts| == |ks| && 0 <= i < |ts|
    ensures var acc := Dedup(ts[..i], ks[..i]);
            Dedup(ts[..i + 1], ks[..i + 1])
            == if ts[i] == [] || ks[i] in acc.keys then acc else Kept(acc.values + [ts[i]], acc.keys + [ks[i]])
  {
    assert ts[..i + 1][..i] == ts[..i] && ks[..i + 1][..i] == ks[..i];
  }

  /** The index of the input that kept element `p` comes from. */
  function SourceIndex(ts: seq<String>, ks: seq<String>, p: int): (j: nat)
    requires |ts| == |ks| && 0 <= p < |Dedup(ts, ks).values|
    ensures j < |ts| && ts[j] != [] && Dedup(ts, ks).values[p] == ts[j] && Dedup(ts, ks).keys[p] == ks[j]
  {
    var n := |ts|;
    var acc := Dedup(ts[..n - 1], ks[..n - 1]);
    if p < |acc.values| then
      var j := SourceIndex(ts[..n - 1], ks[..n - 1], p);
      assert ts[..n - 1][j] == ts[j] && ks[..n - 1][j] == ks[j];
      j
    else n - 1
  }

  lemma {:induction false} DedupDistinct(ts: seq<String>, ks: seq<String>)
    requires |ts| == |ks|
    ensures forall p, q :: 0 <= p < q < |Dedup(ts, ks).keys| ==> Dedup(ts, ks).keys[p] != Dedup(ts, ks).keys[q]
  {
    if ts != [] {
      var n := |ts|;
      DedupDistinct(ts[..n - 1], ks[..n - 1]);
      var acc := Dedup(ts[..n - 1], ks[..n - 1]);
      if !(ts[n - 1] == [] || ks[n - 1] in acc.keys) {
        var keys := acc.keys + [ks[n - 1]];
        forall p, q | 0 <= p < q < |keys| ensures keys[p] != keys[q] {
          assert keys[p] == acc.keys[p];
          if q < |acc.keys| {
            assert keys[q] == acc.keys[q];
          } else {
            assert acc.keys[p] in acc.keys;
          }
        }
      }
    }
  }

  lemma {:induction false} DedupCovers(ts: seq<String>, ks: seq<String>, j: int)
    requires |ts| == |ks| && 0 <= j < |ts| && ts[j] != []
    ensures ks[j] in Dedup(ts, ks).keys
  {
    var n := |ts|;
    if j < n - 1 {
      assert ts[..n - 1][j] == ts[j] && ks[..n - 1][j] == ks[j];
      DedupCovers(ts[..n - 1], ks[..n - 1], j);
    }
  }

  lemma {:induction false} DedupKeepsDistinct(ts: seq<String>, ks: seq<String>)
    requires |ts| == |ks|
    requires forall p :: 0 <= p < |ts| ==> ts[p] != []
    requires forall p, q :: 0 <= p < q < |ks| ==> ks[p] != ks[q]
    ensures Dedup(ts, ks) == Kept(ts, ks)
  {
    if ts != [] {
      var n := |ts|;
      DedupKeepsDistinct(ts[..n - 1], ks[..n - 1]);
      assert ts[..n - 1] + [ts[n - 1]] == ts;
      assert ks[..n - 1] + [ks[n - 1]] == ks;
    }
  }

  /** The keys kept are the lower-cased kept values. */
  lemma KeptKeysLowered(values: seq<String>)
    ensures var ts := TrimAll(values);
            Dedup(ts, Lowered(ts)).keys == Lowered(Dedup(ts, Lowered(ts)).values)
  {
    var ts := TrimAll(values);
    var ks := Lowered(ts);
    var kept := Dedup(ts, ks);
    forall p | 0 <= p < |kept.keys| ensures kept.keys[p] == ToLower(kept.values[p]) {
      var j := SourceIndex(ts, ks, p);
    }
  }

  /** The normalized list is normalized. */
  lemma NormalizedOrderNormalized(values: seq<String>)
    ensures Normalized(NormalizedOrder(values))
  {
    var ts := TrimAll(values);
    var ks := Lowered(ts);
    var kept := Dedup(ts, ks);
    var r := kept.values;
    forall k | 0 <= k < |r| ensures r[k] != [] && TrimmedBy(r[k], Spaces) {
      var j := SourceIndex(ts, ks, k);
      TrimAllAt(values, j);
    }
    DedupDistinct(ts, ks);
    KeptKeysLowered(values);
    forall i, j | 0 <= i < j < |r| ensures ToLower(r[i]) != ToLower(r[j]) {
      assert kept.keys[i] != kept.keys[j];
    }
  }

  /** Every kept value is the trimmed form of an input value. */
  lemma NormalizedOrderFromInput(values: seq<String>, k: int)
    requires 0 <= k < |NormalizedOrder(values)|
    ensures exists j :: 0 <= j < |values| && NormalizedOrder(values)[k] == TrimSpace(values[j])
  {
    var ts := TrimAll(values);
    var j := SourceIndex(ts, Lowered(ts), k);
    TrimAllAt(values, j);
    assert NormalizedOrder(values)[k] == TrimSpace(values[j]);
  }

  /** Every non-blank input value is represented, ignoring case. */
  lemma NormalizedOrderCovers(values: seq<String>, j: int)
    requires 0 <= j < |values| && !IsBlank(values[j])
    ensures ToLower(TrimSpace(values[j])) in Lowered(NormalizedOrder(values))
  {
    var ts := TrimAll(values);
    TrimAllAt(values, j);
    DedupCovers(ts, Lowered(ts), j);
    KeptKeysLowered(values);
  }

  /** A list that is already normalized is left as it is. */
  lemma NormalizedOrderOfNormalized(s: seq<String>)
    requires Normalized(s)
    ensures NormalizedOrder(s) == s
  {
    forall i | 0 <= i < |s| ensures TrimAll(s)[i] == s[i] {
      TrimAllAt(s, i);
    }
    assert TrimAll(s) == s;
    var ks := Lowered(s);
    assert forall p, q :: 0 <= p < q < |ks| ==> ks[p] != ks[q];
    DedupKeepsDistinct(s, Lowered(s));
  }

  lemma NormalizedOrderIdempotent(values: seq<String>)
    ensures NormalizedOrder(NormalizedOrder(values)) == NormalizedOrder(values)
  {
    NormalizedOrderNormalized(values);
    NormalizedOrderOfNormalized(NormalizedOrder(values));
  }

  // ---------------------------------------------------------------------------
  // applyEnvironmentPriorityOrder

  /** priority: each name's lower-cased form mapped to its index in `names`. */
  function Ranks(names: seq<String>): (m: map<String, int>)
    ensures forall k :: k in m <==> k in Lowered(names)
  {
    if names == [] then map[]
    else
      var n := |names|;
      Ranks(names[..n - 1])[ToLower(names[n - 1]) := n - 1]
  }

  /** In a normalized list each name's rank is its position. */
  lemma {:induction false} RanksOfNormalized(names: seq<String>, k: int)
    requires Normalized(names) && 0 <= k < |names|
    ensures Ranks(names)[ToLower(names[k])] == k
  {
    var n := |names|;
    if k < n - 1 {
      assert Normalized(names[..n - 1]);
      assert names[..n - 1][k] == names[k];
      RanksOfNormalized(names[..n - 1], k);
    }
  }

  /** The sort.SliceStable comparator on the keys of two environments. */
  predicate KeyLess(priority: map<String, int>, left: String, right: String)
  {
    if left in priority && right in priority then
      if priority[left] != priority[right] then priority[left] < priority[right] else Less(left, right)
    else if left in priority then true
    else if right in priority then false
    else Less(left, right)
  }

  function EnvLess(priority: map<String, int>): (ServiceEnvironment, ServiceEnvironment) -> bool
  {
    (a: ServiceEnvironment, b: ServiceEnvironment) => KeyLess(priority, EnvKey(a.name), EnvKey(b.name))
  }

  lemma KeyLessIrreflexive(priority: map<String, int>, x: String)
    ensures !KeyLess(priority, x, x)
  {
    LessIrreflexive(x);
  }

  lemma KeyLessTransitive(priority: map<String, int>, x: String, y: String, z: String)
    requires KeyLess(priority, x, y) && KeyLess(priority, y, z)
    ensures KeyLess(priority, x, z)
  {
    if x in priority && y in priority && z in priority {
      if priority[x] == priority[y] && priority[y] == priority[z] {
        LessTransitive(x, y, z);
      }
    } else if x !in priority && y !in priority && z !in priority {
      LessTransitive(x, y, z);
    }
  }

  lemma KeyLessTotal(priority: map<String, int>, x: String, y: String)
    ensures x == y || KeyLess(priority, x, y) || KeyLess(priority, y, x)
  {
    LessTotal(x, y);
  }

  /** The comparator is a strict weak order, and two environments tie exactly when their keys are equal. */
  lemma EnvLessOrder(priority: map<String, int>)
    ensures StrictWeakOrder(EnvLess(priority))
    ensures forall a, b :: Equiv(EnvLess(priority), a, b) <==> EnvKey(a.name) == EnvKey(b.name)
  {
    var less := EnvLess(priority);
    forall a ensures !less(a, a) {
      KeyLessIrreflexive(priority, EnvKey(a.name));
    }
    forall a, b, c | less(a, b) && less(b, c) ensures less(a, c) {
      KeyLessTransitive(priority, EnvKey(a.name), EnvKey(b.name), EnvKey(c.name));
    }
    forall a, b, c | !less(a, b) && !less(b, c) ensures !less(a, c) {
      var x, y, z := EnvKey(a.name), EnvKey(b.name), EnvKey(c.name);
      KeyLessTotal(priority, x, y);
      KeyLessTotal(priority, y, z);
      if KeyLess(priority, x, z) {
        if x != y && y != z {
          KeyLessTransitive(priority, z, y, x);
          KeyLessTransitive(priority, x, z, x);
          KeyLessIrreflexive(priority, x);
        }
      }
    }
    forall a, b ensures Equiv(less, a, b) <==> EnvKey(a.name) == EnvKey(b.name) {
      KeyLessTotal(priority, EnvKey(a.name), EnvKey(b.name));
      KeyLessIrreflexive(priority, EnvKey(a.name));
    }
  }

  /** The order applyEnvironmentPriorityOrder leaves the environments in. */
  function PriorityOrder(environments: seq<ServiceEnvironment>, orderedNames: seq<String>): seq<ServiceEnvironment>
  {
    StableSort(environments, EnvLess(Ranks(NormalizedOrder(orderedNames))))
  }

  /** applyEnvironmentPriorityOrder: sorts the slice in place, stably, by priority rank then name. */
  method ApplyEnvironmentPriorityOrder(environments: array<ServiceEnvironment>, orderedNames: seq<String>)
    modifies environments
    ensures environments[..] == PriorityOrder(old(environments[..]), orderedNames)
  {
    var names := NormalizeEnvironmentOrderInput(orderedNames);
    var priority := BuildPriority(names);
    var sorted := StableSort(environments[..], EnvLess(priority));
    CopyBack(environments, sorted);
  }

  /** The rank map of applyEnvironmentPriorityOrder: each lower-cased name to its position. */
  method BuildPriority(names: seq<String>) returns (priority: map<String, int>)
    ensures priority == Ranks(names)
  {
    priority := map[];
    var i := 0;
    while i < |names|
      invariant 0 <= i <= |names|
      invariant priority == Ranks(names[..i])
    {
      assert names[..i + 1][..i] == names[..i];
      priority := priority[ToLower(names[i]) := i];
      i := i + 1;
    }
    assert names[..i] == names;
  }

  /** Writes the sorted order back into the slice. */
  method CopyBack(environments: array<ServiceEnvironment>, sorted: seq<ServiceEnvironment>)
    modifies environments
    requires |sorted| == environments.Length
    ensures environments[..] == sorted
  {
    var k := 0;
    while k < environments.Length
      invariant 0 <= k <= environments.Length
      invariant environments[..k] == sorted[..k]
    {
      environments[k] := sorted[k];
      assert environments[..k + 1] == environments[..k] + [sorted[k]];
      k := k + 1;
    }
    assert environments[..] == environments[..k];
  }


  /**
   * The result is a permutation of the input, and environments tied on their key keep their
   * input order.
   */
  lemma PriorityOrderPermutation(environments: seq<ServiceEnvironment>, orderedNames: seq<String>, e: ServiceEnvironment)
    ensures multiset(PriorityOrder(environments, orderedNames)) == multiset(environments)
    ensures var less := EnvLess(Ranks(NormalizedOrder(orderedNames)));
            ClassOf(PriorityOrder(environments, orderedNames), e, less) == ClassOf(environments, e, less)
  {
    var less := EnvLess(Ranks(NormalizedOrder(orderedNames)));
    EnvLessOrder(Ranks(NormalizedOrder(orderedNames)));
    StableSortStable(environments, e, less);
  }

  /**
   * Prioritised environments come first, by rank; the others follow, by lower-cased name.
   * With `r` the result and i < j: when r[j] is prioritised so is r[i], with a rank no larger;
   * when neither is, their keys are in ascending order.
   */
  lemma PriorityOrderShape(environments: seq<ServiceEnvironment>, orderedNames: seq<String>, i: int, j: int)
    requires 0 <= i < j < |environments|
    ensures var r := PriorityOrder(environments, orderedNames);
            var priority := Ranks(NormalizedOrder(orderedNames));
            var ki, kj := EnvKey(r[i].name), EnvKey(r[j].name);
            (kj in priority ==> ki in priority && priority[ki] <= priority[kj]) &&
            (ki !in priority && kj !in priority ==> !Less(kj, ki))
  {
    var priority := Ranks(NormalizedOrder(orderedNames));
    EnvLessOrder(priority);
    StableSortSorted(environments, EnvLess(priority));
    var r := PriorityOrder(environments, orderedNames);
    assert !EnvLess(priority)(r[j], r[i]);
  }

  // ---------------------------------------------------------------------------
  // enrichReleaseChangeLogs

  /** A deployment's change log: whatever the store gave, or one of the messages enrichment writes. */
  datatype ChangeLog =
    | Stored(text: String)
    | InitialDeployment
    | InitialRelease
    | ReferenceUnavailable
    | NoReferenceChange
    | ReferenceStarted
    | UpdatedFromPrevious

  /** The text shown for a change log. */
  function ChangeLogText(c: ChangeLog): String
  {
    match c
    case Stored(text) => text
    case InitialDeployment => "Initial deployment"
    case InitialRelease => "Initial release in this environment"
    case ReferenceUnavailable => "Release reference unavailable"
    case NoReferenceChange => "No code reference change"
    case ReferenceStarted => "Reference started tracking"
    case UpdatedFromPrevious => "Updated from previous release"
  }

  /** The environment key of every row. */
  function EnvKeys(rows: seq<DeploymentRecord>): (keys: seq<String>)
    ensures |keys| == |rows|
  {
    if rows == [] then [] else EnvKeys(rows[..|rows| - 1]) + [EnvKey(rows[|rows| - 1].environment)]
  }

  lemma {:induction false} EnvKeysAt(rows: seq<DeploymentRecord>, i: int)
    requires 0 <= i < |rows|
    ensures EnvKeys(rows)[i] == EnvKey(rows[i].environment)
  {
    if i < |rows| - 1 {
      EnvKeysAt(rows[..|rows| - 1], i);
    }
  }

  /** The first index from `j` on whose key is the key at `i`. */
  function NextInEnvironment(keys: seq<String>, i: int, j: nat): (r: Option<nat>)
    requires 0 <= i < |keys|
    ensures r.Some? ==> j <= r.value < |keys| && keys[r.value] == keys[i]
    ensures forall m :: j <= m < |keys| && (r.None? || m < r.value) ==> keys[m] != keys[i]
    decreases |keys| - j
  {
    if j >= |keys| then None
    else if keys[j] == keys[i] then Some(j)
    else NextInEnvironment(keys, i, j + 1)
  }

  /** The change log of a row with trimmed reference `current` whose predecessor has trimmed reference `prev`. */
  function ChangeLogOf(current: String, prev: String): ChangeLog
  {
    if current == [] && prev == [] then ReferenceUnavailable
    else if current == prev then NoReferenceChange
    else if prev == [] then ReferenceStarted
    else UpdatedFromPrevious
  }

  /**
   * Row `i` after enrichment: rows are newest first, so its predecessor is the next row of the
   * same environment; a row with none is the environment's first release.
   */
  function Enriched(rows: seq<DeploymentRecord>, i: int): (r: DeploymentRecord)
    requires 0 <= i < |rows|
    ensures r == rows[i].(previousRef := r.previousRef, changeLog := r.changeLog)
  {
    EnrichedBy(rows, EnvKeys(rows), i)
  }

  /** Enriched, for rows whose environment keys are `keys`. */
  function EnrichedBy(rows: seq<DeploymentRecord>, keys: seq<String>, i: int): (r: DeploymentRecord)
    requires |keys| == |rows| && 0 <= i < |rows|
    ensures r == rows[i].(previousRef := r.previousRef, changeLog := r.changeLog)
  {
    var current := TrimSpace(rows[i].ref);
    match NextInEnvironment(keys, i, i + 1)
    case None => rows[i].(previousRef := [], changeLog := if current == [] then InitialDeployment else InitialRelease)
    case Some(j) =>
      var prev := TrimSpace(rows[j].ref);
      rows[i].(previousRef := prev, changeLog := ChangeLogOf(current, prev))
  }

  /** The indexes below `n` whose key is `key`, ascending. */
  function Group(keys: seq<String>, key: String, n: nat): (g: seq<nat>)
    requires n <= |keys|
    ensures forall p :: 0 <= p < |g| ==> g[p] < n && keys[g[p]] == key
    ensures forall p, q :: 0 <= p < q < |g| ==> g[p] < g[q]
  {
    if n == 0 then []
    else Group(keys, key, n - 1) + if keys[n - 1] == key then [n - 1] else []
  }

  /** Every index below `n` carrying the key is in the group. */
  lemma {:induction false} GroupComplete(keys: seq<String>, key: String, n: nat, m: int)
    requires n <= |keys| && 0 <= m < n && keys[m] == key
    ensures m in Group(keys, key, n)
  {
    if m < n - 1 {
      GroupComplete(keys, key, n - 1, m);
    }
  }

  /** The map from key to group that scanning the first `n` keys builds. */
  function GroupMap(keys: seq<String>, n: nat): (m: map<String, seq<nat>>)
    requires n <= |keys|
  {
    if n == 0 then map[]
    else
      var prev := GroupMap(keys, n - 1);
      prev[keys[n - 1] := (if keys[n - 1] in prev then prev[keys[n - 1]] else []) + [n - 1]]
  }

  /** GroupMap holds the complete group of every key it has, and no other key has a member. */
  lemma {:induction false} GroupMapAt(keys: seq<String>, n: nat, key: String)
    requires n <= |keys|
    ensures key in GroupMap(keys, n) ==> GroupMap(keys, n)[key] == Group(keys, key, n)
    ensures key !in GroupMap(keys, n) ==> Group(keys, key, n) == []
  {
    if n > 0 {
      GroupMapAt(keys, n - 1, key);
      var prev := GroupMap(keys, n - 1);
      var k := keys[n - 1];
      assert GroupMap(keys, n) == prev[k := (if k in prev then prev[k] else []) + [n - 1]];
      if k == key {
        assert Group(keys, key, n) == Group(keys, key, n - 1) + [n - 1];
      } else {
        assert Group(keys, key, n) == Group(keys, key, n - 1);
      }
    }
  }

  /** GroupMap has the key of every scanned index. */
  lemma {:induction false} GroupMapHas(keys: seq<String>, n: nat, m: int)
    requires 0 <= m < n <= |keys|
    ensures keys[m] in GroupMap(keys, n)
  {
    if m < n - 1 {
      GroupMapHas(keys, n - 1, m);
    }
  }

  /** The position of index `m` in its complete group. */
  lemma GroupIndex(keys: seq<String>, key: String, m: int) returns (q: nat)
    requires 0 <= m < |keys| && keys[m] == key
    ensures q < |Group(keys, key, |keys|)| && Group(keys, key, |keys|)[q] == m
  {
    var g := Group(keys, key, |keys|);
    GroupComplete(keys, key, |keys|, m);
    q :| 0 <= q < |g| && g[q] == m;
  }

  /** A row of the group after member `p` comes at or after member `p + 1`. */
  lemma GroupAfter(keys: seq<String>, key: String, p: int, m: int)
    requires 0 <= p < |Group(keys, key, |keys|)|
    ensures var g := Group(keys, key, |keys|);
            0 <= m < |keys| && keys[m] == key && g[p] < m ==> p + 1 < |g| && g[p + 1] <= m
  {
    var g := Group(keys, key, |keys|);
    if 0 <= m < |keys| && keys[m] == key && g[p] < m {
      var q := GroupIndex(keys, key, m);
      assert p < q;
    }
  }

  /** Consecutive members of a complete group are successive rows of the same environment. */
  lemma GroupNext(keys: seq<String>, key: String, p: int)
    requires 0 <= p < |Group(keys, key, |keys|)|
    ensures var g := Group(keys, key, |keys|);
            NextInEnvironment(keys, g[p], g[p] + 1) == (if p + 1 < |g| then Some(g[p + 1]) else None)
  {
    var g := Group(keys, key, |keys|);
    match NextInEnvironment(keys, g[p], g[p] + 1) {
      case Some(v) => GroupAfter(keys, key, p, v);
      case None =>
    }
  }

  /**
   * enrichReleaseChangeLogs: groups the row indexes by environment key, then fills in
   * PreviousRef and ChangeLog of every row from the next row of its group.
   */
  method EnrichReleaseChangeLogs(rows: array<DeploymentRecord>)
    modifies rows
    ensures forall i :: 0 <= i < rows.Length ==> rows[i] == Enriched(old(rows[..]), i)
  {
    ghost var keys := EnvKeys(rows[..]);
    var byEnv := GroupByEnvironment(rows, keys);
    forall key | key in byEnv ensures byEnv[key] == Group(keys, key, |keys|) {
      GroupMapAt(keys, |keys|, key);
    }
    forall j | 0 <= j < |keys| ensures keys[j] in byEnv {
      GroupMapHas(keys, |keys|, j);
    }
    EnrichGroups(rows, keys, byEnv);
  }

  /** The first loop of enrichReleaseChangeLogs: byEnv maps each environment key to its rows' indexes, in order. */
  method GroupByEnvironment(rows: array<DeploymentRecord>, ghost keys: seq<String>) returns (byEnv: map<String, seq<nat>>)
    requires keys == EnvKeys(rows[..])
    ensures byEnv == GroupMap(keys, |keys|)
  {
    byEnv := map[];
    var i: nat := 0;
    while i < rows.Length
      invariant i <= rows.Length
      invariant byEnv == GroupMap(keys, i)
    {
      byEnv := AddRow(rows, keys, byEnv, i);
      i := i + 1;
    }
  }

  /** One iteration of the first loop: appends row `i` to the indexes of its environment key. */
  method AddRow(rows: array<DeploymentRecord>, ghost keys: seq<String>, byEnv: map<String, seq<nat>>, i: nat)
    returns (next: map<String, seq<nat>>)
    requires i < rows.Length && keys == EnvKeys(rows[..]) && byEnv == GroupMap(keys, i)
    ensures next == GroupMap(keys, i + 1)
  {
    var env := EnvKey(rows[i].environment);
    EnvKeysAt(rows[..], i);
    var indexes := if env in byEnv then byEnv[env] else [];
    next := byEnv[env := indexes + [i]];
  }

  /** The second loop of enrichReleaseChangeLogs, over the groups in any order. */
  method EnrichGroups(rows: array<DeploymentRecord>, ghost keys: seq<String>, byEnv: map<String, seq<nat>>)
    modifies rows
    requires |keys| == rows.Length
    requires forall key :: key in byEnv ==> byEnv[key] == Group(keys, key, |keys|)
    requires forall j :: 0 <= j < |keys| ==> keys[j] in byEnv
    ensures forall i :: 0 <= i < |keys| ==> rows[i] == EnrichedBy(old(rows[..]), keys, i)
  {
    ghost var orig := rows[..];
    var remaining := byEnv.Keys;
    while remaining != {}
      invariant remaining <= byEnv.Keys
      invariant forall j :: 0 <= j < rows.Length ==>
                  rows[j] == (if keys[j] in remaining then orig[j] else EnrichedBy(orig, keys, j))
      decreases remaining
    {
      var key :| key in remaining;
      EnrichGroup(rows, orig, keys, key, byEnv[key]);
      forall j | 0 <= j < rows.Length && keys[j] == key ensures rows[j] == EnrichedBy(orig, keys, j) {
        var q := GroupIndex(keys, key, j);
      }
      remaining := remaining - {key};
    }
  }

  /** Consecutive members of a group: the explicit change log of member `p`. */
  lemma EnrichedInGroup(rows: seq<DeploymentRecord>, keys: seq<String>, key: String, p: int)
    requires |keys| == |rows| && 0 <= p < |Group(keys, key, |keys|)|
    ensures var g := Group(keys, key, |keys|);
            var current := TrimSpace(rows[g[p]].ref);
            EnrichedBy(rows, keys, g[p]) ==
              if p + 1 < |g| then
                rows[g[p]].(previousRef := TrimSpace(rows[g[p + 1]].ref),
                            changeLog := ChangeLogOf(current, TrimSpace(rows[g[p + 1]].ref)))
              else
                rows[g[p]].(previousRef := [], changeLog := if current == [] then InitialDeployment else InitialRelease)
  {
    GroupNext(keys, key, p);
  }

  /** The body of the inner loop: the new PreviousRef and ChangeLog of the member at position `p`. */
  method EnrichMember(rows: array<DeploymentRecord>, ghost orig: seq<DeploymentRecord>, ghost keys: seq<String>,
                      key: String, indexes: seq<nat>, p: int) returns (updated: DeploymentRecord)
    requires |orig| == rows.Length && |keys| == |orig|
    requires indexes == Group(keys, key, |keys|) && 0 <= p < |indexes|
    requires forall q :: p <= q < |indexes| ==> rows[indexes[q]] == orig[indexes[q]]
    ensures updated == EnrichedBy(orig, keys, indexes[p])
  {
    var idx := indexes[p];
    EnrichedInGroup(orig, keys, key, p);
    var current := TrimSpace(rows[idx].ref);
    if p + 1 >= |indexes| {
      updated := rows[idx].(previousRef := [], changeLog := if current == [] then InitialDeployment else InitialRelease);
    } else {
      var prev := TrimSpace(rows[indexes[p + 1]].ref);
      updated := rows[idx].(previousRef := prev, changeLog := ChangeLogOf(current, prev));
    }
  }

  /** The inner loop of enrichReleaseChangeLogs over the indexes of one environment. */
  method EnrichGroup(rows: array<DeploymentRecord>, ghost orig: seq<DeploymentRecord>, ghost keys: seq<String>,
                     key: String, indexes: seq<nat>)
    modifies rows
    requires |orig| == rows.Length && |keys| == |orig|
    requires indexes == Group(keys, key, |keys|)
    requires forall q :: 0 <= q < |indexes| ==> rows[indexes[q]] == orig[indexes[q]]
    ensures forall q :: 0 <= q < |indexes| ==> rows[indexes[q]] == EnrichedBy(orig, keys, indexes[q])
    ensures forall j :: 0 <= j < |keys| && keys[j] != key ==> rows[j] == old(rows[j])
  {
    var p := 0;
    while p < |indexes|
      invariant 0 <= p <= |indexes|
      invariant forall q :: 0 <= q < p ==> rows[indexes[q]] == EnrichedBy(orig, keys, indexes[q])
      invariant forall q :: p <= q < |indexes| ==> rows[indexes[q]] == orig[indexes[q]]
      invariant forall j :: 0 <= j < |keys| && keys[j] != key ==> rows[j] == old(rows[j])
    {
      EnrichStep(rows, orig, keys, key, indexes, p);
      p := p + 1;
    }
  }

  /** One iteration of the inner loop: enriches the member at position `p` of the group. */
  method EnrichStep(rows: array<DeploymentRecord>, ghost orig: seq<DeploymentRecord>, ghost keys: seq<String>,
                    key: String, indexes: seq<nat>, p: nat)
    modifies rows
    requires |orig| == rows.Length && |keys| == |orig|
    requires indexes == Group(keys, key, |keys|) && p < |indexes|
    requires forall q :: p <= q < |indexes| ==> rows[indexes[q]] == orig[indexes[q]]
    ensures forall q :: 0 <= q < |indexes| && q != p ==> rows[indexes[q]] == old(rows[indexes[q]])
    ensures rows[indexes[p]] == EnrichedBy(orig, keys, indexes[p])
    ensures forall j :: 0 <= j < |keys| && keys[j] != key ==> rows[j] == old(rows[j])
  {
    var updated := EnrichMember(rows, orig, keys, key, indexes, p);
    rows[indexes[p]] := updated;
  }

  /**
   * A row whose environment recurs in a later row takes its PreviousRef from the nearest such row,
   * and its ChangeLog compares the two trimmed references.
   */
  lemma EnrichedFromNextInEnvironment(rows: seq<DeploymentRecord>, i: int, j: int)
    requires 0 <= i < j < |rows|
    requires EnvKey(rows[j].environment) == EnvKey(rows[i].environment)
    requires forall m :: i < m < j ==> EnvKey(rows[m].environment) != EnvKey(rows[i].environment)
    ensures Enriched(rows, i).previousRef == TrimSpace(rows[j].ref)
    ensures Enriched(rows, i).changeLog == ChangeLogOf(TrimSpace(rows[i].ref), TrimSpace(rows[j].ref))
  {
    var keys := EnvKeys(rows);
    EnvKeysAt(rows, i);
    EnvKeysAt(rows, j);
    forall m | i < m < j ensures keys[m] != keys[i] {
      EnvKeysAt(rows, m);
    }
    NextInEnvironmentIs(keys, i, j);
  }

  /** The next index after `i` with its key is `j` when `j` has the key and nothing between does. */
  lemma NextInEnvironmentIs(keys: seq<String>, i: int, j: int)
    requires 0 <= i < j < |keys| && keys[j] == keys[i]
    requires forall m :: i < m < j ==> keys[m] != keys[i]
    ensures NextInEnvironment(keys, i, i + 1) == Some(j)
  {
  }

  /** The oldest row of its environment is an initial release, with no previous reference. */
  lemma LastOfEnvironmentIsInitial(rows: seq<DeploymentRecord>, i: int)
    requires 0 <= i < |rows|
    requires forall j :: i < j < |rows| ==> EnvKey(rows[j].environment) != EnvKey(rows[i].environment)
    ensures Enriched(rows, i).previousRef == []
    ensures Enriched(rows, i).changeLog == (if IsBlank(rows[i].ref) then InitialDeployment else InitialRelease)
  {
    var keys := EnvKeys(rows);
    EnvKeysAt(rows, i);
    forall m | i < m < |rows| ensures keys[m] != keys[i] {
      EnvKeysAt(rows, m);
    }
    assert NextInEnvironment(keys, i, i + 1) == None;
  }

  // ---------------------------------------------------------------------------
  // buildServiceMetadataFields and the missing count

  datatype RequiredField = RequiredField(fieldLabel: String, fieldType: String, filterable: bool)
  datatype MetadataValue = MetadataValue(fieldLabel: String, value: String)
  datatype MetadataField = MetadataField(fieldLabel: String, value: String, filterable: bool)

  /** values[key]: the trimmed value of the last row whose trimmed, lower-cased name is `key`, or "". */
  function ValueFor(existing: seq<MetadataValue>, key: String): (r: String)
    ensures TrimmedBy(r, Spaces)
  {
    if existing == [] then []
    else
      var last := existing[|existing| - 1];
      var name := TrimSpace(last.fieldLabel);
      if name != [] && ToLower(name) == key then TrimSpace(last.value)
      else ValueFor(existing[..|existing| - 1], key)
  }

  /** A name no row carries has the empty value. */
  lemma {:induction false} ValueForAbsent(existing: seq<MetadataValue>, key: String)
    requires forall k :: 0 <= k < |existing| ==> EnvKey(existing[k].fieldLabel) != key
    ensures ValueFor(existing, key) == []
  {
    if existing != [] {
      ValueForAbsent(existing[..|existing| - 1], key);
    }
  }

  /** The last row with the name gives its value. */
  lemma ValueForLast(existing: seq<MetadataValue>, row: MetadataValue)
    requires !IsBlank(row.fieldLabel)
    ensures ValueFor(existing + [row], EnvKey(row.fieldLabel)) == TrimSpace(row.value)
  {
    var s := existing + [row];
    assert s[|s| - 1] == row;
    assert TrimSpace(row.fieldLabel) != [];
  }

  /** The trimmed, non-blank required labels, in order. */
  function RequiredLabels(required: seq<RequiredField>): seq<String>
  {
    if required == [] then []
    else (if IsBlank(required[0].fieldLabel) then [] else [TrimSpace(required[0].fieldLabel)]) + RequiredLabels(required[1..])
  }

  /**
   * buildServiceMetadataFields: one field per required name that is not blank, in required
   * order, holding the value stored under that name compared ignoring case.
   */
  function BuildServiceMetadataFields(required: seq<RequiredField>, existing: seq<MetadataValue>): (r: seq<MetadataField>)
    ensures |r| == |RequiredLabels(required)|
  {
    if required == [] then []
    else
      var name := TrimSpace(required[0].fieldLabel);
      var rest := BuildServiceMetadataFields(required[1..], existing);
      if name == [] then rest
      else [MetadataField(name, TrimSpace(ValueFor(existing, ToLower(name))), false)] + rest
  }

  /** The k-th field carries the k-th required label and the value stored under it. */
  lemma {:induction false} BuildServiceMetadataFieldsAt(required: seq<RequiredField>, existing: seq<MetadataValue>, k: int)
    requires 0 <= k < |RequiredLabels(required)|
    ensures k < |BuildServiceMetadataFields(required, existing)|
    ensures BuildServiceMetadataFields(required, existing)[k]
            == MetadataField(RequiredLabels(required)[k], ValueFor(existing, ToLower(RequiredLabels(required)[k])), false)
  {
    var name := TrimSpace(required[0].fieldLabel);
    var labels := RequiredLabels(required[1..]);
    var rest := BuildServiceMetadataFields(required[1..], existing);
    if name == [] {
      assert RequiredLabels(required) == labels;
      assert BuildServiceMetadataFields(required, existing) == rest;
      BuildServiceMetadataFieldsAt(required[1..], existing, k);
    } else {
      var v := ValueFor(existing, ToLower(name));
      TrimSpaceIdempotent(v);
      assert RequiredLabels(required) == [name] + labels;
      assert BuildServiceMetadataFields(required, existing) == [MetadataField(name, TrimSpace(v), false)] + rest;
      if k > 0 {
        BuildServiceMetadataFieldsAt(required[1..], existing, k - 1);
      }
    }
  }

  /** The number of fields whose value is blank. */
  function BlankCount(fields: seq<MetadataField>): (n: nat)
    ensures n <= |fields|
  {
    if fields == [] then 0 else (if IsBlank(fields[0].value) then 1 else 0) + BlankCount(fields[1..])
  }

  /** No field is missing exactly when the count is zero. */
  lemma {:induction false} BlankCountZero(fields: seq<MetadataField>)
    ensures BlankCount(fields) == 0 <==> forall k :: 0 <= k < |fields| ==> !IsBlank(fields[k].value)
  {
    if fields != [] {
      var rest := fields[1..];
      BlankCountZero(rest);
      assert BlankCount(fields) == (if IsBlank(fields[0].value) then 1 else 0) + BlankCount(rest);
      assert forall k :: 1 <= k < |fields| ==> fields[k] == rest[k - 1];
    }
  }

  /** Every field is missing exactly when the count is the number of fields. */
  lemma {:induction false} BlankCountAll(fields: seq<MetadataField>)
    ensures BlankCount(fields) == |fields| <==> forall k :: 0 <= k < |fields| ==> IsBlank(fields[k].value)
  {
    if forall k :: 0 <= k < |fields| ==> IsBlank(fields[k].value) {
      AllBlankCount(fields);
    }
    if BlankCount(fields) == |fields| {
      forall k | 0 <= k < |fields| ensures IsBlank(fields[k].value) {
        FullCountBlank(fields, k);
      }
    }
  }

  lemma {:induction false} AllBlankCount(fields: seq<MetadataField>)
    requires forall k :: 0 <= k < |fields| ==> IsBlank(fields[k].value)
    ensures BlankCount(fields) == |fields|
  {
    if fields != [] {
      assert IsBlank(fields[0].value);
      AllBlankCount(fields[1..]);
    }
  }

  lemma {:induction false} FullCountBlank(fields: seq<MetadataField>, k: int)
    requires BlankCount(fields) == |fields|
    requires 0 <= k < |fields|
    ensures IsBlank(fields[k].value)
  {
    var rest := fields[1..];
    if k > 0 {
      assert fields[k] == rest[k - 1];
      FullCountBlank(rest, k - 1);
    }
  }

  /** GetServiceDetail's MissingMetadata: the loop counting the fields whose value is blank. */
  method MissingMetadata(fields: seq<MetadataField>) returns (n: nat)
    ensures n == BlankCount(fields)
  {
    n := 0;
    var i := 0;
    while i < |fields|
      invariant 0 <= i <= |fields|
      invariant n + BlankCount(fields[i..]) == BlankCount(fields)
    {
      assert fields[i..][1..] == fields[i + 1..];
      if TrimSpace(fields[i].value) == [] {
        n := n + 1;
      }
      i := i + 1;
    }
  }
}
