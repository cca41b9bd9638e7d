/**
 * The service catalog application service (apps/ddash/internal/application/servicecatalog/service.go)
 * and its dependency input rules (apps/ddash/internal/domains/servicecatalog/dependencies.go):
 * dependency normalisation and parsing, the lead-time summaries and report, the dependency
 * graph, and the dependency writes that delegate to the store.
 *
 * Store reads and writes are parameters: a read is its result, and a write is a function from
 * its arguments to the error it returns, so that the model can state which writes were issued.
 */
module ServiceCatalog {
  import opened Wrappers
  import opened GoStrings
  import opened Sorting
  import ServiceRead

  /** An error returned by a store call; its text is not interpreted. */
  datatype StoreError = StoreError(message: String)

  // ---------------------------------------------------------------------------
  // NormalizeDependencyInput and ParseDependencyInputs

  /** A "service depends on service" pair as the write paths receive it. */
  datatype Dependency = Dependency(service: String, dependsOn: String)

  /**
   * Both names trimmed; the pair is refused (`ok == false`) when either is blank or when the
   * two are the same name ignoring case.
   */
  function NormalizeDependencyInput(serviceName: String, dependsOn: String): (r: Option<Dependency>)
    ensures r.Some? <==> !IsBlank(serviceName) && !IsBlank(dependsOn)
                         && !EqualFold(TrimSpace(serviceName), TrimSpace(dependsOn))
    ensures r.Some? ==> r.value == Dependency(TrimSpace(serviceName), TrimSpace(dependsOn))
  {
    var service := TrimSpace(serviceName);
    var target := TrimSpace(dependsOn);
    if service == [] || target == [] then None
    else if EqualFold(service, target) then None
    else Some(Dependency(service, target))
  }

  /** An accepted pair is two trimmed, non-empty names that differ ignoring case. */
  predicate WellFormedDependency(d: Dependency)
  {
    d.service != [] && d.dependsOn != [] && TrimmedBy(d.service, Spaces) && TrimmedBy(d.dependsOn, Spaces)
    && ToLower(d.service) != ToLower(d.dependsOn)
  }

  /** Accepted pairs are well formed, and normalising an accepted pair again changes nothing. */
  lemma NormalizeDependencyInputIdempotent(serviceName: String, dependsOn: String)
    requires NormalizeDependencyInput(serviceName, dependsOn).Some?
    ensures WellFormedDependency(NormalizeDependencyInput(serviceName, dependsOn).value)
    ensures var d := NormalizeDependencyInput(serviceName, dependsOn).value;
            NormalizeDependencyInput(d.service, d.dependsOn) == Some(d)
  {
    TrimSpaceIdempotent(serviceName);
    TrimSpaceIdempotent(dependsOn);
  }

  /** A well-formed pair is accepted unchanged. */
  lemma NormalizeWellFormed(d: Dependency)
    requires WellFormedDependency(d)
    ensures NormalizeDependencyInput(d.service, d.dependsOn) == Some(d)
  {
  }

  /** The separators of a dependency list: comma, semicolon and newline. */
  const DependencySeparators: set<char> := {',', ';', '\n'}

  /** The values whose lower-cased form differs from `key`, in order. */
  function Without(values: seq<String>, key: String): (r: seq<String>)
    ensures |r| <= |values|
  {
    if values == [] then []
    else
      var rest := Without(values[..|values| - 1], key);
      var v := values[|values| - 1];
      if ToLower(v) == key then rest else rest + [v]
  }

  lemma {:induction false} WithoutMembers(values: seq<String>, key: String, v: String)
    ensures v in Without(values, key) <==> v in values && ToLower(v) != key
  {
    if values != [] {
      var init := values[..|values| - 1];
      WithoutMembers(init, key, v);
      assert values == init + [values[|values| - 1]];
    }
  }

  /** Dropping elements keeps a normalized list normalized. */
  lemma {:induction false} WithoutNormalized(values: seq<String>, key: String)
    requires ServiceRead.Normalized(values)
    ensures ServiceRead.Normalized(Without(values, key))
  {
    if values != [] {
      var init := values[..|values| - 1];
      var v := values[|values| - 1];
      assert ServiceRead.Normalized(init) by {
        assert forall k :: 0 <= k < |init| ==> init[k] == values[k];
      }
      WithoutNormalized(init, key);
      if ToLower(v) != key {
        var rest := Without(init, key);
        WithoutAvoids(init, key, v);
        NormalizedSnoc(rest, v);
      }
    }
  }

  /** No element of a filtered list shares its lower-cased form with `v` if none of the input did. */
  lemma WithoutAvoids(values: seq<String>, key: String, v: String)
    requires forall k :: 0 <= k < |values| ==> ToLower(values[k]) != ToLower(v)
    ensures forall i :: 0 <= i < |Without(values, key)| ==> ToLower(Without(values, key)[i]) != ToLower(v)
  {
    var rest := Without(values, key);
    forall i | 0 <= i < |rest| ensures ToLower(rest[i]) != ToLower(v) {
      WithoutMembers(values, key, rest[i]);
      var j :| 0 <= j < |values| && values[j] == rest[i];
    }
  }

  lemma NormalizedSnoc(s: seq<String>, v: String)
    requires ServiceRead.Normalized(s)
    requires v != [] && TrimmedBy(v, Spaces)
    requires forall i :: 0 <= i < |s| ==> ToLower(s[i]) != ToLower(v)
    ensures ServiceRead.Normalized(s + [v])
  {
  }

  /**
   * ParseDependencyInputs, whose body is not part of this model: the list split at the
   * separators, each part trimmed, blanks dropped, a part kept only when no earlier kept part
   * is the same name ignoring case, and the service itself dropped ignoring case.
   */
  function ParseDependencyInputs(serviceName: String, rawDependsOn: String): (r: seq<String>)
  {
    Without(ServiceRead.NormalizedOrder(SplitAny(rawDependsOn, DependencySeparators)), ToLower(TrimSpace(serviceName)))
  }

  /**
   * The parsed list is trimmed, non-blank and free of case-insensitive duplicates, and no
   * element names the service itself; every element is a trimmed part of the input.
   */
  lemma ParseDependencyInputsShape(serviceName: String, rawDependsOn: String)
    ensures ServiceRead.Normalized(ParseDependencyInputs(serviceName, rawDependsOn))
    ensures forall d :: d in ParseDependencyInputs(serviceName, rawDependsOn) ==>
              ToLower(d) != ToLower(TrimSpace(serviceName))
              && d in ServiceRead.NormalizedOrder(SplitAny(rawDependsOn, DependencySeparators))
  {
    var parts := SplitAny(rawDependsOn, DependencySeparators);
    var key := ToLower(TrimSpace(serviceName));
    ServiceRead.NormalizedOrderNormalized(parts);
    WithoutNormalized(ServiceRead.NormalizedOrder(parts), key);
    forall d | d in ParseDependencyInputs(serviceName, rawDependsOn)
      ensures ToLower(d) != key && d in ServiceRead.NormalizedOrder(parts)
    {
      WithoutMembers(ServiceRead.NormalizedOrder(parts), key, d);
    }
  }

  /** Every non-blank part other than the service itself is represented, ignoring case. */
  lemma ParseDependencyInputsCovers(serviceName: String, rawDependsOn: String, j: int)
    requires var parts := SplitAny(rawDependsOn, DependencySeparators);
             0 <= j < |parts| && !IsBlank(parts[j])
             && ToLower(TrimSpace(parts[j])) != ToLower(TrimSpace(serviceName))
    ensures exists d :: d in ParseDependencyInputs(serviceName, rawDependsOn)
                        && ToLower(d) == ToLower(TrimSpace(SplitAny(rawDependsOn, DependencySeparators)[j]))
  {
    var parts := SplitAny(rawDependsOn, DependencySeparators);
    var key := ToLower(TrimSpace(serviceName));
    var kept := ServiceRead.NormalizedOrder(parts);
    ServiceRead.NormalizedOrderCovers(parts, j);
    var want := ToLower(TrimSpace(parts[j]));
    var lowered := ServiceRead.Lowered(kept);
    var k :| 0 <= k < |lowered| && lowered[k] == want;
    WithoutMembers(kept, key, kept[k]);
    assert kept[k] in ParseDependencyInputs(serviceName, rawDependsOn);
  }

  // ---------------------------------------------------------------------------
  // percentile

  /**
   * The index `percentile` reads for a rank strictly between 0 and 1, written here as a whole
   * percentage: ceil(pct * n / 100) - 1, clamped to [0, n - 1].
   */
  function PercentileIndex(n: nat, pct: int): (i: int)
    requires n > 0 && 0 < pct < 100
    ensures 0 <= i < n
  {
    var idx := (pct * n + 99) / 100 - 1;
    if idx < 0 then 0 else if idx >= n then n - 1 else idx
  }

  /**
   * The nearest-rank index: the first position at which at least `pct` percent of the
   * elements lie at or before it.
   */
  lemma PercentileIndexRank(n: nat, pct: int)
    requires n > 0 && 0 < pct < 100
    ensures var i := PercentileIndex(n, pct);
            pct * n <= 100 * (i + 1) && 100 * i < pct * n
  {
    var a := pct * n;
    assert 0 < a < 100 * n;
    var c := (a + 99) / 100;
    assert 100 * c <= a + 99 < 100 * c + 100;
    assert 1 <= c <= n;
  }

  /** A larger percentage never reads an earlier index. */
  lemma PercentileIndexMonotone(n: nat, p: int, q: int)
    requires n > 0 && 0 < p <= q < 100
    ensures PercentileIndex(n, p) <= PercentileIndex(n, q)
  {
    PercentileIndexRank(n, p);
    PercentileIndexRank(n, q);
    assert p * n <= q * n;
  }

  /**
   * percentile(sorted, pct / 100): 0 for no samples, the first sample at or below 0 %, the
   * last at or above 100 %, and otherwise the sample at the nearest-rank index.
   */
  function Percentile(sorted: seq<int>, pct: int): (r: int)
    ensures sorted == [] ==> r == 0
    ensures sorted != [] ==> r in sorted
  {
    if |sorted| == 0 then 0
    else if pct <= 0 then sorted[0]
    else if pct >= 100 then sorted[|sorted| - 1]
    else sorted[PercentileIndex(|sorted|, pct)]
  }

  /** Ascending order. */
  predicate Ascending(s: seq<int>)
  {
    forall i, j :: 0 <= i <= j < |s| ==> s[i] <= s[j]
  }

  /** On sorted samples the percentile lies between the first and last sample and grows with the rank. */
  lemma PercentileMonotone(sorted: seq<int>, p: int, q: int)
    requires Ascending(sorted) && sorted != [] && p <= q
    ensures sorted[0] <= Percentile(sorted, p) <= Percentile(sorted, q) <= sorted[|sorted| - 1]
  {
    var n := |sorted|;
    if 0 < p <= q < 100 {
      PercentileIndexMonotone(n, p, q);
    }
  }

  // ---------------------------------------------------------------------------
  // summarizeLeadTimes

  /** The sum of the values, added in order. */
  function Sum(s: seq<int>): int
  {
    if s == [] then 0 else Sum(s[..|s| - 1]) + s[|s| - 1]
  }

  lemma {:induction false} SumConcat(a: seq<int>, b: seq<int>)
    ensures Sum(a + b) == Sum(a) + Sum(b)
    decreases |b|
  {
    if b == [] {
      assert a + b == a;
    } else {
      var init := b[..|b| - 1];
      SumConcat(a, init);
      assert (a + b)[..|a + b| - 1] == a + init;
    }
  }

  /** Addition does not depend on the order of the values. */
  lemma {:induction false} SumPermutation(a: seq<int>, b: seq<int>)
    requires multiset(a) == multiset(b)
    ensures Sum(a) == Sum(b)
    decreases |a|
  {
    if a != [] {
      var x := a[|a| - 1];
      var init := a[..|a| - 1];
      assert a == init + [x];
      assert x in multiset(b);
      var k :| 0 <= k < |b| && b[k] == x;
      var rest := b[..k] + b[k + 1..];
      RemoveAt(b, k);
      assert multiset(a) == multiset(init) + multiset{x};
      SumPermutation(init, rest);
      SumConcat(b[..k] + [x], b[k + 1..]);
      SumConcat(b[..k], [x]);
      SumConcat(b[..k], b[k + 1..]);
      assert Sum([x]) == x by {
        assert [x][..0] == [];
      }
    }
  }

  lemma RemoveAt(b: seq<int>, k: int)
    requires 0 <= k < |b|
    ensures b == b[..k] + [b[k]] + b[k + 1..]
    ensures multiset(b[..k] + b[k + 1..]) == multiset(b) - multiset{b[k]}
  {
    assert b == b[..k] + [b[k]] + b[k + 1..];
  }

  /** Every value in [lo, hi] puts the sum of n values in [n * lo, n * hi]. */
  lemma {:induction false} SumBounds(s: seq<int>, lo: int, hi: int)
    requires forall i :: 0 <= i < |s| ==> lo <= s[i] <= hi
    ensures |s| * lo <= Sum(s) <= |s| * hi
  {
    if s != [] {
      SumBounds(s[..|s| - 1], lo, hi);
      assert (|s| - 1) * lo + lo == |s| * lo;
      assert (|s| - 1) * hi + hi == |s| * hi;
    }
  }

  /** Go's integer division by a positive divisor: the quotient is truncated toward zero. */
  function TruncDiv(a: int, n: int): (q: int)
    requires n > 0
    ensures a >= 0 ==> 0 <= q && n * q <= a < n * q + n
    ensures a < 0 ==> q <= 0 && n * q - n < a <= n * q
  {
    if a >= 0 then a / n else -((-a) / n)
  }

  /** Multiplying by a positive number keeps strict order, so it can be cancelled. */
  lemma MulCancel(n: int, x: int, y: int)
    requires n > 0 && n * x < n * y
    ensures x < y
  {
  }

  /** A truncated quotient of a sum in [n * lo, n * hi] lies in [lo, hi]. */
  lemma TruncDivBounds(a: int, n: int, lo: int, hi: int)
    requires n > 0 && n * lo <= a <= n * hi
    ensures lo <= TruncDiv(a, n) <= hi
  {
    var q := TruncDiv(a, n);
    assert n * q + n == n * (q + 1);
    MulCancel(n, lo, q + 1);
    assert n * q - n == n * (q - 1);
    MulCancel(n, q - 1, hi + 1);
  }

  datatype LeadTimeSummary = LeadTimeSummary(samples: int, avgSeconds: int, p50Seconds: int, p95Seconds: int)

  /**
   * summarizeLeadTimes: all zero for no samples; otherwise the count, the mean truncated toward
   * zero, and the 50th and 95th percentiles of the sorted samples.
   */
  function Summary(values: seq<int>): LeadTimeSummary
  {
    if values == [] then LeadTimeSummary(0, 0, 0, 0)
    else
      var ordered := SortInts(values);
      LeadTimeSummary(|values|, TruncDiv(Sum(values), |values|), Percentile(ordered, 50), Percentile(ordered, 95))
  }

  /** Sorts a copy of the samples and sums it in a loop. */
  method SummarizeLeadTimes(values: seq<int>) returns (summary: LeadTimeSummary)
    ensures summary == Summary(values)
  {
    if |values| == 0 {
      return LeadTimeSummary(0, 0, 0, 0);
    }
    var ordered := SortInts(values);
    var sum := 0;
    var i := 0;
    while i < |ordered|
      invariant 0 <= i <= |ordered|
      invariant sum == Sum(ordered[..i])
    {
      assert ordered[..i + 1][..i] == ordered[..i];
      sum := sum + ordered[i];
      i := i + 1;
    }
    assert ordered[..i] == ordered;
    SumPermutation(ordered, values);
    summary := LeadTimeSummary(|ordered|, TruncDiv(sum, |ordered|), Percentile(ordered, 50), Percentile(ordered, 95));
  }

  /**
   * For a non-empty window: the smallest and largest samples are samples and bound every
   * sample, the mean lies between them, and P50 <= P95, both being samples.
   */
  lemma SummaryBounds(values: seq<int>)
    requires values != []
    ensures var ordered := SortInts(values);
            var s := Summary(values);
            var lo := ordered[0];
            var hi := ordered[|ordered| - 1];
            lo in values && hi in values
            && (forall i :: 0 <= i < |values| ==> lo <= values[i] <= hi)
            && s.samples == |values|
            && lo <= s.avgSeconds <= hi
            && lo <= s.p50Seconds <= s.p95Seconds <= hi
            && s.p50Seconds in values && s.p95Seconds in values
  {
    var ordered := SortInts(values);
    var n := |ordered|;
    var lo := ordered[0];
    var hi := ordered[n - 1];
    assert lo in multiset(values) && hi in multiset(values);
    forall i | 0 <= i < |values| ensures lo <= values[i] <= hi {
      assert values[i] in multiset(ordered);
      var k :| 0 <= k < n && ordered[k] == values[i];
    }
    SumBounds(values, lo, hi);
    TruncDivBounds(Sum(values), |values|, lo, hi);
    PercentileMonotone(ordered, 50, 95);
    var p50 := Percentile(ordered, 50);
    var p95 := Percentile(ordered, 95);
    assert p50 in multiset(ordered) && p95 in multiset(ordered);
  }

  // ---------------------------------------------------------------------------
  // BuildLeadTimeReport

  /** The window in days: 30 when not positive, at most 365. */
  function WindowDays(days: int): (d: int)
    ensures 1 <= d <= 365
    ensures days <= 0 ==> d == 30
    ensures days > 365 ==> d == 365
    ensures 1 <= days <= 365 ==> d == days
  {
    var d := if days <= 0 then 30 else days;
    if d > 365 then 365 else d
  }

  /** The first instant of the window, in Unix milliseconds, for a clock reading `nowMs`. */
  function SinceMs(nowMs: int, days: int): int
  {
    nowMs - days * 24 * 60 * 60 * 1000
  }

  datatype LeadTimeSample = LeadTimeSample(serviceName: String, dayUtc: String, leadSeconds: int)

  /** One row of the per-service or per-day table. */
  datatype KeyedLeadTime = KeyedLeadTime(key: String, stats: LeadTimeSummary)

  datatype LeadTimeReport = LeadTimeReport(overall: LeadTimeSummary, byService: seq<KeyedLeadTime>,
                                           byDay: seq<KeyedLeadTime>)

  function Leads(samples: seq<LeadTimeSample>): (r: seq<int>)
  {
    seq(|samples|, i requires 0 <= i < |samples| => samples[i].leadSeconds)
  }

  function ServiceNames(samples: seq<LeadTimeSample>): (r: seq<String>)
  {
    seq(|samples|, i requires 0 <= i < |samples| => samples[i].serviceName)
  }

  function Days(samples: seq<LeadTimeSample>): (r: seq<String>)
  {
    seq(|samples|, i requires 0 <= i < |samples| => samples[i].dayUtc)
  }

  /** The byService and byDay maps: each non-empty key's values, appended in arrival order. */
  function Groups(keys: seq<String>, leads: seq<int>): map<String, seq<int>>
    requires |keys| == |leads|
  {
    if keys == [] then map[]
    else
      var n := |keys|;
      var m := Groups(keys[..n - 1], leads[..n - 1]);
      var k := keys[n - 1];
      if k == [] then m else m[k := GroupOf(m, k) + [leads[n - 1]]]
  }

  /** A Go map read of a group: nil, here the empty list, when the key is absent. */
  function GroupOf(m: map<String, seq<int>>, k: String): seq<int>
  {
    if k in m then m[k] else []
  }

  /** The values whose key is `key`, in order. */
  function Select(keys: seq<String>, leads: seq<int>, key: String): seq<int>
    requires |keys| == |leads|
  {
    if keys == [] then []
    else
      var n := |keys|;
      Select(keys[..n - 1], leads[..n - 1], key) + (if keys[n - 1] == key then [leads[n - 1]] else [])
  }

  /** The groups are exactly the non-empty keys, and each holds its key's values in arrival order. */
  lemma {:induction false} GroupsSelect(keys: seq<String>, leads: seq<int>, key: String)
    requires |keys| == |leads|
    ensures key in Groups(keys, leads) <==> key != [] && key in keys
    ensures key != [] ==> GroupOf(Groups(keys, leads), key) == Select(keys, leads, key)
  {
    if keys != [] {
      var n := |keys|;
      GroupsSelect(keys[..n - 1], leads[..n - 1], key);
      assert keys == keys[..n - 1] + [keys[n - 1]];
    }
  }

  /** One table row per key, in the order of `keys`. */
  function Rows(keys: seq<String>, groups: map<String, seq<int>>): (r: seq<KeyedLeadTime>)
  {
    seq(|keys|, i requires 0 <= i < |keys| => KeyedLeadTime(keys[i], Summary(GroupOf(groups, keys[i]))))
  }

  /** The table of a grouping: one row per group, sorted by key. */
  ghost function Table(keys: seq<String>, leads: seq<int>): seq<KeyedLeadTime>
    requires |keys| == |leads|
  {
    Rows(SortedSet(Groups(keys, leads).Keys), Groups(keys, leads))
  }

  /** The report over the samples the store returns for the clamped window. */
  ghost function LeadTimeReportOf(days: int, nowMs: int,
                                  listSamples: int -> Result<seq<LeadTimeSample>, StoreError>)
    : Result<LeadTimeReport, StoreError>
  {
    match listSamples(SinceMs(nowMs, WindowDays(days)))
    case Err(e) => Err(e)
    case Ok(samples) =>
      Ok(LeadTimeReport(Summary(Leads(samples)), Table(ServiceNames(samples), Leads(samples)),
                        Table(Days(samples), Leads(samples))))
  }

  /**
   * BuildLeadTimeReport: clamps the window, reads the samples since its start, and summarises
   * them overall, per service and per day. The clock reading and the store read are parameters.
   */
  method BuildLeadTimeReport(days: int, nowMs: int, listSamples: int -> Result<seq<LeadTimeSample>, StoreError>)
    returns (r: Result<LeadTimeReport, StoreError>)
    ensures r == LeadTimeReportOf(days, nowMs, listSamples)
  {
    var window := days;
    if window <= 0 {
      window := 30;
    }
    if window > 365 {
      window := 365;
    }
    var sinceMs := nowMs - window * 24 * 60 * 60 * 1000;
    var listed := listSamples(sinceMs);
    if listed.Err? {
      return Err(listed.error);
    }
    var samples := listed.value;
    var overallVals, byService, byDay := GroupSamples(samples);
    var serviceRows := SummaryRows(byService);
    var dayRows := SummaryRows(byDay);
    var overall := SummarizeLeadTimes(overallVals);
    r := Ok(LeadTimeReport(overall, serviceRows, dayRows));
  }

  /** One more sample filed: its lead time joins the group of its key, unless the key is empty. */
  lemma GroupsStep(keys: seq<String>, leads: seq<int>, i: nat)
    requires |keys| == |leads| && i < |keys|
    ensures var m := Groups(keys[..i], leads[..i]);
            Groups(keys[..i + 1], leads[..i + 1]) ==
              if keys[i] == [] then m else m[keys[i] := GroupOf(m, keys[i]) + [leads[i]]]
  {
    assert keys[..i + 1][..i] == keys[..i] && leads[..i + 1][..i] == leads[..i];
  }

  /** The sample loop: every lead time, and the per-service and per-day groups. */
  method GroupSamples(samples: seq<LeadTimeSample>)
    returns (overallVals: seq<int>, byService: map<String, seq<int>>, byDay: map<String, seq<int>>)
    ensures overallVals == Leads(samples)
    ensures byService == Groups(ServiceNames(samples), Leads(samples))
    ensures byDay == Groups(Days(samples), Leads(samples))
  {
    ghost var names := ServiceNames(samples);
    ghost var days := Days(samples);
    ghost var leads := Leads(samples);
    overallVals, byService, byDay := [], map[], map[];
    var i := 0;
    while i < |samples|
      invariant 0 <= i <= |samples|
      invariant overallVals == leads[..i]
      invariant byService == Groups(names[..i], leads[..i])
      invariant byDay == Groups(days[..i], leads[..i])
    {
      var sample := samples[i];
      assert names[i] == sample.serviceName && days[i] == sample.dayUtc && leads[i] == sample.leadSeconds;
      GroupsStep(names, leads, i);
      GroupsStep(days, leads, i);
      assert leads[..i + 1] == leads[..i] + [leads[i]];
      overallVals := overallVals + [sample.leadSeconds];
      if sample.serviceName != [] {
        byService := byService[sample.serviceName := GroupOf(byService, sample.serviceName) + [sample.leadSeconds]];
      }
      if sample.dayUtc != [] {
        byDay := byDay[sample.dayUtc := GroupOf(byDay, sample.dayUtc) + [sample.leadSeconds]];
      }
      i := i + 1;
    }
    assert names[..i] == names && days[..i] == days && leads[..i] == leads;
  }

  /** One summary row per group; the rows are sorted by key, which the keys make unique. */
  method SummaryRows(groups: map<String, seq<int>>) returns (rows: seq<KeyedLeadTime>)
    ensures rows == Rows(SortedSet(groups.Keys), groups)
  {
    var keys := SortedMembers(groups.Keys);
    rows := [];
    var i := 0;
    while i < |keys|
      invariant 0 <= i <= |keys|
      invariant rows == Rows(keys[..i], groups)
    {
      var stats := SummarizeLeadTimes(GroupOf(groups, keys[i]));
      rows := rows + [KeyedLeadTime(keys[i], stats)];
      i := i + 1;
    }
    assert keys[..i] == keys;
  }

  /**
   * The tables are sorted by key with one row per key; a key has a row exactly when some sample
   * carries it, and its row summarises that key's samples in arrival order.
   */
  lemma TableShape(keys: seq<String>, leads: seq<int>, key: String)
    requires |keys| == |leads|
    ensures forall i, j :: 0 <= i < j < |Table(keys, leads)| ==> Less(Table(keys, leads)[i].key, Table(keys, leads)[j].key)
    ensures (exists i :: 0 <= i < |Table(keys, leads)| && Table(keys, leads)[i].key == key)
            <==> key != [] && key in keys
    ensures forall i :: 0 <= i < |Table(keys, leads)| ==>
              Table(keys, leads)[i].stats == Summary(Select(keys, leads, Table(keys, leads)[i].key))
  {
    var groups := Groups(keys, leads);
    var sorted := SortedSet(groups.Keys);
    SortedSetShape(groups.Keys);
    GroupsSelect(keys, leads, key);
    var table := Table(keys, leads);
    forall i | 0 <= i < |table| ensures table[i].stats == Summary(Select(keys, leads, table[i].key)) {
      GroupsSelect(keys, leads, sorted[i]);
    }
    if key != [] && key in keys {
      var i :| 0 <= i < |sorted| && sorted[i] == key;
      assert table[i].key == key;
    }
  }

  // ---------------------------------------------------------------------------
  // BuildDependencyGraph

  datatype GraphNode = GraphNode(id: String, name: String)

  datatype GraphEdge = GraphEdge(from: String, to: String)

  datatype DependencyGraph = DependencyGraph(nodes: seq<GraphNode>, edges: seq<GraphEdge>)

  /** The loop state: the names in nodeMap, the edges seen, and the edges in discovery order. */
  datatype GraphState = GraphState(names: set<String>, seen: set<GraphEdge>, edges: seq<GraphEdge>)

  /** One dependency of `name`: a blank one is skipped, otherwise it is a node, and a new edge is appended. */
  function AddDependency(g: GraphState, name: String, dep: String): GraphState
  {
    if dep == [] then g
    else
      var e := GraphEdge(name, dep);
      if e in g.seen then g.(names := g.names + {dep})
      else GraphState(g.names + {dep}, g.seen + {e}, g.edges + [e])
  }

  function AddDependencies(g: GraphState, name: String, deps: seq<String>): GraphState
  {
    if deps == [] then g
    else AddDependency(AddDependencies(g, name, deps[..|deps| - 1]), name, deps[|deps| - 1])
  }

  /** One listed service: a blank title is skipped, otherwise it is a node and its dependencies are read. */
  function AddService(g: GraphState, name: String, listDependencies: String -> Result<seq<String>, StoreError>)
    : Result<GraphState, StoreError>
  {
    if name == [] then Ok(g)
    else
      match listDependencies(name)
      case Err(e) => Err(e)
      case Ok(deps) => Ok(AddDependencies(g.(names := g.names + {name}), name, deps))
  }

  /** The graph loop over the listed titles; the first failing dependency read ends it. */
  function ScanGraph(titles: seq<String>, listDependencies: String -> Result<seq<String>, StoreError>)
    : Result<GraphState, StoreError>
  {
    if titles == [] then Ok(GraphState({}, {}, []))
    else
      match ScanGraph(titles[..|titles| - 1], listDependencies)
      case Err(e) => Err(e)
      case Ok(g) => AddService(g, titles[|titles| - 1], listDependencies)
  }

  /** Go's comparator for edges: by From, then by To. */
  function EdgeLess(): (GraphEdge, GraphEdge) -> bool
  {
    (a: GraphEdge, b: GraphEdge) => Less(a.from, b.from) || (a.from == b.from && Less(a.to, b.to))
  }

  lemma EdgeLessTotal()
    ensures StrictTotalOrder(EdgeLess())
  {
    var less := EdgeLess();
    forall a: GraphEdge ensures !less(a, a) {
      LessIrreflexive(a.from);
      LessIrreflexive(a.to);
    }
    forall a: GraphEdge, b: GraphEdge, c: GraphEdge | less(a, b) && less(b, c) ensures less(a, c) {
      EdgeLessTransitive(a, b, c);
    }
    forall a: GraphEdge, b: GraphEdge, c: GraphEdge | !less(a, b) && !less(b, c) ensures !less(a, c) {
      EdgeLessTotalPair(a, b);
      EdgeLessTotalPair(b, c);
      if less(a, c) && a != b {
        EdgeLessTransitive(b, a, c);
      }
    }
    forall a: GraphEdge, b: GraphEdge ensures a == b || less(a, b) || less(b, a) {
      EdgeLessTotalPair(a, b);
    }
  }

  lemma EdgeLessTransitive(a: GraphEdge, b: GraphEdge, c: GraphEdge)
    requires EdgeLess()(a, b) && EdgeLess()(b, c)
    ensures EdgeLess()(a, c)
  {
    LessIrreflexive(a.from);
    LessIrreflexive(b.from);
    if a.from == b.from && b.from == c.from {
      LessTransitive(a.to, b.to, c.to);
    } else if a.from != b.from && b.from != c.from {
      LessTransitive(a.from, b.from, c.from);
      if a.from == c.from {
        LessIrreflexive(a.from);
      }
    }
  }

  lemma EdgeLessTotalPair(a: GraphEdge, b: GraphEdge)
    ensures a == b || EdgeLess()(a, b) || EdgeLess()(b, a)
  {
    LessTotal(a.from, b.from);
    LessTotal(a.to, b.to);
  }

  /** Each node name as a GraphNode whose ID is its name. */
  function Nodes(names: seq<String>): seq<GraphNode>
  {
    seq(|names|, i requires 0 <= i < |names| => GraphNode(names[i], names[i]))
  }

  /** The graph: nodes in name order, edges in (From, To) order. */
  ghost function DependencyGraphOf(titles: Result<seq<String>, StoreError>,
                                   listDependencies: String -> Result<seq<String>, StoreError>)
    : Result<DependencyGraph, StoreError>
  {
    match titles
    case Err(e) => Err(e)
    case Ok(ts) =>
      match ScanGraph(ts, listDependencies)
      case Err(e) => Err(e)
      case Ok(g) => Ok(DependencyGraph(Nodes(SortedSet(g.names)), StableSort(g.edges, EdgeLess())))
  }

  /**
   * BuildDependencyGraph over the listed service titles and the store's dependency read; an
   * edge counts as seen by its (From, To) pair.
   */
  method BuildDependencyGraph(titles: Result<seq<String>, StoreError>,
                              listDependencies: String -> Result<seq<String>, StoreError>)
    returns (r: Result<DependencyGraph, StoreError>)
    ensures r == DependencyGraphOf(titles, listDependencies)
  {
    if titles.Err? {
      return Err(titles.error);
    }
    var services := titles.value;
    var names: set<String> := {};
    var seen: set<GraphEdge> := {};
    var edges: seq<GraphEdge> := [];
    var i := 0;
    while i < |services|
      invariant 0 <= i <= |services|
      invariant ScanGraph(services[..i], listDependencies) == Ok(GraphState(names, seen, edges))
    {
      assert services[..i + 1][..i] == services[..i];
      var name := services[i];
      if name != [] {
        names := names + {name};
        var deps := listDependencies(name);
        if deps.Err? {
          ScanGraphStops(services, i + 1, listDependencies);
          return Err(deps.error);
        }
        names, seen, edges := AddEdges(names, seen, edges, name, deps.value);
      }
      i := i + 1;
    }
    assert services[..i] == services;
    var sortedNames := SortedMembers(names);
    r := Ok(DependencyGraph(Nodes(sortedNames), StableSort(edges, EdgeLess())));
  }

  /** The inner loop over one service's dependencies. */
  method AddEdges(names: set<String>, seen: set<GraphEdge>, edges: seq<GraphEdge>, name: String, deps: seq<String>)
    returns (names': set<String>, seen': set<GraphEdge>, edges': seq<GraphEdge>)
    ensures GraphState(names', seen', edges') == AddDependencies(GraphState(names, seen, edges), name, deps)
  {
    names', seen', edges' := names, seen, edges;
    var j := 0;
    while j < |deps|
      invariant 0 <= j <= |deps|
      invariant GraphState(names', seen', edges') == AddDependencies(GraphState(names, seen, edges), name, deps[..j])
    {
      assert deps[..j + 1][..j] == deps[..j];
      var dep := deps[j];
      if dep != [] {
        names' := names' + {dep};
        var e := GraphEdge(name, dep);
        if e !in seen' {
          seen' := seen' + {e};
          edges' := edges' + [e];
        }
      }
      j := j + 1;
    }
    assert deps[..j] == deps;
  }

  /** The loop's invariant: the edge list holds each seen edge once, and every endpoint is a non-empty node. */
  ghost predicate GraphInvariant(g: GraphState)
  {
    [] !in g.names
    && (forall e :: e in g.seen ==> e.from in g.names && e.to in g.names)
    && (forall e :: e in g.edges <==> e in g.seen)
    && Distinct(g.edges)
  }

  lemma {:induction false} AddDependenciesInvariant(g: GraphState, name: String, deps: seq<String>)
    requires GraphInvariant(g) && name in g.names
    ensures GraphInvariant(AddDependencies(g, name, deps))
    ensures name in AddDependencies(g, name, deps).names
  {
    if deps != [] {
      AddDependenciesInvariant(g, name, deps[..|deps| - 1]);
    }
  }

  lemma {:induction false} ScanGraphInvariant(titles: seq<String>, listDependencies: String -> Result<seq<String>, StoreError>)
    requires ScanGraph(titles, listDependencies).Ok?
    ensures GraphInvariant(ScanGraph(titles, listDependencies).value)
  {
    if titles != [] {
      var init := titles[..|titles| - 1];
      ScanGraphInvariant(init, listDependencies);
      var g := ScanGraph(init, listDependencies).value;
      var name := titles[|titles| - 1];
      if name != [] {
        AddDependenciesInvariant(g.(names := g.names + {name}), name, listDependencies(name).value);
      }
    }
  }

  /** A failing dependency read ends the scan: later titles are not looked at. */
  lemma {:induction false} ScanGraphStops(titles: seq<String>, k: int,
                                          listDependencies: String -> Result<seq<String>, StoreError>)
    requires 0 <= k <= |titles| && ScanGraph(titles[..k], listDependencies).Err?
    ensures ScanGraph(titles, listDependencies) == ScanGraph(titles[..k], listDependencies)
    decreases |titles| - k
  {
    if k < |titles| {
      assert titles[..k + 1][..k] == titles[..k];
      ScanGraphStops(titles, k + 1, listDependencies);
    } else {
      assert titles[..k] == titles;
    }
  }

  /** The nodes: strictly ascending by name, each with its name as ID, exactly the names found. */
  lemma DependencyGraphNodes(titles: Result<seq<String>, StoreError>,
                             listDependencies: String -> Result<seq<String>, StoreError>, n: String)
    requires DependencyGraphOf(titles, listDependencies).Ok?
    ensures var nodes := DependencyGraphOf(titles, listDependencies).value.nodes;
            (forall i, j :: 0 <= i < j < |nodes| ==> Less(nodes[i].name, nodes[j].name))
            && (forall i :: 0 <= i < |nodes| ==> nodes[i].id == nodes[i].name)
            && ((exists i :: 0 <= i < |nodes| && nodes[i].name == n)
                <==> n in ScanGraph(titles.value, listDependencies).value.names)
  {
    var g := ScanGraph(titles.value, listDependencies).value;
    SortedSetShape(g.names);
    var sorted := SortedSet(g.names);
    var nodes := Nodes(sorted);
    if n in g.names {
      var i :| 0 <= i < |sorted| && sorted[i] == n;
      assert nodes[i].name == n;
    }
  }

  /** The edges: strictly ascending by (From, To), so each appears once, and exactly the edges seen. */
  lemma DependencyGraphEdges(titles: Result<seq<String>, StoreError>,
                             listDependencies: String -> Result<seq<String>, StoreError>)
    requires DependencyGraphOf(titles, listDependencies).Ok?
    ensures var edges := DependencyGraphOf(titles, listDependencies).value.edges;
            (forall i, j :: 0 <= i < j < |edges| ==> EdgeLess()(edges[i], edges[j]))
            && (forall e :: e in edges <==> e in ScanGraph(titles.value, listDependencies).value.seen)
  {
    var g := ScanGraph(titles.value, listDependencies).value;
    ScanGraphInvariant(titles.value, listDependencies);
    var edges := StableSort(g.edges, EdgeLess());
    EdgeLessTotal();
    StableSortSorted(g.edges, EdgeLess());
    DistinctPermutation(g.edges, edges);
    SortedDistinctStrict(edges, EdgeLess());
    forall e ensures e in edges <==> e in g.edges {
      assert e in edges <==> e in multiset(edges);
      assert e in g.edges <==> e in multiset(g.edges);
    }
  }

  /** Every edge endpoint is a node, and no node has an empty name. */
  lemma DependencyGraphClosed(titles: Result<seq<String>, StoreError>,
                              listDependencies: String -> Result<seq<String>, StoreError>, e: GraphEdge)
    requires DependencyGraphOf(titles, listDependencies).Ok?
    requires e in DependencyGraphOf(titles, listDependencies).value.edges
    ensures var g := ScanGraph(titles.value, listDependencies).value;
            e.from in g.names && e.to in g.names && e.from != [] && e.to != []
  {
    ScanGraphInvariant(titles.value, listDependencies);
    DependencyGraphEdges(titles, listDependencies);
  }

  lemma {:induction false} AddDependenciesMembers(g: GraphState, name: String, deps: seq<String>, e: GraphEdge, n: String)
    ensures e in AddDependencies(g, name, deps).seen
            <==> e in g.seen || (e.from == name && e.to != [] && e.to in deps)
    ensures n in AddDependencies(g, name, deps).names <==> n in g.names || (n != [] && n in deps)
  {
    if deps != [] {
      var init := deps[..|deps| - 1];
      AddDependenciesMembers(g, name, init, e, n);
      assert deps == init + [deps[|deps| - 1]];
    }
  }

  /**
   * The edges seen are exactly the pairs (title, dependency) of a non-empty title and a
   * non-empty dependency the store lists for it.
   */
  lemma {:induction false} ScanGraphSeen(titles: seq<String>, listDependencies: String -> Result<seq<String>, StoreError>,
                                         e: GraphEdge)
    requires ScanGraph(titles, listDependencies).Ok?
    ensures e in ScanGraph(titles, listDependencies).value.seen
            <==> e.from != [] && e.from in titles && listDependencies(e.from).Ok?
                 && e.to != [] && e.to in listDependencies(e.from).value
  {
    if titles != [] {
      var init := titles[..|titles| - 1];
      var name := titles[|titles| - 1];
      assert titles == init + [name];
      ScanGraphSeen(init, listDependencies, e);
      var g := ScanGraph(init, listDependencies).value;
      if name != [] {
        AddDependenciesMembers(g.(names := g.names + {name}), name, listDependencies(name).value, e, name);
      }
      if e.from != [] && e.from in init {
        ScanGraphLooks(init, listDependencies, e.from);
      }
    }
  }

  /**
   * The nodes are the non-empty titles and the targets of the edges seen: a node that is not a
   * title is the target of an edge from the returned title.
   */
  lemma {:induction false} ScanGraphNames(titles: seq<String>, listDependencies: String -> Result<seq<String>, StoreError>,
                                          n: String) returns (t: String)
    requires ScanGraph(titles, listDependencies).Ok?
    ensures n in ScanGraph(titles, listDependencies).value.names
            <==> (n != [] && n in titles) || GraphEdge(t, n) in ScanGraph(titles, listDependencies).value.seen
  {
    ScanGraphInvariant(titles, listDependencies);
    t := [];
    if titles != [] {
      var init := titles[..|titles| - 1];
      var name := titles[|titles| - 1];
      assert titles == init + [name];
      var g := ScanGraph(init, listDependencies).value;
      var t' := ScanGraphNames(init, listDependencies, n);
      t := t';
      if name != [] {
        var deps := listDependencies(name).value;
        var g' := g.(names := g.names + {name});
        AddDependenciesMembers(g', name, deps, GraphEdge(t', n), n);
        if n !in g.names && n != name && n != [] && n in deps {
          t := name;
          AddDependenciesMembers(g', name, deps, GraphEdge(name, n), n);
        }
      }
    }
  }

  /** Every non-empty title of a scan that succeeded had its dependencies read successfully. */
  lemma {:induction false} ScanGraphLooks(titles: seq<String>, listDependencies: String -> Result<seq<String>, StoreError>,
                                          t: String)
    requires ScanGraph(titles, listDependencies).Ok? && t != [] && t in titles
    ensures listDependencies(t).Ok?
  {
    var init := titles[..|titles| - 1];
    assert titles == init + [titles[|titles| - 1]];
    if t in init {
      ScanGraphLooks(init, listDependencies, t);
    }
  }

  /** The scan succeeds exactly when the dependency read of every non-empty title succeeds. */
  lemma {:induction false} ScanGraphOk(titles: seq<String>, listDependencies: String -> Result<seq<String>, StoreError>)
    ensures ScanGraph(titles, listDependencies).Ok?
            <==> forall t :: t in titles && t != [] ==> listDependencies(t).Ok?
  {
    if titles != [] {
      var init := titles[..|titles| - 1];
      assert titles == init + [titles[|titles| - 1]];
      ScanGraphOk(init, listDependencies);
    }
  }

  /** The error returned is that of the first non-empty title whose dependency read fails. */
  lemma ScanGraphFirstError(titles: seq<String>, listDependencies: String -> Result<seq<String>, StoreError>, k: int)
    requires 0 <= k < |titles| && titles[k] != [] && listDependencies(titles[k]).Err?
    requires forall j :: 0 <= j < k && titles[j] != [] ==> listDependencies(titles[j]).Ok?
    ensures ScanGraph(titles, listDependencies) == Err(listDependencies(titles[k]).error)
  {
    assert titles[..k + 1][..k] == titles[..k];
    ScanGraphOk(titles[..k], listDependencies);
    ScanGraphStops(titles, k + 1, listDependencies);
  }

  // ---------------------------------------------------------------------------
  // The finding in BuildDependencyGraph: seenEdges is keyed by name + "->" + dep

  /** The seenEdges key the source builds for an edge. */
  function EdgeKey(e: GraphEdge): String
  {
    e.from + "->" + e.to
  }

  /** The loop state as written, with seen edges kept as their keys. */
  datatype KeyedGraphState = KeyedGraphState(names: set<String>, seenKeys: set<String>, edges: seq<GraphEdge>)

  /** AddDependency as written: an edge is skipped when its key has been seen. */
  function AddDependencyAsWritten(g: KeyedGraphState, name: String, dep: String): (r: KeyedGraphState)
    ensures |r.edges| <= |g.edges| + 1
  {
    if dep == [] then g
    else
      var e := GraphEdge(name, dep);
      if EdgeKey(e) in g.seenKeys then g.(names := g.names + {dep})
      else KeyedGraphState(g.names + {dep}, g.seenKeys + {EdgeKey(e)}, g.edges + [e])
  }

  /**
   * Two different edges share a key when a name contains "->": service "a->b" depending on "c"
   * and service "a" depending on "b->c". As written the second edge is dropped, while keying
   * on the pair keeps both.
   */
  lemma EdgeKeyCollision()
    ensures var e1 := GraphEdge("a->b", "c");
            var e2 := GraphEdge("a", "b->c");
            e1 != e2 && EdgeKey(e1) == EdgeKey(e2)
            && AddDependencyAsWritten(AddDependencyAsWritten(KeyedGraphState({"a->b", "a"}, {}, []), "a->b", "c"), "a", "b->c").edges
               == [e1]
            && AddDependency(AddDependency(GraphState({"a->b", "a"}, {}, []), "a->b", "c"), "a", "b->c").edges
               == [e1, e2]
  {
    var e1 := GraphEdge("a->b", "c");
    var e2 := GraphEdge("a", "b->c");
    assert e1.from != e2.from by {
      assert |e1.from| != |e2.from|;
    }
    assert EdgeKey(e1) == "a->b->c" == EdgeKey(e2);
  }

  /** Keyed by the pair, an edge is appended exactly when it has not been seen: no edge is lost. */
  lemma AddDependencyKeepsEdge(g: GraphState, name: String, dep: String)
    requires GraphInvariant(g) && dep != []
    ensures GraphEdge(name, dep) in AddDependency(g, name, dep).edges
  {
  }

  // ---------------------------------------------------------------------------
  // UpsertServiceDependency, DeleteServiceDependency and UpsertServiceDependencies

  /** The dependency write a call issued, if any, and the error it returns. */
  datatype WriteOutcome = WriteOutcome(issued: Option<Dependency>, err: Option<StoreError>)

  /**
   * UpsertServiceDependency and DeleteServiceDependency: a pair NormalizeDependencyInput refuses
   * is a silent no-op; otherwise the normalized pair is written and the store's error returned.
   */
  function GuardedDependencyWrite(serviceName: String, dependsOn: String, write: Dependency -> Option<StoreError>)
    : (r: WriteOutcome)
    ensures NormalizeDependencyInput(serviceName, dependsOn).None? ==> r == WriteOutcome(None, None)
    ensures r.issued.Some? ==> WellFormedDependency(r.issued.value) && r.err == write(r.issued.value)
                               && r.issued == NormalizeDependencyInput(serviceName, dependsOn)
  {
    match NormalizeDependencyInput(serviceName, dependsOn)
    case None => WriteOutcome(None, None)
    case Some(d) =>
      NormalizeDependencyInputIdempotent(serviceName, dependsOn);
      WriteOutcome(Some(d), write(d))
  }

  /** The writes for `deps`, each paired with the service name as given. */
  function Calls(serviceName: String, deps: seq<String>): (r: seq<Dependency>)
  {
    seq(|deps|, i requires 0 <= i < |deps| => Dependency(serviceName, deps[i]))
  }

  /**
   * The outcome of upserting `deps` in order until the first error: `added` upserts succeeded,
   * the error, if any, is that of the next one, and `issued` lists the writes made.
   */
  ghost predicate UpsertedInOrder(serviceName: String, deps: seq<String>, upsert: Dependency -> Option<StoreError>,
                                  added: int, err: Option<StoreError>, issued: seq<Dependency>)
  {
    0 <= added <= |deps|
    && (forall k :: 0 <= k < added ==> upsert(Dependency(serviceName, deps[k])).None?)
    && (err.None? ==> added == |deps| && issued == Calls(serviceName, deps))
    && (err.Some? ==> added < |deps| && err == upsert(Dependency(serviceName, deps[added]))
                      && issued == Calls(serviceName, deps[..added + 1]))
  }

  /** UpsertServiceDependencies: upserts the parsed dependencies in order, stopping at the first error. */
  method UpsertServiceDependencies(serviceName: String, rawDependsOn: String, upsert: Dependency -> Option<StoreError>)
    returns (added: int, err: Option<StoreError>, issued: seq<Dependency>)
    ensures UpsertedInOrder(serviceName, ParseDependencyInputs(serviceName, rawDependsOn), upsert, added, err, issued)
  {
    var deps := ParseDependencyInputs(serviceName, rawDependsOn);
    added, err, issued := UpsertEach(serviceName, deps, upsert);
  }

  /** The counting loop of UpsertServiceDependencies. */
  method UpsertEach(serviceName: String, deps: seq<String>, upsert: Dependency -> Option<StoreError>)
    returns (added: int, err: Option<StoreError>, issued: seq<Dependency>)
    ensures UpsertedInOrder(serviceName, deps, upsert, added, err, issued)
  {
    added := 0;
    issued := [];
    err := None;
    while added < |deps|
      invariant 0 <= added <= |deps|
      invariant forall k :: 0 <= k < added ==> upsert(Dependency(serviceName, deps[k])).None?
      invariant issued == Calls(serviceName, deps[..added])
    {
      var call := Dependency(serviceName, deps[added]);
      issued := issued + [call];
      var e := upsert(call);
      if e.Some? {
        err := e;
        assert issued == Calls(serviceName, deps[..added + 1]);
        return;
      }
      added := added + 1;
    }
    assert deps[..added] == deps;
  }
}
