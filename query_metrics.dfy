/**
 * The database query latency tracker (internal/db/query_metrics.go): every instrumented query
 * files its duration under the sqlc query name, each name keeps a window of its newest 512
 * durations, and a snapshot reports per name the count, the median, the 95th percentile and the
 * maximum, slowest 95th percentile first.
 *
 * Durations are integers (nanoseconds, as `time.Duration`). The tracker's map of windows is a
 * field the methods reassign.
 */
module QueryMetrics {
  import opened GoStrings
  import Sorting

  const MaxSamplesPerQuery: nat := 512
  const Unknown: String := "unknown"
  const NameMarker: String := "-- name:"

  /** queryLatencyStats. */
  datatype Stats = Stats(name: String, count: nat, p50: int, p95: int, max: int)

  // ---------------------------------------------------------------------------
  // observe

  /** The name observe files a sample under: the trimmed name, or "unknown" when that is empty. */
  function SampleName(name: String): (r: String)
    ensures r != [] && TrimmedBy(r, Spaces)
    ensures !IsBlank(name) ==> r == TrimSpace(name)
  {
    var trimmed := TrimSpace(name);
    if trimmed == [] then Unknown else trimmed
  }

  /** The window of a name the tracker has not seen: Go's nil slice. */
  function WindowOf(samples: map<String, seq<int>>, name: String): seq<int>
  {
    if name in samples then samples[name] else []
  }

  /** One sample appended to a window, keeping only the newest 512. */
  function Appended(window: seq<int>, duration: int): (r: seq<int>)
    ensures |r| <= MaxSamplesPerQuery && r != [] && r[|r| - 1] == duration
    ensures |window| < MaxSamplesPerQuery ==> r == window + [duration]
    ensures |window| >= MaxSamplesPerQuery ==> |r| == MaxSamplesPerQuery
  {
    var w := window + [duration];
    if |w| > MaxSamplesPerQuery then w[|w| - MaxSamplesPerQuery..] else w
  }

  /** The window a name has after observing `ds` in order, starting from none. */
  function Observed(ds: seq<int>): seq<int>
  {
    if ds == [] then [] else Appended(Observed(ds[..|ds| - 1]), ds[|ds| - 1])
  }

  /** A window holds exactly the newest min(n, 512) of the n observed durations, in arrival order. */
  lemma {:induction false} ObservedNewest(ds: seq<int>)
    ensures |ds| <= MaxSamplesPerQuery ==> Observed(ds) == ds
    ensures |ds| > MaxSamplesPerQuery ==> Observed(ds) == ds[|ds| - MaxSamplesPerQuery..]
  {
    if ds != [] {
      var init := ds[..|ds| - 1];
      ObservedNewest(init);
      assert init + [ds[|ds| - 1]] == ds;
      if |ds| > MaxSamplesPerQuery && |init| > MaxSamplesPerQuery {
        var w := init[|init| - MaxSamplesPerQuery..] + [ds[|ds| - 1]];
        assert w[|w| - MaxSamplesPerQuery..] == ds[|ds| - MaxSamplesPerQuery..];
      }
    }
  }

  // ---------------------------------------------------------------------------
  // snapshot

  /** The index of the 95th percentile in a sorted window of n: int(float64(n-1) * 0.95). */
  function P95Index(n: nat): (r: nat)
    requires n > 0
    ensures (n - 1) / 2 <= r <= n - 1
  {
    (n - 1) * 95 / 100
  }

  /**
   * A sorted rearrangement of a window has the window's elements, and its last element is the
   * window's largest.
   */
  lemma SortedCopy(window: seq<int>, sorted: seq<int>)
    requires multiset(window) == multiset(sorted) && sorted != []
    requires forall i, j :: 0 <= i <= j < |sorted| ==> sorted[i] <= sorted[j]
    ensures forall x :: x in window <==> x in sorted
    ensures forall i :: 0 <= i < |window| ==> window[i] <= sorted[|sorted| - 1]
  {
    forall x ensures x in window <==> x in sorted {
      assert x in window <==> x in multiset(window);
      assert x in sorted <==> x in multiset(sorted);
    }
    forall i | 0 <= i < |window| ensures window[i] <= sorted[|sorted| - 1] {
      assert window[i] in sorted;
      var k :| 0 <= k < |sorted| && sorted[k] == window[i];
    }
  }

  /** The statistics of one non-empty window, read off a sorted copy of it. */
  function StatsOf(name: String, window: seq<int>): (r: Stats)
    requires window != []
    ensures r.name == name && r.count == |window|
    ensures r.p50 <= r.p95 <= r.max
    ensures r.p50 in window && r.p95 in window && r.max in window
    ensures forall i :: 0 <= i < |window| ==> window[i] <= r.max
  {
    var sorted := Sorting.SortInts(window);
    var n := |sorted|;
    SortedCopy(window, sorted);
    Stats(name, n, sorted[(n - 1) / 2], sorted[P95Index(n)], sorted[n - 1])
  }

  /**
   * The statistics are read off any ascending rearrangement of the window: the median at rank
   * (n-1)/2, the 95th percentile at rank P95Index(n) and the maximum last.
   */
  lemma StatsOfRanks(name: String, window: seq<int>, sorted: seq<int>)
    requires window != [] && multiset(sorted) == multiset(window)
    requires forall i, j :: 0 <= i <= j < |sorted| ==> sorted[i] <= sorted[j]
    ensures |sorted| == |window|
    ensures StatsOf(name, window).p50 == sorted[(|sorted| - 1) / 2]
    ensures StatsOf(name, window).p95 == sorted[P95Index(|sorted|)]
    ensures StatsOf(name, window).max == sorted[|sorted| - 1]
  {
    Sorting.SortedIntsUnique(Sorting.SortInts(window), sorted);
  }

  /** snapshot's order: the larger 95th percentile first, then the name ascending. */
  predicate Before(a: Stats, b: Stats)
  {
    a.p95 > b.p95 || (a.p95 == b.p95 && Less(a.name, b.name))
  }

  lemma BeforeOrder()
    ensures Sorting.StrictWeakOrder(Before)
  {
    forall a: Stats ensures !Before(a, a) {
      LessIrreflexive(a.name);
    }
    forall a: Stats, b: Stats, c: Stats | Before(a, b) && Before(b, c) ensures Before(a, c) {
      if a.p95 == b.p95 == c.p95 {
        LessTransitive(a.name, b.name, c.name);
      }
    }
    forall a: Stats, b: Stats, c: Stats | !Before(a, b) && !Before(b, c) ensures !Before(a, c) {
      if a.p95 == b.p95 == c.p95 {
        LessTotal(a.name, b.name);
        LessTotal(b.name, c.name);
        if Less(a.name, c.name) && a.name != b.name {
          LessTransitive(b.name, a.name, c.name);
        }
      }
    }
  }

  /** Strictly in snapshot order: no two entries tie. */
  predicate InOrder(stats: seq<Stats>)
  {
    forall i, j :: 0 <= i < j < |stats| ==> Before(stats[i], stats[j])
  }

  /** Entries with the same name are the same entry. */
  predicate KeyedByName(stats: seq<Stats>)
  {
    forall a, b :: a in stats && b in stats && a.name == b.name ==> a == b
  }

  /** sort.Slice with snapshot's comparator, on entries of distinct names. */
  function ByP95(stats: seq<Stats>): (r: seq<Stats>)
    requires Sorting.Distinct(stats) && KeyedByName(stats)
    ensures multiset(r) == multiset(stats)
    ensures InOrder(r)
  {
    BeforeOrder();
    Sorting.StableSortSorted(stats, Before);
    var r := Sorting.StableSort(stats, Before);
    Sorting.DistinctPermutation(stats, r);
    forall i, j | 0 <= i < j < |r| ensures Before(r[i], r[j]) {
      assert r[i] in multiset(stats) && r[j] in multiset(stats);
      assert !Before(r[j], r[i]);
      if r[i].p95 == r[j].p95 {
        LessTotal(r[i].name, r[j].name);
      }
    }
    r
  }

  /** The first element of a non-empty list is one of its elements. */
  lemma HeadIn<T>(s: seq<T>)
    ensures s != [] ==> s[0] in s
  {
  }

  /**
   * Two lists in snapshot order with the same entries are the same list: the report does not
   * depend on the order the map was walked in.
   */
  lemma {:induction false} InOrderUnique(a: seq<Stats>, b: seq<Stats>)
    requires InOrder(a) && InOrder(b)
    requires forall s :: s in a <==> s in b
    ensures a == b
  {
    BeforeOrder();
    if a != [] {
      assert a[0] in b && b != [];
      assert b[0] in a;
      assert a[0] == b[0];
      forall s ensures s in a[1..] <==> s in b[1..] {
        if s in a[1..] {
          var k :| 1 <= k < |a| && a[k] == s;
          assert Before(a[0], s) && s in a && s in b;
          var m :| 0 <= m < |b| && b[m] == s;
          assert m != 0 && b[1..][m - 1] == s;
        }
        if s in b[1..] {
          var k :| 1 <= k < |b| && b[k] == s;
          assert Before(b[0], s) && s in b && s in a;
          var m :| 0 <= m < |a| && a[m] == s;
          assert m != 0 && a[1..][m - 1] == s;
        }
      }
      InOrderUnique(a[1..], b[1..]);
    } else if b != [] {
      HeadIn(b);
      assert false;
    }
  }

  // ---------------------------------------------------------------------------
  // queryName

  /**
   * The trimmed first line of a query: the trimmed query up to its first newline, trimmed again
   * (strings.Split always yields at least one line).
   */
  function FirstLine(query: String): (r: String)
    ensures TrimmedBy(r, Spaces)
    ensures var t := TrimSpace(query); r == TrimSpace(t[..IndexOfAny(t, {'\n'})])
    ensures '\n' !in r
  {
    var t := TrimSpace(query);
    var i := IndexOfAny(t, {'\n'});
    assert Split(t, '\n')[0] == t[..i];
    assert '\n' !in t[..i];
    TrimSpaceWithin(t[..i], '\n');
    TrimSpace(Split(t, '\n')[0])
  }

  /**
   * The name a first line declares: its third whitespace-separated field when the line starts
   * with sqlc's "-- name:" marker, else "unknown".
   */
  function NameField(first: String): (r: String)
    ensures r != []
    ensures forall j :: 0 <= j < |r| ==> !IsSpace(r[j])
    ensures !HasPrefix(first, NameMarker) ==> r == Unknown
    ensures HasPrefix(first, NameMarker) && |Fields(first)| < 3 ==> r == Unknown
    ensures HasPrefix(first, NameMarker) && |Fields(first)| >= 3 ==> r == Fields(first)[2]
  {
    if !HasPrefix(first, NameMarker) then Unknown
    else
      var parts := Fields(first);
      if |parts| < 3 then Unknown
      else
        assert TrimmedBy(parts[2], Spaces);
        TrimSpace(parts[2])
  }

  /** queryName: the name declared on the query's first line, else "unknown". */
  function QueryName(query: String): (r: String)
    ensures r != []
    ensures forall j :: 0 <= j < |r| ==> !IsSpace(r[j])
    ensures var first := FirstLine(query);
            if HasPrefix(first, NameMarker) && |Fields(first)| >= 3 then r == Fields(first)[2] else r == Unknown
  {
    NameField(FirstLine(query))
  }

  /** A query's name is filed as it is: observe never renames what queryName produced. */
  lemma QueryNameFiled(query: String)
    ensures SampleName(QueryName(query)) == QueryName(query)
  {
    var r := QueryName(query);
    assert TrimmedBy(r, Spaces);
    assert !IsSpace(r[0]);
  }

  // ---------------------------------------------------------------------------
  // The tracker

  class Tracker {
    var samples: map<String, seq<int>>

    /** Every window is filed under a non-blank name and holds at most 512 samples. */
    predicate Valid()
      reads this
    {
      forall name :: name in samples ==> name != [] && |samples[name]| <= MaxSamplesPerQuery
    }

    /** newQueryLatencyTracker. */
    constructor ()
      ensures samples == map[] && Valid()
    {
      samples := map[];
    }

    /** observe: the duration joins the window of the (cleaned) name; no other window changes. */
    method Observe(name: String, duration: int)
      requires Valid()
      modifies this
      ensures Valid()
      ensures samples == old(samples)[SampleName(name) := Appended(WindowOf(old(samples), SampleName(name)), duration)]
    {
      var key := SampleName(name);
      var window := WindowOf(samples, key) + [duration];
      if |window| > MaxSamplesPerQuery {
        window := window[|window| - MaxSamplesPerQuery..];
      }
      samples := samples[key := window];
    }

    /**
     * snapshot: one entry per name with samples, each the statistics of its window, in
     * snapshot order. The windows are only read.
     */
    method Snapshot() returns (stats: seq<Stats>)
      ensures forall s :: s in stats <==>
                s.name in samples && samples[s.name] != [] && s == StatsOf(s.name, samples[s.name])
      ensures InOrder(stats)
    {
      var names := samples.Keys;
      var collected: seq<Stats> := [];
      ghost var done: set<String> := {};
      while names != {}
        invariant names + done == samples.Keys && names !! done
        invariant forall s :: s in collected <==>
                    s.name in done && s.name in samples && samples[s.name] != [] && s == StatsOf(s.name, samples[s.name])
        invariant Sorting.Distinct(collected)
        decreases names
      {
        var name :| name in names;
        names := names - {name};
        done := done + {name};
        var durations := samples[name];
        if |durations| == 0 {
          continue;
        }
        var entry := StatsOf(name, durations);
        assert entry !in collected;
        Sorting.AppendDistinct(collected, entry);
        collected := collected + [entry];
      }
      stats := ByP95(collected);
      Sorting.PermutationMembers(stats, collected);
    }
  }
}
