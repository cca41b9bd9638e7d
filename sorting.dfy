/**
 * Stable sorting by a strict "less" comparator, as Go's sort.SliceStable does.
 * The sort is an insertion sort that places each element before every element that is
 * not less than it, so equivalent elements keep their input order.
 */
module Sorting {
  import opened GoStrings

  /**
   * The ordering Go's sort package demands of `less`: irreflexive, transitive, and with
   * "not less" transitive too, so that incomparability is an equivalence.
   */
  ghost predicate StrictWeakOrder<T(!new)>(less: (T, T) -> bool)
  {
    (forall a :: !less(a, a)) &&
    (forall a, b, c :: less(a, b) && less(b, c) ==> less(a, c)) &&
    (forall a, b, c :: !less(a, b) && !less(b, c) ==> !less(a, c))
  }

  /** Neither element is less than the other. */
  predicate Equiv<T>(less: (T, T) -> bool, a: T, b: T)
  {
    !less(a, b) && !less(b, a)
  }

  /** No element is less than one that comes before it. */
  predicate SortedBy<T>(s: seq<T>, less: (T, T) -> bool)
  {
    forall i, j :: 0 <= i < j < |s| ==> !less(s[j], s[i])
  }

  /** The elements of `s` equivalent to `k`, in their order in `s`. */
  function ClassOf<T>(s: seq<T>, k: T, less: (T, T) -> bool): seq<T>
  {
    if s == [] then []
    else (if Equiv(less, s[0], k) then [s[0]] else []) + ClassOf(s[1..], k, less)
  }

  /** Put `x` in front of the first element of `s` that is not less than it. */
  function Insert<T>(x: T, s: seq<T>, less: (T, T) -> bool): (r: seq<T>)
    ensures multiset(r) == multiset(s) + multiset{x}
    ensures |r| == |s| + 1
  {
    if s == [] then [x]
    else if !less(s[0], x) then [x] + s
    else
      assert s == [s[0]] + s[1..];
      [s[0]] + Insert(x, s[1..], less)
  }

  /** The stable sort of `s` by `less`. */
  function StableSort<T>(s: seq<T>, less: (T, T) -> bool): (r: seq<T>)
    ensures multiset(r) == multiset(s)
    ensures |r| == |s|
  {
    if s == [] then []
    else
      assert s == [s[0]] + s[1..];
      Insert(s[0], StableSort(s[1..], less), less)
  }

  lemma {:induction false} InsertSorted<T(!new)>(x: T, s: seq<T>, less: (T, T) -> bool)
    requires StrictWeakOrder(less)
    requires SortedBy(s, less)
    ensures SortedBy(Insert(x, s, less), less)
  {
    if s != [] && less(s[0], x) {
      InsertSorted(x, s[1..], less);
      var t := Insert(x, s[1..], less);
      var r := [s[0]] + t;
      forall j | 0 < j < |r| ensures !less(r[j], s[0]) {
        assert r[j] in multiset(t);
        assert r[j] in multiset(s[1..]) + multiset{x};
        if r[j] == x {
        } else {
          assert r[j] in s[1..];
        }
      }
    }
  }

  lemma {:induction false} StableSortSorted<T(!new)>(s: seq<T>, less: (T, T) -> bool)
    requires StrictWeakOrder(less)
    ensures SortedBy(StableSort(s, less), less)
  {
    if s != [] {
      StableSortSorted(s[1..], less);
      InsertSorted(s[0], StableSort(s[1..], less), less);
    }
  }

  lemma {:induction false} ClassOfConcat<T>(a: seq<T>, b: seq<T>, k: T, less: (T, T) -> bool)
    ensures ClassOf(a + b, k, less) == ClassOf(a, k, less) + ClassOf(b, k, less)
  {
    if a == [] {
      assert a + b == b;
    } else {
      var h := if Equiv(less, a[0], k) then [a[0]] else [];
      assert (a + b)[0] == a[0];
      assert (a + b)[1..] == a[1..] + b;
      assert ClassOf(a + b, k, less) == h + ClassOf(a[1..] + b, k, less);
      ClassOfConcat(a[1..], b, k, less);
      assert ClassOf(a, k, less) == h + ClassOf(a[1..], k, less);
      SeqAssoc(h, ClassOf(a[1..], k, less), ClassOf(b, k, less));
    }
  }

  lemma SeqAssoc<T>(x: seq<T>, y: seq<T>, z: seq<T>)
    ensures x + (y + z) == (x + y) + z
  {
  }

  /** Inserting `x` adds it in front of its equivalence class and leaves every other class alone. */
  lemma {:induction false} InsertClass<T(!new)>(x: T, s: seq<T>, k: T, less: (T, T) -> bool)
    requires StrictWeakOrder(less)
    ensures ClassOf(Insert(x, s, less), k, less)
         == (if Equiv(less, x, k) then [x] else []) + ClassOf(s, k, less)
  {
    if s == [] {
    } else if !less(s[0], x) {
      assert Insert(x, s, less) == [x] + s;
      assert ([x] + s)[1..] == s;
    } else {
      var t := Insert(x, s[1..], less);
      InsertClass(x, s[1..], k, less);
      assert Insert(x, s, less) == [s[0]] + t;
      assert ([s[0]] + t)[1..] == t;
      var head := if Equiv(less, s[0], k) then [s[0]] else [];
      assert ClassOf([s[0]] + t, k, less) == head + ClassOf(t, k, less);
      assert ClassOf(s, k, less) == head + ClassOf(s[1..], k, less);
    }
  }

  /** Stability: within every equivalence class the sorted output keeps the input order. */
  lemma {:induction false} StableSortStable<T(!new)>(s: seq<T>, k: T, less: (T, T) -> bool)
    requires StrictWeakOrder(less)
    ensures ClassOf(StableSort(s, less), k, less) == ClassOf(s, k, less)
  {
    if s != [] {
      StableSortStable(s[1..], k, less);
      InsertClass(s[0], StableSort(s[1..], less), k, less);
    }
  }

  /** A sequence already sorted is left as it is. */
  lemma {:induction false} StableSortOfSorted<T(!new)>(s: seq<T>, less: (T, T) -> bool)
    requires StrictWeakOrder(less)
    requires SortedBy(s, less)
    ensures StableSort(s, less) == s
  {
    if s != [] {
      StableSortOfSorted(s[1..], less);
      var t := s[1..];
      if t != [] {
        assert !less(t[0], s[0]);
      }
    }
  }

  /** The comparator of a strict total order on the elements themselves. */
  ghost predicate StrictTotalOrder<T(!new)>(less: (T, T) -> bool)
  {
    StrictWeakOrder(less) && forall a, b :: a == b || less(a, b) || less(b, a)
  }

  lemma {:induction false} SortedDistinct<T(!new)>(s: seq<T>, less: (T, T) -> bool, i: int, j: int)
    requires StrictTotalOrder(less)
    requires SortedBy(s, less)
    requires 0 <= i < j < |s| && s[i] != s[j]
    ensures less(s[i], s[j])
  {
    assert !less(s[j], s[i]);
  }

  // Two comparators used throughout: integers ascending and strings byte-wise ascending.

  function IntLess(): (int, int) -> bool
  {
    (a: int, b: int) => a < b
  }

  lemma IntLessTotal()
    ensures StrictTotalOrder(IntLess())
  {
  }

  /** An ascending integer sort; equal integers are indistinguishable, so any sort gives this. */
  function SortInts(s: seq<int>): (r: seq<int>)
    ensures multiset(r) == multiset(s) && |r| == |s|
    ensures forall i, j :: 0 <= i <= j < |r| ==> r[i] <= r[j]
  {
    IntLessTotal();
    StableSortSorted(s, IntLess());
    StableSort(s, IntLess())
  }

  function StringLess(): (String, String) -> bool
  {
    (a: String, b: String) => Less(a, b)
  }

  /** Ascending integers. */
  predicate IntsAscending(s: seq<int>)
  {
    forall i, j :: 0 <= i <= j < |s| ==> s[i] <= s[j]
  }

  /** The first of ascending integers is at most any of them. */
  lemma HeadLeast(s: seq<int>, x: int)
    requires IntsAscending(s) && x in multiset(s)
    ensures s != [] && s[0] <= x
  {
    assert x in s;
    var k :| 0 <= k < |s| && s[k] == x;
  }

  /** Dropping the first element removes one copy of it from the multiset. */
  lemma TailMultiset(s: seq<int>)
    requires s != []
    ensures multiset(s[1..]) == multiset(s) - multiset{s[0]}
  {
    assert s == [s[0]] + s[1..];
  }

  /** Two ascending rearrangements of the same integers are the same sequence. */
  lemma {:induction false} SortedIntsUnique(a: seq<int>, b: seq<int>)
    requires multiset(a) == multiset(b)
    requires IntsAscending(a) && IntsAscending(b)
    ensures a == b
  {
    assert |a| == |multiset(a)| == |multiset(b)| == |b|;
    if a != [] {
      HeadLeast(a, b[0]);
      HeadLeast(b, a[0]);
      assert a[0] == b[0];
      TailMultiset(a);
      TailMultiset(b);
      assert IntsAscending(a[1..]) && IntsAscending(b[1..]);
      SortedIntsUnique(a[1..], b[1..]);
      SameHeadSameTail(a, b);
    }
  }

  lemma SameHeadSameTail(a: seq<int>, b: seq<int>)
    requires a != [] && b != [] && a[0] == b[0] && a[1..] == b[1..]
    ensures a == b
  {
    assert a == [a[0]] + a[1..] && b == [b[0]] + b[1..];
  }

  lemma StringLessTotal()
    ensures StrictTotalOrder(StringLess())
  {
    forall a: String ensures !Less(a, a) {
      LessIrreflexive(a);
    }
    forall a: String, b: String, c: String | Less(a, b) && Less(b, c) ensures Less(a, c) {
      LessTransitive(a, b, c);
    }
    forall a: String, b: String, c: String | !Less(a, b) && !Less(b, c) ensures !Less(a, c) {
      LessTotal(a, b);
      LessTotal(b, c);
      if Less(a, c) && a != b {
        LessTransitive(b, a, c);
      }
    }
    forall a: String, b: String ensures a == b || Less(a, b) || Less(b, a) {
      LessTotal(a, b);
    }
  }

  /** sort.Strings: ascending byte-wise order. */
  function SortStrings(s: seq<String>): (r: seq<String>)
    ensures multiset(r) == multiset(s) && |r| == |s|
    ensures forall i, j :: 0 <= i < j < |r| ==> !Less(r[j], r[i])
  {
    StringLessTotal();
    StableSortSorted(s, StringLess());
    StableSort(s, StringLess())
  }

  // ---------------------------------------------------------------------------
  // A set of strings in ascending order (sort.Strings applied to a map's keys)

  /** Every element is less than every element after it. */
  predicate StrictlySorted(xs: seq<String>)
  {
    forall i, j :: 0 <= i < j < |xs| ==> Less(xs[i], xs[j])
  }

  /** `m` is a member of `s` and no member is less than it. */
  predicate IsLeast(s: set<String>, m: String)
  {
    m in s && forall o :: o in s ==> !Less(o, m)
  }

  /** Every nonempty finite set of strings has a least element. */
  lemma {:induction false} Least(s: set<String>) returns (m: String)
    requires s != {}
    ensures IsLeast(s, m)
    decreases s
  {
    var x :| x in s;
    if s == {x} {
      LessIrreflexive(x);
      m := x;
    } else {
      var rest := Least(s - {x});
      LessTotal(x, rest);
      if Less(x, rest) {
        m := x;
        LessIrreflexive(x);
        forall o | o in s ensures !Less(o, x) {
          if o != x && Less(o, x) {
            LessTransitive(o, x, rest);
          }
        }
      } else {
        m := rest;
      }
    }
  }

  lemma LeastExists(s: set<String>)
    requires s != {}
    ensures exists m :: IsLeast(s, m)
  {
    var m := Least(s);
  }

  /** The elements of `s`, ascending: the least one first. */
  ghost function SortedSet(s: set<String>): seq<String>
    decreases s
  {
    if s == {} then []
    else
      LeastExists(s);
      var m :| IsLeast(s, m);
      [m] + SortedSet(s - {m})
  }

  /** SortedSet lists the members of the set, each once, in strictly ascending order. */
  lemma {:induction false} SortedSetShape(s: set<String>)
    ensures StrictlySorted(SortedSet(s)) && |SortedSet(s)| == |s|
    ensures forall x :: x in SortedSet(s) <==> x in s
    decreases s
  {
    if s != {} {
      LeastExists(s);
      var m := SortedSet(s)[0];
      assert IsLeast(s, m) && SortedSet(s) == [m] + SortedSet(s - {m});
      var rest := SortedSet(s - {m});
      SortedSetShape(s - {m});
      forall o | o in rest ensures Less(m, o) {
        LessTotal(m, o);
      }
    }
  }

  /** Two ascending lists with the same elements are the same list. */
  lemma {:induction false} StrictlySortedUnique(xs: seq<String>, ys: seq<String>)
    requires StrictlySorted(xs) && StrictlySorted(ys)
    requires forall x :: x in xs <==> x in ys
    ensures xs == ys
    decreases |xs|
  {
    if xs != [] {
      assert xs[0] in ys;
    }
    if ys != [] {
      assert ys[0] in xs;
    }
    if xs != [] && ys != [] {
      if xs[0] != ys[0] {
        assert ys[0] in xs && xs[0] in ys;
        LessAsymmetric(xs[0], ys[0]);
        assert false;
      }
      LessIrreflexive(xs[0]);
      forall k | 1 <= k < |xs| ensures xs[k] != xs[0] {
      }
      forall k | 1 <= k < |ys| ensures ys[k] != ys[0] {
      }
      forall x ensures x in xs[1..] <==> x in ys[1..] {
        if x in xs[1..] {
          var k :| 0 <= k < |xs[1..]| && xs[1..][k] == x;
          assert xs[k + 1] == x && x in ys;
          assert ys == [ys[0]] + ys[1..];
        }
        if x in ys[1..] {
          var k :| 0 <= k < |ys[1..]| && ys[1..][k] == x;
          assert ys[k + 1] == x && x in xs;
          assert xs == [xs[0]] + xs[1..];
        }
      }
      StrictlySortedUnique(xs[1..], ys[1..]);
    }
  }

  /** sort.Strings over a list of distinct strings gives its set in ascending order. */
  lemma SortStringsOfDistinct(xs: seq<String>, s: set<String>)
    requires forall i, j :: 0 <= i < j < |xs| ==> xs[i] != xs[j]
    requires forall x :: x in xs <==> x in s
    ensures SortStrings(xs) == SortedSet(s)
  {
    var r := SortStrings(xs);
    forall x ensures x in r <==> x in xs {
      assert x in r <==> x in multiset(r);
      assert x in xs <==> x in multiset(xs);
    }
    forall i, j | 0 <= i < j < |r| ensures Less(r[i], r[j]) {
      LessTotal(r[i], r[j]);
      DistinctCount(xs, r[i]);
      CountTwice(r, i, j);
    }
    SortedSetShape(s);
    StrictlySortedUnique(r, SortedSet(s));
  }

  /** Collects the members of a set (a Go map's keys, in any order) and sorts them with sort.Strings. */
  method SortedMembers(members: set<String>) returns (sorted: seq<String>)
    ensures sorted == SortedSet(members)
  {
    var collected: seq<String> := [];
    var remaining := members;
    while remaining != {}
      invariant remaining <= members
      invariant forall x :: x in collected <==> x in members && x !in remaining
      invariant forall i, j :: 0 <= i < j < |collected| ==> collected[i] != collected[j]
      decreases |remaining|
    {
      var x :| x in remaining;
      collected := collected + [x];
      remaining := remaining - {x};
    }
    SortStringsOfDistinct(collected, members);
    sorted := SortStrings(collected);
  }

  /** Equal elements at two positions count twice. */
  lemma CountTwice<T>(r: seq<T>, i: int, j: int)
    requires 0 <= i < j < |r|
    ensures r[i] == r[j] ==> multiset(r)[r[i]] >= 2
  {
    if r[i] == r[j] {
      assert r == r[..i] + [r[i]] + r[i + 1..j] + [r[j]] + r[j + 1..];
    }
  }

  /** A list with distinct elements holds each of them once. */
  lemma {:induction false} DistinctCount<T>(xs: seq<T>, x: T)
    requires forall i, j :: 0 <= i < j < |xs| ==> xs[i] != xs[j]
    ensures multiset(xs)[x] <= 1
  {
    if xs != [] {
      assert xs == [xs[0]] + xs[1..];
      DistinctCount(xs[1..], x);
      if x == xs[0] {
        assert x !in xs[1..];
      }
    }
  }

  /** No element appears twice. */
  predicate Distinct<T(==)>(s: seq<T>)
  {
    forall i, j :: 0 <= i < j < |s| ==> s[i] != s[j]
  }

  /** A rearrangement of a list without repeats has no repeats. */
  lemma DistinctPermutation<T>(s: seq<T>, r: seq<T>)
    requires Distinct(s) && multiset(r) == multiset(s)
    ensures Distinct(r)
  {
    forall i, j | 0 <= i < j < |r| ensures r[i] != r[j] {
      CountTwice(r, i, j);
      DistinctCount(s, r[i]);
    }
  }

  /** Appending a new element keeps a list without repeats. */
  lemma AppendDistinct<T>(s: seq<T>, x: T)
    requires Distinct(s) && x !in s
    ensures Distinct(s + [x])
  {
    var t := s + [x];
    forall i, j | 0 <= i < j < |t| ensures t[i] != t[j] {
      if j == |s| {
        assert t[i] == s[i];
      }
    }
  }

  /** A rearrangement has the same members. */
  lemma PermutationMembers<T>(r: seq<T>, s: seq<T>)
    requires multiset(r) == multiset(s)
    ensures forall x :: x in r <==> x in s
  {
    forall x ensures x in r <==> x in s {
      assert x in r <==> x in multiset(r);
      assert x in s <==> x in multiset(s);
    }
  }

  /** A sorted list without repeats is strictly sorted by a strict total order. */
  lemma SortedDistinctStrict<T(!new)>(s: seq<T>, less: (T, T) -> bool)
    requires StrictTotalOrder(less) && SortedBy(s, less) && Distinct(s)
    ensures forall i, j :: 0 <= i < j < |s| ==> less(s[i], s[j])
  {
    forall i, j | 0 <= i < j < |s| ensures less(s[i], s[j]) {
      SortedDistinct(s, less, i, j);
    }
  }
}
