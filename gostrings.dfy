/**
 * The part of Go's `strings` and `strconv` packages that the modelled code relies on,
 * over `seq<char>`. White space is the ASCII set and case folding maps A-Z only.
 */
module GoStrings {
  import opened Wrappers

  type String = seq<char>

  /** ASCII white space as `unicode.IsSpace` sees it: space, \t, \n, \v, \f, \r. */
  const Spaces: set<char> := {' ', '\t', '\n', '\r', 11 as char, 12 as char}

  predicate IsSpace(c: char) { c in Spaces }

  // ---------------------------------------------------------------------------
  // Trimming

  /** strings.TrimLeft(s, cutset) with the cutset given as a set. */
  function TrimLeftSet(s: String, cut: set<char>): (r: String)
    ensures |r| <= |s| && r == s[|s| - |r|..]
    ensures r == [] || r[0] !in cut
    ensures forall i :: 0 <= i < |s| - |r| ==> s[i] in cut
  {
    if s != [] && s[0] in cut then TrimLeftSet(s[1..], cut) else s
  }

  /** strings.TrimRight(s, cutset) with the cutset given as a set. */
  function TrimRightSet(s: String, cut: set<char>): (r: String)
    ensures |r| <= |s| && r == s[..|r|]
    ensures r == [] || r[|r| - 1] !in cut
    ensures forall i :: |r| <= i < |s| ==> s[i] in cut
  {
    if s != [] && s[|s| - 1] in cut then TrimRightSet(s[..|s| - 1], cut) else s
  }

  /** Neither end of `s` is in `cut`. */
  predicate TrimmedBy(s: String, cut: set<char>)
  {
    s == [] || (s[0] !in cut && s[|s| - 1] !in cut)
  }

  /** strings.Trim(s, cutset). */
  function TrimSet(s: String, cut: set<char>): (r: String)
    ensures |r| <= |s|
    ensures TrimmedBy(r, cut)
    ensures r == [] <==> forall i :: 0 <= i < |s| ==> s[i] in cut
    ensures TrimmedBy(s, cut) ==> r == s
  {
    var l := TrimLeftSet(s, cut);
    var r := TrimRightSet(l, cut);
    assert r != [] ==> r[0] !in cut;
    r
  }

  /** strings.TrimSpace. */
  function TrimSpace(s: String): (r: String)
    ensures |r| <= |s|
    ensures TrimmedBy(r, Spaces)
    ensures r == [] <==> forall i :: 0 <= i < |s| ==> IsSpace(s[i])
    ensures TrimmedBy(s, Spaces) ==> r == s
  {
    TrimSet(s, Spaces)
  }

  /** `strings.TrimSpace(s) == ""`. */
  predicate IsBlank(s: String)
  {
    TrimSpace(s) == []
  }

  /** A string whose first character is not a space is not blank. */
  lemma NotBlankByHead(s: String)
    requires s != [] && !IsSpace(s[0])
    ensures !IsBlank(s)
  {
  }

  /** A string that starts with a non-space, followed by a trimmed non-empty string, is trimmed. */
  lemma TrimSpaceConcat(p: String, t: String)
    requires p != [] && !IsSpace(p[0]) && t != [] && TrimmedBy(t, Spaces)
    ensures TrimSpace(p + t) == p + t
  {
    assert (p + t)[0] == p[0] && (p + t)[|p + t| - 1] == t[|t| - 1];
  }

  lemma TrimSpaceIdempotent(s: String)
    ensures TrimSpace(TrimSpace(s)) == TrimSpace(s)
  {
  }

  // ---------------------------------------------------------------------------
  // ASCII case folding

  function LowerChar(c: char): (r: char)
    ensures c in Spaces ==> r == c
    ensures r in Spaces ==> c in Spaces
  {
    if 'A' <= c <= 'Z' then (c as int + 32) as char else c
  }

  /** strings.ToLower over ASCII letters. */
  function ToLower(s: String): (r: String)
    ensures |r| == |s|
    ensures forall i :: 0 <= i < |s| ==> r[i] == LowerChar(s[i])
  {
    if s == [] then [] else [LowerChar(s[0])] + ToLower(s[1..])
  }

  predicate IsLower(s: String)
  {
    forall i :: 0 <= i < |s| ==> LowerChar(s[i]) == s[i]
  }

  lemma ToLowerIsLower(s: String)
    ensures IsLower(ToLower(s))
    ensures IsLower(s) ==> ToLower(s) == s
  {
  }

  lemma ToLowerIdempotent(s: String)
    ensures ToLower(ToLower(s)) == ToLower(s)
  {
    ToLowerIsLower(s);
    ToLowerIsLower(ToLower(s));
  }

  lemma ToLowerConcat(a: String, b: String)
    ensures ToLower(a + b) == ToLower(a) + ToLower(b)
  {
  }

  lemma IsLowerConcat(a: String, b: String)
    requires IsLower(a) && IsLower(b)
    ensures IsLower(a + b)
  {
  }

  /** Lower-casing and trimming commute, because no space is an upper-case letter. */
  lemma TrimSpaceToLower(s: String)
    ensures TrimSpace(ToLower(s)) == ToLower(TrimSpace(s))
  {
    var l := TrimLeftSet(s, Spaces);
    var t := TrimRightSet(l, Spaces);
    var k := |s| - |l|;
    assert t == s[k..k + |t|];
    var lo := ToLower(s);
    TrimLeftLower(s);
    TrimRightLower(l);
  }

  lemma {:induction false} TrimLeftLower(s: String)
    ensures TrimLeftSet(ToLower(s), Spaces) == ToLower(TrimLeftSet(s, Spaces))
  {
    if s != [] {
      var lo := ToLower(s);
      assert lo[0] == LowerChar(s[0]);
      if s[0] in Spaces {
        assert lo[1..] == ToLower(s[1..]);
        TrimLeftLower(s[1..]);
      } else {
        assert lo[0] !in Spaces;
      }
    }
  }

  lemma {:induction false} TrimRightLower(s: String)
    ensures TrimRightSet(ToLower(s), Spaces) == ToLower(TrimRightSet(s, Spaces))
  {
    if s != [] {
      var init := s[..|s| - 1];
      LowerInit(s);
      if s[|s| - 1] in Spaces {
        TrimRightLower(init);
      }
    }
  }

  /** Lower-casing a non-empty string lower-cases all but its last character, then that one. */
  lemma LowerInit(s: String)
    requires s != []
    ensures ToLower(s)[..|s| - 1] == ToLower(s[..|s| - 1])
    ensures ToLower(s)[|s| - 1] in Spaces <==> s[|s| - 1] in Spaces
  {
    assert ToLower(s)[..|s| - 1] == ToLower(s[..|s| - 1]);
  }

  /** `strings.ToLower(strings.TrimSpace(s))`, the key most of the code compares on. */
  function Fold(s: String): (r: String)
    ensures IsLower(r) && TrimmedBy(r, Spaces)
    ensures |r| <= |s|
  {
    var t := TrimSpace(s);
    ToLowerIsLower(t);
    var r := ToLower(t);
    assert r != [] ==> r[0] == LowerChar(t[0]) && r[|r| - 1] == LowerChar(t[|t| - 1]);
    r
  }

  lemma FoldIdempotent(s: String)
    ensures Fold(Fold(s)) == Fold(s)
  {
    TrimSpaceToLower(TrimSpace(s));
    TrimSpaceIdempotent(s);
    ToLowerIdempotent(TrimSpace(s));
  }

  /** A string that is already lower-case and trimmed folds to itself. */
  lemma FoldOfFolded(s: String)
    requires IsLower(s) && TrimmedBy(s, Spaces)
    ensures Fold(s) == s
  {
    ToLowerIsLower(s);
  }

  /** A non-empty word of lower-case letters, digits and inner punctuation folds to itself. */
  lemma FoldOfWord(v: String)
    requires v != [] && forall i :: 0 <= i < |v| ==> 'a' <= v[i] <= 'z' || '0' <= v[i] <= '9' || v[i] in {'-', '_', '.'}
    ensures Fold(v) == v
  {
    FoldOfFolded(v);
  }

  /** strings.EqualFold over ASCII. */
  predicate EqualFold(a: String, b: String)
  {
    ToLower(a) == ToLower(b)
  }

  // ---------------------------------------------------------------------------
  // Prefixes and substrings

  predicate HasPrefix(s: String, p: String)
  {
    |p| <= |s| && s[..|p|] == p
  }

  lemma PrefixOfConcat(a: String, b: String)
    ensures HasPrefix(a + b, a)
  {
    assert (a + b)[..|a|] == a;
  }

  lemma PrefixExtend(s: String, p: String, t: String)
    requires HasPrefix(s, p)
    ensures HasPrefix(s + t, p)
  {
    assert (s + t)[..|p|] == s[..|p|];
  }

  predicate HasSuffix(s: String, p: String)
  {
    |p| <= |s| && s[|s| - |p|..] == p
  }

  function TrimPrefix(s: String, p: String): (r: String)
    ensures HasPrefix(s, p) ==> p + r == s
    ensures !HasPrefix(s, p) ==> r == s
  {
    if HasPrefix(s, p) then s[|p|..] else s
  }

  /** strings.Contains. */
  predicate Contains(s: String, sub: String)
  {
    HasPrefix(s, sub) || (s != [] && Contains(s[1..], sub))
  }

  lemma ContainsAt(s: String, sub: String, i: nat)
    requires i + |sub| <= |s| && s[i..i + |sub|] == sub
    ensures Contains(s, sub)
  {
    if i > 0 {
      assert s[1..][i - 1..i - 1 + |sub|] == sub;
      ContainsAt(s[1..], sub, i - 1);
    }
  }

  lemma ContainsInfix(a: String, sub: String, b: String)
    ensures Contains(a + sub + b, sub)
  {
    ContainsAt(a + sub + b, sub, |a|);
  }

  lemma ContainsLength(s: String, sub: String)
    requires Contains(s, sub)
    ensures |sub| <= |s|
  {
    if !HasPrefix(s, sub) {
      ContainsLength(s[1..], sub);
    }
  }

  /** Index of the last occurrence of `c` in `s`, or -1 (strings.LastIndex with a one-character needle). */
  function LastIndexOf(s: String, c: char): (r: int)
    ensures -1 <= r < |s|
    ensures r >= 0 ==> s[r] == c
    ensures forall j :: r < j < |s| ==> s[j] != c
  {
    if s == [] then -1
    else if s[|s| - 1] == c then |s| - 1
    else LastIndexOf(s[..|s| - 1], c)
  }

  /** The last `c` of `a + [c] + b` is the one after `a` when `b` has none. */
  lemma {:induction false} LastIndexOfConcat(a: String, c: char, b: String)
    requires c !in b
    ensures LastIndexOf(a + [c] + b, c) == |a|
    decreases |b|
  {
    if b != [] {
      var s := a + [c] + b;
      assert s[|s| - 1] == b[|b| - 1];
      assert s[..|s| - 1] == a + [c] + b[..|b| - 1];
      LastIndexOfConcat(a, c, b[..|b| - 1]);
    }
  }

  /** A string that ends in a non-space keeps its end when trimmed. */
  lemma TrimSpaceSuffix(s: String)
    requires s != [] && !IsSpace(s[|s| - 1])
    ensures TrimSpace(s) != [] && HasSuffix(s, TrimSpace(s))
  {
    var l := TrimLeftSet(s, Spaces);
    TrimLeftKeepsEnd(s);
    assert TrimRightSet(l, Spaces) == l;
    assert TrimSpace(s) == l;
  }

  lemma TrimLeftKeepsEnd(s: String)
    requires s != [] && !IsSpace(s[|s| - 1])
    ensures var l := TrimLeftSet(s, Spaces); l != [] && l[|l| - 1] == s[|s| - 1] && HasSuffix(s, l)
  {
    assert s[|s| - 1] !in Spaces;
  }

  /** Trimming only removes characters: a character absent from `s` is absent from its trim. */
  lemma TrimSpaceWithin(s: String, c: char)
    requires c !in s
    ensures c !in TrimSpace(s)
  {
    var l := TrimLeftSet(s, Spaces);
    var t := TrimRightSet(l, Spaces);
    assert t == s[|s| - |l|..][..|t|];
  }

  /** Index of the first character of `s` in `seps`, or |s| when there is none. */
  function IndexOfAny(s: String, seps: set<char>): (r: nat)
    ensures r <= |s|
    ensures r < |s| ==> s[r] in seps
    ensures forall j :: 0 <= j < r ==> s[j] !in seps
  {
    if s == [] then 0
    else if s[0] in seps then 0
    else 1 + IndexOfAny(s[1..], seps)
  }

  // ---------------------------------------------------------------------------
  // Splitting and joining

  /** strings.Split generalised to a set of one-character separators: n separators give n + 1 parts. */
  function SplitAny(s: String, seps: set<char>): (parts: seq<String>)
    ensures |parts| >= 1
    ensures forall k :: 0 <= k < |parts| ==> forall j :: 0 <= j < |parts[k]| ==> parts[k][j] !in seps
    decreases |s|
  {
    var i := IndexOfAny(s, seps);
    if i == |s| then [s] else [s[..i]] + SplitAny(s[i + 1..], seps)
  }

  /** strings.Split(s, sep) with a one-character separator. */
  function Split(s: String, sep: char): (parts: seq<String>)
    ensures |parts| >= 1
  {
    SplitAny(s, {sep})
  }

  /** strings.Join(parts, sep) with a one-character separator. */
  function Join(parts: seq<String>, sep: char): String
  {
    if parts == [] then []
    else if |parts| == 1 then parts[0]
    else parts[0] + [sep] + Join(parts[1..], sep)
  }

  /** Splitting loses nothing: joining the parts back with the separator gives the input. */
  lemma {:induction false} JoinSplit(s: String, sep: char)
    ensures Join(Split(s, sep), sep) == s
    decreases |s|
  {
    var i := IndexOfAny(s, {sep});
    if i < |s| {
      JoinSplit(s[i + 1..], sep);
      assert s == s[..i] + [sep] + s[i + 1..];
    }
  }

  /** Between separators added at both ends, every part of a join stands between two separators. */
  lemma {:induction false} JoinInfix(parts: seq<String>, k: int, sep: char) returns (a: String, b: String)
    requires 0 <= k < |parts|
    ensures [sep] + Join(parts, sep) + [sep] == a + ([sep] + parts[k] + [sep]) + b
    decreases k
  {
    var mid := [sep] + parts[k] + [sep];
    if |parts| == 1 {
      a, b := [], [];
    } else if k == 0 {
      a, b := [], Join(parts[1..], sep) + [sep];
      assert [sep] + Join(parts, sep) + [sep] == mid + b;
    } else {
      var a', b' := JoinInfix(parts[1..], k - 1, sep);
      assert parts[1..][k - 1] == parts[k];
      a, b := [sep] + parts[0] + a', b';
      calc {
        [sep] + Join(parts, sep) + [sep];
        ([sep] + parts[0]) + ([sep] + Join(parts[1..], sep) + [sep]);
        ([sep] + parts[0]) + (a' + mid + b');
        a + mid + b;
      }
    }
  }

  /** strings.Fields: the maximal runs of non-space characters, in order. */
  function Fields(s: String): (r: seq<String>)
    ensures forall k :: 0 <= k < |r| ==> r[k] != [] && forall j :: 0 <= j < |r[k]| ==> !IsSpace(r[k][j])
  {
    NonEmpty(SplitAny(s, Spaces))
  }

  function NonEmpty(parts: seq<String>): (r: seq<String>)
    ensures |r| <= |parts|
    ensures forall k :: 0 <= k < |r| ==> r[k] != [] && r[k] in parts
  {
    if parts == [] then []
    else if parts[0] == [] then NonEmpty(parts[1..])
    else [parts[0]] + NonEmpty(parts[1..])
  }

  // ---------------------------------------------------------------------------
  // Byte-wise string order (Go's `<` on strings, for ASCII text)

  predicate Less(a: String, b: String)
  {
    if a == [] then b != []
    else if b == [] then false
    else if a[0] != b[0] then a[0] < b[0]
    else Less(a[1..], b[1..])
  }

  lemma {:induction false} LessIrreflexive(a: String)
    ensures !Less(a, a)
  {
    if a != [] {
      LessIrreflexive(a[1..]);
    }
  }

  lemma {:induction false} LessAsymmetric(a: String, b: String)
    requires Less(a, b)
    ensures !Less(b, a)
  {
    if a != [] && b != [] && a[0] == b[0] {
      LessAsymmetric(a[1..], b[1..]);
    }
  }

  lemma {:induction false} LessTransitive(a: String, b: String, c: String)
    requires Less(a, b) && Less(b, c)
    ensures Less(a, c)
  {
    if a != [] && b != [] && c != [] && a[0] == b[0] && b[0] == c[0] {
      LessTransitive(a[1..], b[1..], c[1..]);
    }
  }

  lemma {:induction false} LessTotal(a: String, b: String)
    ensures a == b || Less(a, b) || Less(b, a)
  {
    if a != [] && b != [] && a[0] == b[0] {
      LessTotal(a[1..], b[1..]);
      if a[1..] == b[1..] {
        assert a == [a[0]] + a[1..] && b == [b[0]] + b[1..];
      }
    }
  }

  // ---------------------------------------------------------------------------
  // Decimal numbers (fmt's %d, strconv.Atoi and strconv.ParseInt with its 64-bit range)

  predicate IsDigit(c: char) { '0' <= c <= '9' }

  predicate AllDigits(s: String)
  {
    forall i :: 0 <= i < |s| ==> IsDigit(s[i])
  }

  function DigitChar(d: nat): (c: char)
    requires d < 10
    ensures IsDigit(c)
  {
    ('0' as int + d) as char
  }

  /** The decimal digits of `n`, most significant first, with no leading zero. */
  function NatToString(n: nat): (r: String)
    ensures r != [] && AllDigits(r)
    decreases n
  {
    if n < 10 then [DigitChar(n)] else NatToString(n / 10) + [DigitChar(n % 10)]
  }

  /** fmt.Sprintf("%d", n). */
  function IntToString(n: int): (r: String)
    ensures r != []
  {
    if n < 0 then "-" + NatToString(-n) else NatToString(n)
  }

  function DigitsValue(s: String): nat
    requires AllDigits(s)
  {
    if s == [] then 0 else DigitsValue(s[..|s| - 1]) * 10 + (s[|s| - 1] as int - '0' as int)
  }

  /** strconv.Atoi / strconv.ParseInt(s, 10, 64): an optional sign followed by at least one digit. */
  function ParseInt(s: String): Option<int>
  {
    if s == [] then None
    else if s[0] == '+' || s[0] == '-' then
      if |s| == 1 || !AllDigits(s[1..]) then None
      else if s[0] == '-' then Some(0 - DigitsValue(s[1..]) as int)
      else Some(DigitsValue(s[1..]))
    else if AllDigits(s) then Some(DigitsValue(s))
    else None
  }

  const Int64Min: int := -0x8000_0000_0000_0000
  const Int64Max: int := 0x7fff_ffff_ffff_ffff

  /** strconv.ParseInt(s, 10, 64): as ParseInt, and out-of-range values are an error. */
  function ParseInt64(s: String): (r: Option<int>)
    ensures r.Some? ==> ParseInt(s) == r && Int64Min <= r.value <= Int64Max
    ensures ParseInt(s).Some? && Int64Min <= ParseInt(s).value <= Int64Max ==> r == ParseInt(s)
  {
    match ParseInt(s)
    case None => None
    case Some(n) => if Int64Min <= n <= Int64Max then Some(n) else None
  }

  /**
   * The value of `v, _ := strconv.ParseInt(s, 10, 64)` with the error ignored: 0 when `s` is
   * not a number, the nearest bound when it is out of range.
   */
  function ParseInt64OrZero(s: String): (r: int)
    ensures Int64Min <= r <= Int64Max
    ensures ParseInt64(s).Some? ==> r == ParseInt64(s).value
    ensures ParseInt(s).None? ==> r == 0
  {
    match ParseInt(s)
    case None => 0
    case Some(n) => if n < Int64Min then Int64Min else if n > Int64Max then Int64Max else n
  }

  lemma {:induction false} DigitsOfNat(n: nat)
    ensures DigitsValue(NatToString(n)) == n
    decreases n
  {
    if n >= 10 {
      DigitsOfNat(n / 10);
      var p := NatToString(n / 10);
      assert (p + [DigitChar(n % 10)])[..|p|] == p;
    }
  }

  /** Parsing a number printed with %d gives the number back. */
  lemma ParseIntToString(n: int)
    ensures ParseInt(IntToString(n)) == Some(n)
  {
    if n < 0 {
      DigitsOfNat(-n);
      ParseNegative(NatToString(-n));
    } else {
      DigitsOfNat(n);
      ParseDigits(NatToString(n));
    }
  }

  lemma ParseNegative(d: String)
    requires d != [] && AllDigits(d)
    ensures ParseInt("-" + d) == Some(0 - DigitsValue(d))
  {
    var s := "-" + d;
    assert s[0] == '-' && s[1..] == d;
  }

  lemma ParseDigits(d: String)
    requires d != [] && AllDigits(d)
    ensures ParseInt(d) == Some(DigitsValue(d))
  {
    assert IsDigit(d[0]);
  }

  lemma NatToStringInjective(a: nat, b: nat)
    requires NatToString(a) == NatToString(b)
    ensures a == b
  {
    DigitsOfNat(a);
    DigitsOfNat(b);
  }

  lemma IntToStringInjective(a: int, b: int)
    requires IntToString(a) == IntToString(b)
    ensures a == b
  {
    ParseIntToString(a);
    ParseIntToString(b);
  }
}
