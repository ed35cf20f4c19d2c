/** Optional values, results, string order, decimal text and the sort that the components share. */
module Prelude {

  datatype Option<+T> = None | Some(value: T)

  datatype Result<+T, +E> = Ok(value: T) | Err(error: E)

  type uint8 = x: int | 0 <= x < 256

  type uint64 = x: int | 0 <= x < 0x1_0000_0000_0000_0000

  // ---------------------------------------------------------------------
  // Go's string order
  // ---------------------------------------------------------------------

  /** Go's `<` on strings: the first differing position decides, a proper prefix is smaller. */
  predicate LexLess(a: string, b: string) {
    |b| > 0 && (|a| == 0 || a[0] < b[0] || (a[0] == b[0] && LexLess(a[1..], b[1..])))
  }

  lemma {:induction false} LexIrreflexive(a: string)
    ensures !LexLess(a, a)
  {
    if |a| > 0 { LexIrreflexive(a[1..]); }
  }

  lemma {:induction false} LexTransitive(a: string, b: string, c: string)
    requires LexLess(a, b) && LexLess(b, c)
    ensures LexLess(a, c)
  {
    if |a| > 0 && a[0] == b[0] == c[0] { LexTransitive(a[1..], b[1..], c[1..]); }
  }

  lemma {:induction false} LexTotal(a: string, b: string)
    ensures LexLess(a, b) || LexLess(b, a) || a == b
  {
    if |a| > 0 && |b| > 0 && a[0] == b[0] {
      LexTotal(a[1..], b[1..]);
      assert a == [a[0]] + a[1..] && b == [b[0]] + b[1..];
    }
  }

  /** A common prefix does not change the order. */
  lemma {:induction false} LexPrefix(p: string, a: string, b: string)
    ensures LexLess(p + a, p + b) == LexLess(a, b)
  {
    if |p| == 0 {
      assert p + a == a && p + b == b;
    } else {
      assert (p + a)[1..] == p[1..] + a && (p + b)[1..] == p[1..] + b;
      LexPrefix(p[1..], a, b);
    }
  }

  /** A smaller beginning of equal length decides. */
  lemma {:induction false} LexHead(p: string, q: string, x: string, y: string)
    requires |p| == |q| && LexLess(p, q)
    ensures LexLess(p + x, q + y)
  {
    if p[0] == q[0] {
      LexHead(p[1..], q[1..], x, y);
      assert (p + x)[1..] == p[1..] + x && (q + y)[1..] == q[1..] + y;
    }
  }

  // ---------------------------------------------------------------------
  // Sorting
  // ---------------------------------------------------------------------

  /** What sort.Slice asks of its less function. */
  ghost predicate StrictWeakOrder<T(!new)>(less: (T, T) -> bool) {
    && (forall x :: !less(x, x))
    && (forall x, y, z :: less(x, y) && less(y, z) ==> less(x, z))
    && (forall x, y, z :: less(x, z) ==> less(x, y) || less(y, z))
  }

  ghost predicate SortedBy<T>(s: seq<T>, less: (T, T) -> bool) {
    forall i, j :: 0 <= i < j < |s| ==> !less(s[j], s[i])
  }

  /** sort.Slice: callers learn only that the result is a sorted permutation, so what they
      prove holds for every sort, stable or not. */
  method SortSlice<T(!new)>(s: seq<T>, less: (T, T) -> bool) returns (out: seq<T>)
    requires StrictWeakOrder(less)
    ensures multiset(out) == multiset(s)
    ensures SortedBy(out, less)
  {
    out := [];
    for k := 0 to |s|
      invariant multiset(out) == multiset(s[..k])
      invariant SortedBy(out, less)
    {
      assert s[..k + 1] == s[..k] + [s[k]];
      out := InsertSorted(out, s[k], less);
    }
    assert s[..|s|] == s;
  }

  method InsertSorted<T(!new)>(s: seq<T>, x: T, less: (T, T) -> bool) returns (out: seq<T>)
    requires StrictWeakOrder(less) && SortedBy(s, less)
    ensures multiset(out) == multiset(s) + multiset{x}
    ensures SortedBy(out, less)
  {
    var i := |s|;
    while i > 0 && less(x, s[i - 1])
      invariant 0 <= i <= |s|
      invariant forall j :: i <= j < |s| ==> less(x, s[j])
    {
      i := i - 1;
    }
    out := s[..i] + [x] + s[i..];
    SpliceContents(s, x, i);
    SpliceSorted(s, x, i, less);
  }

  lemma SpliceContents<T>(s: seq<T>, x: T, i: nat)
    requires i <= |s|
    ensures multiset(s[..i] + [x] + s[i..]) == multiset(s) + multiset{x}
  {
    assert s == s[..i] + s[i..];
  }

  lemma SpliceSorted<T(!new)>(s: seq<T>, x: T, i: nat, less: (T, T) -> bool)
    requires StrictWeakOrder(less) && SortedBy(s, less) && i <= |s|
    requires forall j :: i <= j < |s| ==> less(x, s[j])
    requires i > 0 ==> !less(x, s[i - 1])
    ensures SortedBy(s[..i] + [x] + s[i..], less)
  {
    forall j | 0 <= j < i ensures !less(x, s[j]) {
      var y, z := s[i - 1], s[j];
      assert less(x, z) ==> less(x, y) || less(y, z);
    }
    forall j | i <= j < |s| ensures !less(s[j], x) {
      assert less(s[j], x) ==> less(x, x);
    }
  }

  lemma TwiceInMultiset<T>(t: seq<T>, i: nat, j: nat)
    requires i < j < |t| && t[i] == t[j]
    ensures multiset(t)[t[i]] >= 2
  {
    assert t == t[..j] + [t[j]] + t[j + 1..];
    assert t[i] in t[..j];
  }

  lemma {:induction false} OnceInMultiset<T>(s: seq<T>, x: T)
    requires forall i, j :: 0 <= i < j < |s| ==> s[i] != s[j]
    ensures multiset(s)[x] <= 1
  {
    if |s| > 0 {
      OnceInMultiset(s[1..], x);
      assert s == [s[0]] + s[1..];
      assert s[0] !in s[1..];
    }
  }

  // ---------------------------------------------------------------------
  // Decimal text (fmt's %d and zero-padded fields)
  // ---------------------------------------------------------------------

  function DigitChar(d: int): (c: char)
    requires 0 <= d < 10
    ensures '0' <= c <= '9'
  {
    (48 + d) as char
  }

  function Decimal(n: nat): string {
    if n < 10 then [DigitChar(n)] else Decimal(n / 10) + [DigitChar(n % 10)]
  }

  /** The inverse of Decimal on digit strings. */
  function ParseDecimal(s: string): int {
    if |s| == 0 then 0 else 10 * ParseDecimal(s[..|s| - 1]) + (s[|s| - 1] as int - 48)
  }

  lemma {:induction false} DecimalRoundTrip(n: nat)
    ensures |Decimal(n)| > 0
    ensures ParseDecimal(Decimal(n)) == n
  {
    if n >= 10 {
      DecimalRoundTrip(n / 10);
      var d := Decimal(n);
      assert d[..|d| - 1] == Decimal(n / 10);
    } else {
      var d := Decimal(n);
      assert d[..|d| - 1] == [];
    }
  }

  /** The last w decimal digits of n, zero-padded on the left. */
  function Padded(n: nat, w: nat): (s: string)
    ensures |s| == w
    ensures forall c :: c in s ==> '0' <= c <= '9'
  {
    if w == 0 then [] else Padded(n / 10, w - 1) + [DigitChar(n % 10)]
  }

  function Pow10(w: nat): (p: nat)
    ensures p >= 1
  {
    if w == 0 then 1 else 10 * Pow10(w - 1)
  }

  /** Within w digits the padded text reads back. */
  lemma {:induction false} PaddedParses(n: nat, w: nat)
    requires n < Pow10(w)
    ensures ParseDecimal(Padded(n, w)) == n
  {
    if w > 0 {
      PaddedParses(n / 10, w - 1);
      var s := Padded(n, w);
      assert s[..w - 1] == Padded(n / 10, w - 1);
    }
  }

  /** Within w digits padded texts sort like numbers. */
  lemma {:induction false} PaddedOrdered(m: nat, n: nat, w: nat)
    requires m < n < Pow10(w)
    ensures LexLess(Padded(m, w), Padded(n, w))
  {
    if w > 0 {
      var a, b := Padded(m / 10, w - 1), Padded(n / 10, w - 1);
      if m / 10 < n / 10 {
        PaddedOrdered(m / 10, n / 10, w - 1);
        LexHead(a, b, [DigitChar(m % 10)], [DigitChar(n % 10)]);
      } else {
        LexPrefix(a, [DigitChar(m % 10)], [DigitChar(n % 10)]);
      }
    }
  }

  /** Within w digits the padded text determines the number. */
  lemma {:induction false} PaddedInjective(m: nat, n: nat, w: nat)
    requires m < Pow10(w) && n < Pow10(w)
    requires Padded(m, w) == Padded(n, w)
    ensures m == n
  {
    if w > 0 {
      var a, b := Padded(m, w), Padded(n, w);
      assert a[..w - 1] == Padded(m / 10, w - 1) && b[..w - 1] == Padded(n / 10, w - 1);
      assert a[w - 1] == DigitChar(m % 10) && b[w - 1] == DigitChar(n % 10);
      PaddedInjective(m / 10, n / 10, w - 1);
    }
  }
}
