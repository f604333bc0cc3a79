/**
 * Small shared vocabulary: failure-compatible wrappers, folds over
 * sequences of reals and integers, and the few string helpers the query
 * parser and the diversification driver need.
 */
module Support {

  datatype Option<+T> = None | Some(value: T)

  datatype Result<+R, +E> = Ok(value: R) | Err(error: E) {
    predicate IsFailure() { Err? }
    function PropagateFailure<U>(): Result<U, E>
      requires Err?
    {
      Err(error)
    }
    function Extract(): R
      requires Ok?
    {
      value
    }
  }

  // ---------------------------------------------------------------- folds

  /** Left-to-right sum, the order in which the source's loops accumulate. */
  function Sum(s: seq<real>): real
  {
    if s == [] then 0.0 else Sum(s[..|s| - 1]) + s[|s| - 1]
  }

  /** Left-to-right product, the order in which the source's loops accumulate. */
  function Product(s: seq<real>): real
  {
    if s == [] then 1.0 else Product(s[..|s| - 1]) * s[|s| - 1]
  }

  lemma {:induction false} SumAppend(s: seq<real>, t: seq<real>)
    ensures Sum(s + t) == Sum(s) + Sum(t)
    decreases |t|
  {
    if t == [] {
      assert s + t == s;
    } else {
      assert (s + t)[..|s + t| - 1] == s + t[..|t| - 1];
      SumAppend(s, t[..|t| - 1]);
    }
  }

  /** One more term of a left-to-right sum. */
  lemma SumPrefixStep(s: seq<real>, j: nat)
    requires j < |s|
    ensures Sum(s[..j + 1]) == Sum(s[..j]) + s[j]
  {
    assert s[..j + 1][..j] == s[..j];
  }

  lemma {:induction false} SumNonNegative(s: seq<real>)
    requires forall i :: 0 <= i < |s| ==> s[i] >= 0.0
    ensures Sum(s) >= 0.0
  {
    if s != [] {
      SumNonNegative(s[..|s| - 1]);
    }
  }

  /** The sum of element-wise sums is the sum of the two sums. */
  lemma {:induction false} SumPointwise(a: seq<real>, b: seq<real>, c: seq<real>)
    requires |a| == |b| == |c|
    requires forall i :: 0 <= i < |c| ==> c[i] == a[i] + b[i]
    ensures Sum(c) == Sum(a) + Sum(b)
  {
    if c != [] {
      var n := |c| - 1;
      SumPointwise(a[..n], b[..n], c[..n]);
    }
  }

  /** Dividing every term by d divides the sum by d. */
  lemma {:induction false} SumDivided(a: seq<real>, b: seq<real>, d: real)
    requires d != 0.0 && |a| == |b|
    requires forall i :: 0 <= i < |b| ==> b[i] == a[i] / d
    ensures Sum(b) == Sum(a) / d
  {
    if b != [] {
      var n := |b| - 1;
      SumDivided(a[..n], b[..n], d);
      DivAdd(Sum(a[..n]), a[n], d);
    }
  }

  /** Scaling every term by c / t, with the division taken first, scales the sum alike. */
  lemma {:induction false} SumScaled(a: seq<real>, b: seq<real>, t: real, c: real)
    requires t != 0.0 && |a| == |b|
    requires forall i :: 0 <= i < |b| ==> b[i] == Scaled(a[i], t, c)
    ensures Sum(b) == Scaled(Sum(a), t, c)
  {
    if b == [] {
      ScaledZero(t, c);
    } else {
      var n := |b| - 1;
      SumScaled(a[..n], b[..n], t, c);
      ScaledAdd(Sum(a[..n]), a[n], t, c);
    }
  }

  /** A prefix of a prefix is a prefix. */
  lemma PrefixTransitive<T>(a: seq<T>, b: seq<T>, c: seq<T>)
    requires |a| <= |b| <= |c| && b[..|a|] == a && c[..|b|] == b
    ensures c[..|a|] == a
  {
    assert forall i :: 0 <= i < |a| ==> c[..|a|][i] == c[..|b|][i];
  }

  /** Every non-negative term is bounded by the sum of all terms. */
  lemma {:induction false} TermAtMostSum(s: seq<real>, k: nat)
    requires forall i :: 0 <= i < |s| ==> s[i] >= 0.0
    requires k < |s|
    ensures s[k] <= Sum(s)
  {
    SumNonNegative(s[..|s| - 1]);
    if k < |s| - 1 {
      TermAtMostSum(s[..|s| - 1], k);
    }
  }

  /** The minimum of a non-empty sequence of reals (Collections.min). */
  function MinReal(s: seq<real>): (r: real)
    requires s != []
    ensures r in s
    ensures forall i :: 0 <= i < |s| ==> r <= s[i]
  {
    if |s| == 1 then s[0]
    else
      var m := MinReal(s[..|s| - 1]);
      assert forall i :: 0 <= i < |s| - 1 ==> s[..|s| - 1][i] == s[i];
      if s[|s| - 1] < m then s[|s| - 1] else m
  }

  /** The maximum of a non-empty sequence of reals (Collections.max). */
  function MaxReal(s: seq<real>): (r: real)
    requires s != []
    ensures r in s
    ensures forall i :: 0 <= i < |s| ==> s[i] <= r
  {
    if |s| == 1 then s[0]
    else
      var m := MaxReal(s[..|s| - 1]);
      assert forall i :: 0 <= i < |s| - 1 ==> s[..|s| - 1][i] == s[i];
      if s[|s| - 1] > m then s[|s| - 1] else m
  }

  /** The minimum of a non-empty sequence of integers (Collections.min). */
  function MinInt(s: seq<int>): (r: int)
    requires s != []
    ensures r in s
    ensures forall i :: 0 <= i < |s| ==> r <= s[i]
  {
    if |s| == 1 then s[0]
    else
      var m := MinInt(s[..|s| - 1]);
      assert forall i :: 0 <= i < |s| - 1 ==> s[..|s| - 1][i] == s[i];
      if s[|s| - 1] < m then s[|s| - 1] else m
  }

  /** The maximum of a non-empty sequence of integers (Collections.max). */
  function MaxInt(s: seq<int>): (r: int)
    requires s != []
    ensures r in s
    ensures forall i :: 0 <= i < |s| ==> s[i] <= r
  {
    if |s| == 1 then s[0]
    else
      var m := MaxInt(s[..|s| - 1]);
      assert forall i :: 0 <= i < |s| - 1 ==> s[..|s| - 1][i] == s[i];
      if s[|s| - 1] > m then s[|s| - 1] else m
  }

  /** The first index holding x (List.indexOf), or -1 when x is absent. */
  function IndexOf<T(==)>(s: seq<T>, x: T): (r: int)
    ensures -1 <= r < |s|
    ensures r == -1 <==> x !in s
    ensures 0 <= r ==> s[r] == x && forall j :: 0 <= j < r ==> s[j] != x
  {
    if s == [] then -1
    else if s[0] == x then 0
    else
      var k := IndexOf(s[1..], x);
      assert forall j :: 0 <= j < |s| - 1 ==> s[1..][j] == s[j + 1];
      if k == -1 then -1 else k + 1
  }

  /** The first occurrence found where it is. */
  lemma IndexOfAt<T>(s: seq<T>, x: T, k: nat)
    requires k < |s| && s[k] == x && forall j :: 0 <= j < k ==> s[j] != x
    ensures IndexOf(s, x) == k
  {
    assert x in s;
  }

  /** The last index holding x (String.lastIndexOf), or -1 when x is absent. */
  function LastIndexOf<T(==)>(s: seq<T>, x: T): (r: int)
    ensures -1 <= r < |s|
    ensures r == -1 <==> x !in s
    ensures 0 <= r ==> s[r] == x && forall j :: r < j < |s| ==> s[j] != x
  {
    if s == [] then -1
    else if s[|s| - 1] == x then |s| - 1
    else
      assert forall j :: 0 <= j < |s| - 1 ==> s[..|s| - 1][j] == s[j];
      LastIndexOf(s[..|s| - 1], x)
  }

  predicate StrictlyIncreasing(s: seq<int>)
  {
    forall i, j :: 0 <= i < j < |s| ==> s[i] < s[j]
  }

  // -------------------------------------------------------------- strings

  /** Java's String.trim() removes every leading and trailing char <= ' '. */
  predicate IsTrimmable(c: char) { c <= ' ' }

  function TrimLeft(s: string): (r: string)
    ensures |r| <= |s| && r == s[|s| - |r|..]
    ensures r == [] || !IsTrimmable(r[0])
  {
    if s == [] || !IsTrimmable(s[0]) then s else TrimLeft(s[1..])
  }

  function TrimRight(s: string): (r: string)
    ensures |r| <= |s| && r == s[..|r|]
    ensures r == [] || !IsTrimmable(r[|r| - 1])
    ensures s != [] && !IsTrimmable(s[0]) ==> r != []
  {
    if s == [] || !IsTrimmable(s[|s| - 1]) then s else TrimRight(s[..|s| - 1])
  }

  function Trim(s: string): (r: string)
    ensures |r| <= |s|
    ensures r == [] || (!IsTrimmable(r[0]) && !IsTrimmable(r[|r| - 1]))
  {
    TrimRight(TrimLeft(s))
  }

  /** A string with nothing to trim at either end is its own trim. */
  lemma TrimIdentity(s: string)
    requires s != [] && !IsTrimmable(s[0]) && !IsTrimmable(s[|s| - 1])
    ensures Trim(s) == s
  {
    assert TrimLeft(s) == s;
  }

  /** ASCII part of String.toLowerCase(). */
  function LowerChar(c: char): char
  {
    if 'A' <= c <= 'Z' then (c as int - 'A' as int + 'a' as int) as char else c
  }

  function Lower(s: string): (r: string)
    ensures |r| == |s|
    ensures forall i :: 0 <= i < |s| ==> r[i] == LowerChar(s[i])
  {
    seq(|s|, i requires 0 <= i < |s| => LowerChar(s[i]))
  }

  predicate IsDigit(c: char) { '0' <= c <= '9' }

  function DigitValue(c: char): nat
    requires IsDigit(c)
  {
    c as int - '0' as int
  }

  /** Decimal text of a natural number, as Java prints an int. */
  function NatToString(n: nat): (r: string)
    ensures r != [] && forall i :: 0 <= i < |r| ==> IsDigit(r[i])
  {
    var d := ((n % 10) + '0' as int) as char;
    if n < 10 then [d] else NatToString(n / 10) + [d]
  }

  /** A non-empty set has an element to pick. */
  lemma NonEmptyHasElement(s: set<int>)
    requires s != {}
    ensures exists x :: x in s
  {
    if forall x :: x !in s {
      assert false;
    }
  }

  // ---------------------------------------------------------------- real division

  lemma MulPositive(a: real, b: real)
    requires a > 0.0 && b > 0.0
    ensures a * b > 0.0
  {
  }

  /** Shrinking c by a fraction p of itself leaves a value between 0 and c. */
  lemma ShrinkWithinBounds(c: real, p: real)
    requires c >= 0.0 && 0.0 <= p <= 1.0
    ensures 0.0 <= c * (1.0 - p) <= c
  {
    assert c * (1.0 - p) == c - c * p;
    assert 0.0 <= c * p <= c * 1.0;
  }

  /** x scaled by the share w / t of a total t (the division is taken first). */
  function Scaled(w: real, t: real, x: real): real
    requires t != 0.0
  {
    w / t * x
  }

  lemma ScaledAdd(a: real, b: real, t: real, c: real)
    requires t != 0.0
    ensures Scaled(a, t, c) + Scaled(b, t, c) == Scaled(a + b, t, c)
  {
  }

  lemma ScaledZero(t: real, c: real)
    requires t != 0.0
    ensures Scaled(0.0, t, c) == 0.0
  {
  }

  lemma DivSelf(y: real)
    requires y != 0.0
    ensures y / y == 1.0
  {
  }

  lemma DivNonNegative(a: real, d: real)
    requires d > 0.0 && a >= 0.0
    ensures a / d >= 0.0
  {
  }

  lemma DivStrictlyMonotonic(a: real, b: real, d: real)
    requires d > 0.0 && a < b
    ensures a / d < b / d
  {
  }

  lemma DivBelowOne(a: real, d: real)
    requires d > 0.0 && a < d
    ensures a / d < 1.0
  {
  }

  lemma DivAtMostOne(a: real, d: real)
    requires d > 0.0 && a <= d
    ensures a / d <= 1.0
  {
  }

  lemma DivAdd(a: real, b: real, d: real)
    requires d != 0.0
    ensures a / d + b / d == (a + b) / d
  {
  }

  lemma DivByLarger(n: real, d1: real, d2: real)
    requires n > 0.0 && 0.0 < d1 < d2
    ensures n / d2 < n / d1
  {
  }

  // ---------------------------------------------------------------- String.split on one character

  /** The fields of s between single separators, empty and trailing fields included. */
  function Fields(s: string, sep: char): (r: seq<string>)
    ensures |r| >= 1
    ensures forall i :: 0 <= i < |r| ==> sep !in r[i]
    decreases |s|
  {
    var k := IndexOf(s, sep);
    if k == -1 then [s]
    else
      assert sep !in s[..k] by {
        forall j | 0 <= j < k ensures s[..k][j] != sep { }
      }
      [s[..k]] + Fields(s[k + 1..], sep)
  }

  /** A separator-free field followed by the separator is the first field. */
  lemma FieldsAfterSeparator(t: string, rest: string, sep: char)
    requires sep !in t
    ensures Fields(t + [sep] + rest, sep) == [t] + Fields(rest, sep)
  {
    var s := t + [sep] + rest;
    assert s[|t|] == sep && forall j :: 0 <= j < |t| ==> s[j] == t[j];
    assert IndexOf(s, sep) == |t|;
    assert s[..|t|] == t;
    assert s[|t| + 1..] == rest;
  }

  /** The fields with any run of empty fields at the end removed. */
  function DropTrailingEmpty(fs: seq<string>): (r: seq<string>)
    ensures |r| <= |fs| && r == fs[..|r|]
    ensures r == [] || r[|r| - 1] != ""
    ensures forall i :: |r| <= i < |fs| ==> fs[i] == ""
  {
    if fs == [] then []
    else if fs[|fs| - 1] == "" then DropTrailingEmpty(fs[..|fs| - 1])
    else fs
  }

  /**
   * Java's String.split with a one-character pattern: a text without the
   * separator is its own single field; otherwise the fields between
   * separators with trailing empty fields dropped.
   */
  function Split(s: string, sep: char): (r: seq<string>)
    ensures sep !in s ==> r == [s]
    ensures forall i :: 0 <= i < |r| ==> sep !in r[i]
  {
    if sep !in s then [s]
    else
      var fs := Fields(s, sep);
      var r := DropTrailingEmpty(fs);
      assert forall i :: 0 <= i < |r| ==> r[i] == fs[i];
      r
  }
}
