/** Exact arithmetic over sequences of reals: sums, extremes, means, sorting, order statistics and
    Python's `round`. The Python code works on binary floats; this module works on exact rationals. */
module Stats {

  function Sum(xs: seq<real>): real {
    if |xs| == 0 then 0.0 else xs[0] + Sum(xs[1..])
  }

  lemma {:induction false} SumConcat(a: seq<real>, b: seq<real>)
    ensures Sum(a + b) == Sum(a) + Sum(b)
  {
    if |a| == 0 {
      assert a + b == b;
    } else {
      assert (a + b)[1..] == a[1..] + b;
      SumConcat(a[1..], b);
    }
  }

  /** A sum of values that all lie in [lo, hi] lies in [n * lo, n * hi]. */
  lemma {:induction false} SumBounds(xs: seq<real>, lo: real, hi: real)
    requires forall t :: 0 <= t < |xs| ==> lo <= xs[t] <= hi
    ensures |xs| as real * lo <= Sum(xs) <= |xs| as real * hi
  {
    if |xs| > 0 {
      SumBounds(xs[1..], lo, hi);
    }
  }

  /** Python's `min(xs)`: an element of `xs` no greater than any other. */
  function Minimum(xs: seq<real>): (m: real)
    requires |xs| > 0
    ensures m in xs
    ensures forall t :: 0 <= t < |xs| ==> m <= xs[t]
  {
    if |xs| == 1 then xs[0]
    else
      var rest := Minimum(xs[1..]);
      if xs[0] <= rest then xs[0] else rest
  }

  /** Python's `max(xs)`: an element of `xs` no smaller than any other. */
  function Maximum(xs: seq<real>): (m: real)
    requires |xs| > 0
    ensures m in xs
    ensures forall t :: 0 <= t < |xs| ==> xs[t] <= m
  {
    if |xs| == 1 then xs[0]
    else
      var rest := Maximum(xs[1..]);
      if xs[0] >= rest then xs[0] else rest
  }

  /** The arithmetic mean, which always lies between the smallest and the largest value. */
  function Mean(xs: seq<real>): (r: real)
    requires |xs| > 0
    ensures Minimum(xs) <= r <= Maximum(xs)
  {
    var n := |xs| as real;
    var total := Sum(xs);
    var lo := Minimum(xs);
    var hi := Maximum(xs);
    SumBounds(xs, lo, hi);
    DivideBounds(total, n, lo, hi);
    total / n
  }

  lemma DivideBounds(total: real, n: real, lo: real, hi: real)
    requires n > 0.0 && n * lo <= total <= n * hi
    ensures lo <= total / n <= hi
  {
    var q := total / n;
    assert n * (q - lo) == total - n * lo >= 0.0;
    assert n * (hi - q) == n * hi - total >= 0.0;
  }

  lemma DivideExact(x: real, n: real, q: real)
    requires n > 0.0 && q * n == x
    ensures x / n == q
  {
  }

  /** The mean is the value that, taken once per element, gives the sum. */
  lemma MeanIs(xs: seq<real>, q: real)
    requires |xs| > 0 && q * (|xs| as real) == Sum(xs)
    ensures Mean(xs) == q
  {
    DivideExact(Sum(xs), |xs| as real, q);
  }

  /** The strictly positive values of `xs`, in their original order. */
  function Positives(xs: seq<real>): (ps: seq<real>)
    ensures |ps| <= |xs|
    ensures forall t :: 0 <= t < |ps| ==> ps[t] > 0.0
    ensures forall x :: x in ps <==> x in xs && x > 0.0
  {
    if |xs| == 0 then []
    else if xs[0] > 0.0 then [xs[0]] + Positives(xs[1..])
    else Positives(xs[1..])
  }

  /** Nothing is kept exactly when no value is positive. */
  lemma PositivesEmpty(xs: seq<real>)
    ensures |Positives(xs)| == 0 <==> forall t :: 0 <= t < |xs| ==> xs[t] <= 0.0
  {
    forall t | 0 <= t < |xs| && xs[t] > 0.0
      ensures |Positives(xs)| > 0
    {
      assert xs[t] in Positives(xs);
    }
  }

  lemma {:induction false} PositivesConcat(a: seq<real>, b: seq<real>)
    ensures Positives(a + b) == Positives(a) + Positives(b)
  {
    if |a| == 0 {
      assert a + b == b;
    } else {
      assert (a + b)[1..] == a[1..] + b;
      PositivesConcat(a[1..], b);
    }
  }

  /** How many elements of `xs` satisfy `p`. */
  function CountWhere<T>(xs: seq<T>, p: T -> bool): (n: nat)
    ensures n <= |xs|
  {
    if |xs| == 0 then 0 else (if p(xs[0]) then 1 else 0) + CountWhere(xs[1..], p)
  }

  lemma {:induction false} CountWhereConcat<T>(a: seq<T>, b: seq<T>, p: T -> bool)
    ensures CountWhere(a + b, p) == CountWhere(a, p) + CountWhere(b, p)
  {
    if |a| == 0 {
      assert a + b == b;
    } else {
      assert (a + b)[1..] == a[1..] + b;
      CountWhereConcat(a[1..], b, p);
    }
  }

  ghost predicate Sorted(s: seq<real>) {
    forall a, b :: 0 <= a < b < |s| ==> s[a] <= s[b]
  }

  /** Inserts `x` into a sorted sequence, keeping it sorted. */
  function Insert(x: real, s: seq<real>): (r: seq<real>)
    requires Sorted(s)
    ensures Sorted(r)
    ensures multiset(r) == multiset(s) + multiset{x}
    ensures |r| == |s| + 1
    ensures r[0] == x || (|s| > 0 && r[0] == s[0])
  {
    if |s| == 0 then [x]
    else if x <= s[0] then [x] + s
    else
      var tail := Insert(x, s[1..]);
      assert s == [s[0]] + s[1..];
      assert s[0] <= tail[0];
      [s[0]] + tail
  }

  /** Python's `list.sort()` on numbers: a sorted permutation of the input. */
  function Sort(xs: seq<real>): (r: seq<real>)
    ensures Sorted(r)
    ensures multiset(r) == multiset(xs)
    ensures |r| == |xs|
  {
    if |xs| == 0 then []
    else
      assert xs == [xs[0]] + xs[1..];
      var r := Insert(xs[0], Sort(xs[1..]));
      assert |r| == |multiset(r)|;
      r
  }

  /** Number of elements strictly below `m`. */
  function CountBelow(xs: seq<real>, m: real): nat {
    if |xs| == 0 then 0 else (if xs[0] < m then 1 else 0) + CountBelow(xs[1..], m)
  }

  /** Number of elements at or below `m`. */
  function CountAtMost(xs: seq<real>, m: real): nat {
    if |xs| == 0 then 0 else (if xs[0] <= m then 1 else 0) + CountAtMost(xs[1..], m)
  }

  lemma {:induction false} InsertCounts(x: real, s: seq<real>, m: real)
    requires Sorted(s)
    ensures CountBelow(Insert(x, s), m) == CountBelow(s, m) + (if x < m then 1 else 0)
    ensures CountAtMost(Insert(x, s), m) == CountAtMost(s, m) + (if x <= m then 1 else 0)
  {
    if |s| == 0 {
    } else if x <= s[0] {
      assert ([x] + s)[1..] == s;
    } else {
      InsertCounts(x, s[1..], m);
      assert ([s[0]] + Insert(x, s[1..]))[1..] == Insert(x, s[1..]);
    }
  }

  /** Sorting does not change how many values lie below or at any threshold. */
  lemma {:induction false} SortCounts(xs: seq<real>, m: real)
    ensures CountBelow(Sort(xs), m) == CountBelow(xs, m)
    ensures CountAtMost(Sort(xs), m) == CountAtMost(xs, m)
  {
    if |xs| > 0 {
      SortCounts(xs[1..], m);
      InsertCounts(xs[0], Sort(xs[1..]), m);
    }
  }

  lemma {:induction false} NoneBelow(s: seq<real>, m: real)
    requires forall t :: 0 <= t < |s| ==> m <= s[t]
    ensures CountBelow(s, m) == 0
  {
    if |s| > 0 {
      NoneBelow(s[1..], m);
    }
  }

  /** In a sorted sequence the element at index k has at most k values below it and more than k
      values at or below it. */
  lemma {:induction false} SortedRank(s: seq<real>, k: nat)
    requires Sorted(s) && k < |s|
    ensures CountBelow(s, s[k]) <= k < CountAtMost(s, s[k])
  {
    if k == 0 {
      NoneBelow(s, s[0]);
    } else {
      SortedRank(s[1..], k - 1);
      assert s[1..][k - 1] == s[k];
    }
  }

  /** The k-th smallest value (from 0) of a non-empty sequence, Python's `sorted(xs)[k]`. */
  function KthSmallest(xs: seq<real>, k: nat): (v: real)
    requires k < |xs|
    ensures v in xs
    ensures CountBelow(xs, v) <= k < CountAtMost(xs, v)
  {
    var s := Sort(xs);
    SortedRank(s, k);
    SortCounts(xs, s[k]);
    assert s[k] in multiset(s);
    s[k]
  }

  /** Python's `round(x, places)` counted in units of 1 / scale, where scale = 10^places: the
      nearest integer to x * scale, and the even one of the two on a tie. */
  function RoundedUnits(x: real, scale: nat): (n: int)
    requires scale > 0
    ensures n as real - 0.5 <= x * scale as real <= n as real + 0.5
    ensures (x * scale as real - n as real == 0.5 || n as real - x * scale as real == 0.5) ==> n % 2 == 0
  {
    var y := x * scale as real;
    var f := y.Floor;
    var frac := y - f as real;
    if frac < 0.5 then f
    else if frac > 0.5 then f + 1
    else if f % 2 == 0 then f
    else f + 1
  }

  /** Zero rounds to zero. */
  lemma RoundZero(scale: nat)
    requires scale > 0
    ensures Round(0.0, scale) == 0.0
  {
    assert RoundedUnits(0.0, scale) == 0;
  }

  /** Python's `round(x, places)` with scale = 10^places: a multiple of 1 / scale within half a
      unit of `x`. */
  function Round(x: real, scale: nat): (r: real)
    requires scale > 0
    ensures -0.5 <= (r - x) * scale as real <= 0.5
    ensures r * scale as real == RoundedUnits(x, scale) as real
  {
    var n := RoundedUnits(x, scale);
    var r := n as real / scale as real;
    assert r * scale as real == n as real;
    assert (r - x) * scale as real == n as real - x * scale as real;
    r
  }
}
