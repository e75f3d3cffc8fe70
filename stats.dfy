/** Sums, means, extremes, filters, sorting and the median of finite real
    sequences: the numeric vocabulary the engine borrows from pandas and numpy. */
module Stats {

  /** Sum of a sequence; peels the last element so that windows and prefixes
      extend at the back. */
  function Sum(xs: seq<real>): real
  {
    if xs == [] then 0.0 else Sum(xs[..|xs| - 1]) + xs[|xs| - 1]
  }

  /** Arithmetic mean (numpy `mean`, pandas rolling `mean`). */
  function Mean(xs: seq<real>): real
    requires |xs| > 0
  {
    Sum(xs) / (|xs| as real)
  }

  function Min(xs: seq<real>): (m: real)
    requires |xs| > 0
    ensures m in xs
    ensures forall i :: 0 <= i < |xs| ==> m <= xs[i]
  {
    if |xs| == 1 then xs[0]
    else
      var p := xs[..|xs| - 1];
      var m' := Min(p);
      assert xs == p + [xs[|xs| - 1]];
      if xs[|xs| - 1] < m' then xs[|xs| - 1] else m'
  }

  function Max(xs: seq<real>): (m: real)
    requires |xs| > 0
    ensures m in xs
    ensures forall i :: 0 <= i < |xs| ==> xs[i] <= m
  {
    if |xs| == 1 then xs[0]
    else
      var p := xs[..|xs| - 1];
      var m' := Max(p);
      assert xs == p + [xs[|xs| - 1]];
      if xs[|xs| - 1] > m' then xs[|xs| - 1] else m'
  }

  /** `x ** n` for a whole exponent, as Python evaluates `(1 + g) ** year`. */
  function Pow(x: real, n: nat): (r: real)
    ensures x > 0.0 ==> r > 0.0
    ensures x >= 1.0 ==> r >= 1.0
  {
    if n == 0 then 1.0
    else
      var p := Pow(x, n - 1);
      assert x >= 1.0 ==> x * p >= p;
      x * p
  }

  /** The strictly positive elements, in order (`[t for t in xs if t > 0]`). */
  function Positives(xs: seq<real>): seq<real>
  {
    if xs == [] then []
    else
      var last := xs[|xs| - 1];
      Positives(xs[..|xs| - 1]) + (if last > 0.0 then [last] else [])
  }

  /** The strictly negative elements, in order (`s[s < 0]`). */
  function Negatives(xs: seq<real>): seq<real>
  {
    if xs == [] then []
    else
      var last := xs[|xs| - 1];
      Negatives(xs[..|xs| - 1]) + (if last < 0.0 then [last] else [])
  }

  function MeanOrZero(xs: seq<real>): real
  {
    if xs == [] then 0.0 else Mean(xs)
  }

  /** The last `n` values, or all of them when there are fewer (`tail(n)`). */
  function Tail(xs: seq<real>, n: nat): (t: seq<real>)
    ensures |t| == (if |xs| <= n then |xs| else n)
    ensures t == xs[|xs| - |t|..]
  {
    if |xs| <= n then xs else xs[|xs| - n..]
  }

  // ---------------------------------------------------------------------------
  // Arithmetic steps the solver does not take on its own

  lemma MulLeftMonotone(b: real, x: real, y: real)
    requires 0.0 <= b && x <= y
    ensures b * x <= b * y
  {
  }

  lemma QuotientAtLeast(a: real, w: real, lo: real)
    requires w > 0.0 && lo * w <= a
    ensures lo <= a / w
  {
    assert (a / w) * w == a;
  }

  lemma QuotientAtMost(a: real, w: real, hi: real)
    requires w > 0.0 && a <= hi * w
    ensures a / w <= hi
  {
    assert (a / w) * w == a;
  }

  lemma QuotientBelow(a: real, w: real, hi: real)
    requires w > 0.0 && a < hi * w
    ensures a / w < hi
  {
    assert (a / w) * w == a;
  }

  lemma QuotientNonNegative(a: real, w: real)
    requires 0.0 <= a && 0.0 < w
    ensures 0.0 <= a / w
  {
    QuotientAtLeast(a, w, 0.0);
  }

  // ---------------------------------------------------------------------------
  // Sums and means

  lemma {:induction false} SumAppend(a: seq<real>, b: seq<real>)
    ensures Sum(a + b) == Sum(a) + Sum(b)
  {
    if b == [] {
      assert a + b == a;
    } else {
      var b' := b[..|b| - 1];
      assert (a + b)[..|a + b| - 1] == a + b';
      SumAppend(a, b');
    }
  }

  lemma {:induction false} SumBounds(xs: seq<real>, lo: real, hi: real)
    requires forall i :: 0 <= i < |xs| ==> lo <= xs[i] <= hi
    ensures (|xs| as real) * lo <= Sum(xs) <= (|xs| as real) * hi
  {
    if xs != [] {
      var p := xs[..|xs| - 1];
      SumBounds(p, lo, hi);
      assert (|xs| as real) * lo == (|p| as real) * lo + lo;
      assert (|xs| as real) * hi == (|p| as real) * hi + hi;
    }
  }

  /** Every element strictly below `hi` keeps the sum strictly below `n * hi`. */
  lemma {:induction false} SumStrictlyBelow(xs: seq<real>, hi: real)
    requires |xs| > 0
    requires forall i :: 0 <= i < |xs| ==> xs[i] < hi
    ensures Sum(xs) < (|xs| as real) * hi
  {
    var p := xs[..|xs| - 1];
    if p == [] {
      assert Sum(p) == 0.0;
    } else {
      SumStrictlyBelow(p, hi);
      assert (|xs| as real) * hi == (|p| as real) * hi + hi;
    }
  }

  lemma MeanBounds(xs: seq<real>, lo: real, hi: real)
    requires |xs| > 0
    requires forall i :: 0 <= i < |xs| ==> lo <= xs[i] <= hi
    ensures lo <= Mean(xs) <= hi
  {
    SumBounds(xs, lo, hi);
    QuotientAtLeast(Sum(xs), |xs| as real, lo);
    QuotientAtMost(Sum(xs), |xs| as real, hi);
  }

  lemma MeanTimesLength(xs: seq<real>)
    requires |xs| > 0
    ensures Mean(xs) * (|xs| as real) == Sum(xs)
  {
  }

  /** The mean lies between the smallest and the largest element. */
  lemma MeanWithinExtremes(xs: seq<real>)
    requires |xs| > 0
    ensures Min(xs) <= Mean(xs) <= Max(xs)
  {
    MeanBounds(xs, Min(xs), Max(xs));
  }

  /** The mean of a constant sequence is that constant. */
  lemma MeanOfConstant(xs: seq<real>, c: real)
    requires |xs| > 0
    requires forall i :: 0 <= i < |xs| ==> xs[i] == c
    ensures Mean(xs) == c
  {
    MeanBounds(xs, c, c);
  }

  // ---------------------------------------------------------------------------
  // Filters

  lemma {:induction false} PositivesMembership(xs: seq<real>)
    ensures forall x :: x in Positives(xs) <==> x in xs && x > 0.0
    ensures |Positives(xs)| <= |xs|
  {
    if xs != [] {
      var p := xs[..|xs| - 1];
      PositivesMembership(p);
      assert xs == p + [xs[|xs| - 1]];
    }
  }

  lemma {:induction false} NegativesMembership(xs: seq<real>)
    ensures forall x :: x in Negatives(xs) <==> x in xs && x < 0.0
  {
    if xs != [] {
      var p := xs[..|xs| - 1];
      NegativesMembership(p);
      assert xs == p + [xs[|xs| - 1]];
    }
  }

  /** The mean of a nonempty list of strictly positive values is strictly positive. */
  lemma MeanOfPositivesIsPositive(xs: seq<real>)
    requires |xs| > 0
    requires forall i :: 0 <= i < |xs| ==> xs[i] > 0.0
    ensures Mean(xs) > 0.0
  {
    MeanWithinExtremes(xs);
  }

  // ---------------------------------------------------------------------------
  // Sorting and the median

  ghost predicate SortedAsc(s: seq<real>)
  {
    forall i, j :: 0 <= i < j < |s| ==> s[i] <= s[j]
  }

  function Insert(x: real, s: seq<real>): (r: seq<real>)
    ensures |r| == |s| + 1
  {
    if s == [] then [x]
    else if x <= s[0] then [x] + s
    else [s[0]] + Insert(x, s[1..])
  }

  /** Ascending insertion sort, the order numpy's median reads its input in. */
  function SortAsc(xs: seq<real>): (r: seq<real>)
    ensures |r| == |xs|
  {
    if xs == [] then [] else Insert(xs[0], SortAsc(xs[1..]))
  }

  lemma {:induction false} InsertMultiset(x: real, s: seq<real>)
    ensures multiset(Insert(x, s)) == multiset(s) + multiset{x}
  {
    if s != [] && x > s[0] {
      InsertMultiset(x, s[1..]);
      assert s == [s[0]] + s[1..];
    }
  }

  lemma {:induction false} InsertElements(x: real, s: seq<real>)
    ensures forall y :: y in Insert(x, s) <==> y == x || y in s
  {
    if s != [] && x > s[0] {
      InsertElements(x, s[1..]);
      assert s == [s[0]] + s[1..];
    }
  }

  lemma {:induction false} InsertSorted(x: real, s: seq<real>)
    requires SortedAsc(s)
    ensures SortedAsc(Insert(x, s))
  {
    if s != [] && x > s[0] {
      var t := Insert(x, s[1..]);
      InsertSorted(x, s[1..]);
      InsertElements(x, s[1..]);
      forall k | 0 <= k < |t|
        ensures s[0] <= t[k]
      {
        assert t[k] in t;
      }
    }
  }

  lemma {:induction false} SortAscCorrect(xs: seq<real>)
    ensures SortedAsc(SortAsc(xs))
    ensures multiset(SortAsc(xs)) == multiset(xs)
  {
    if xs != [] {
      SortAscCorrect(xs[1..]);
      InsertSorted(xs[0], SortAsc(xs[1..]));
      InsertMultiset(xs[0], SortAsc(xs[1..]));
      assert xs == [xs[0]] + xs[1..];
    }
  }

  /** numpy's median: the middle element of the sorted values, or the mean of
      the two middle ones when there is an even number of them. */
  function Median(xs: seq<real>): real
    requires |xs| > 0
  {
    var s := SortAsc(xs);
    var n := |s|;
    if n % 2 == 1 then s[n / 2] else (s[n / 2 - 1] + s[n / 2]) / 2.0
  }

  function MedianOrZero(xs: seq<real>): real
  {
    if xs == [] then 0.0 else Median(xs)
  }

  lemma SortedElementWithinExtremes(xs: seq<real>, k: nat)
    requires k < |xs|
    ensures Min(xs) <= SortAsc(xs)[k] <= Max(xs)
  {
    SortAscCorrect(xs);
    var v := SortAsc(xs)[k];
    assert v in multiset(SortAsc(xs));
    assert v in xs;
    var j :| 0 <= j < |xs| && xs[j] == v;
  }

  /** The median lies between the smallest and the largest element. */
  lemma MedianWithinExtremes(xs: seq<real>)
    requires |xs| > 0
    ensures Min(xs) <= Median(xs) <= Max(xs)
  {
    var s := SortAsc(xs);
    var n := |s|;
    var lo, hi := Min(xs), Max(xs);
    SortedElementWithinExtremes(xs, n / 2);
    if n % 2 == 1 {
      assert Median(xs) == s[n / 2];
    } else {
      SortedElementWithinExtremes(xs, n / 2 - 1);
      var u, v := s[n / 2 - 1], s[n / 2];
      assert Median(xs) == (u + v) / 2.0;
      assert lo <= u <= hi && lo <= v <= hi;
    }
  }

  /** The median of a nonempty list of strictly positive values is strictly positive. */
  lemma MedianOfPositivesIsPositive(xs: seq<real>)
    requires |xs| > 0
    requires forall i :: 0 <= i < |xs| ==> xs[i] > 0.0
    ensures Median(xs) > 0.0
  {
    MedianWithinExtremes(xs);
  }
}
