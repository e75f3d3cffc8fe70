/** The technical indicators the engine derives from the daily bars: simple
    and exponential moving averages, MACD, RSI, Bollinger bands, the volume
    average and ratio, and k-day returns. Every indicator is a per-bar value;
    a value pandas leaves as NaN (or as an infinity) is None here. */
module Indicators {
  import opened Options
  import opened Stats

  /** One trading day. The engine reads the close, high, low and volume. */
  datatype Bar = Bar(close: real, high: real, low: real, volume: nat)

  function Closes(bars: seq<Bar>): (xs: seq<real>)
    ensures |xs| == |bars|
    ensures forall i :: 0 <= i < |bars| ==> xs[i] == bars[i].close
  {
    seq(|bars|, i requires 0 <= i < |bars| => bars[i].close)
  }

  function Volumes(bars: seq<Bar>): (vs: seq<real>)
    ensures |vs| == |bars|
    ensures forall i :: 0 <= i < |bars| ==> vs[i] == bars[i].volume as real
  {
    seq(|bars|, i requires 0 <= i < |bars| => bars[i].volume as real)
  }

  // ---------------------------------------------------------------------------
  // Rolling windows (`rolling(window=n).mean()`)

  /** The trailing window of `n` values that ends at index `i`. */
  function Window(xs: seq<real>, n: nat, i: nat): (w: seq<real>)
    requires 1 <= n <= i + 1 && i < |xs|
    ensures |w| == n
    ensures forall k :: 0 <= k < n ==> w[k] == xs[i + 1 - n + k]
  {
    xs[i + 1 - n .. i + 1]
  }

  /** The rolling mean at index `i`: NaN until a full window of `n` values exists. */
  function RollingMean(xs: seq<real>, n: nat, i: nat): Option<real>
    requires 1 <= n && i < |xs|
  {
    if i + 1 < n then None else Some(Mean(Window(xs, n, i)))
  }

  /** The rolling-mean column aligned with the input: SMA(n) of the closes. */
  function Sma(xs: seq<real>, n: nat): (r: seq<Option<real>>)
    requires 1 <= n
    ensures |r| == |xs|
    ensures forall i :: 0 <= i < |xs| ==> (r[i].None? <==> i < n - 1)
    ensures forall i :: n - 1 <= i < |xs| ==> r[i] == Some(Mean(xs[i + 1 - n .. i + 1]))
  {
    seq(|xs|, i requires 0 <= i < |xs| => RollingMean(xs, n, i))
  }

  /** A defined rolling mean lies between the least and the greatest value of its window. */
  lemma RollingMeanWithinWindow(xs: seq<real>, n: nat, i: nat)
    requires 1 <= n <= i + 1 && i < |xs|
    ensures RollingMean(xs, n, i).Some?
    ensures Min(Window(xs, n, i)) <= RollingMean(xs, n, i).value <= Max(Window(xs, n, i))
  {
    MeanWithinExtremes(Window(xs, n, i));
  }

  /** Over a window of constant values the rolling mean is that constant. */
  lemma RollingMeanOfConstant(xs: seq<real>, n: nat, i: nat, c: real)
    requires 1 <= n <= i + 1 && i < |xs|
    requires forall k :: 0 <= k < |xs| ==> xs[k] == c
    ensures RollingMean(xs, n, i) == Some(c)
  {
    MeanOfConstant(Window(xs, n, i), c);
  }

  /** Sliding the window one bar forward adds the new value and drops the
      oldest: n·SMA[i+1] = n·SMA[i] + x[i+1] − x[i+1−n]. */
  lemma RollingMeanSlide(xs: seq<real>, n: nat, i: nat)
    requires 1 <= n <= i + 1 && i + 1 < |xs|
    ensures (n as real) * RollingMean(xs, n, i + 1).value
         == (n as real) * RollingMean(xs, n, i).value + xs[i + 1] - xs[i + 1 - n]
  {
    var mid := xs[i + 2 - n .. i + 1];
    WindowSums(xs, n, i);
    var w := Window(xs, n, i);
    var w' := Window(xs, n, i + 1);
    assert RollingMean(xs, n, i) == Some(Mean(w));
    assert RollingMean(xs, n, i + 1) == Some(Mean(w'));
    SlideStep(Mean(w), Mean(w'), Sum(mid), xs[i + 1 - n], xs[i + 1], n as real, Sum(w), Sum(w'));
  }

  /** The windows ending at `i` and at `i + 1` share all values but the
      oldest of the first and the newest of the second. */
  lemma WindowSums(xs: seq<real>, n: nat, i: nat)
    requires 1 <= n <= i + 1 && i + 1 < |xs|
    ensures Sum(Window(xs, n, i)) == xs[i + 1 - n] + Sum(xs[i + 2 - n .. i + 1])
    ensures Sum(Window(xs, n, i + 1)) == Sum(xs[i + 2 - n .. i + 1]) + xs[i + 1]
  {
    var mid := xs[i + 2 - n .. i + 1];
    assert Window(xs, n, i) == [xs[i + 1 - n]] + mid;
    assert Window(xs, n, i + 1) == mid + [xs[i + 1]];
    SumAppend([xs[i + 1 - n]], mid);
    SumAppend(mid, [xs[i + 1]]);
    assert Sum([xs[i + 1 - n]]) == xs[i + 1 - n] by {
      assert [xs[i + 1 - n]][..0] == [];
    }
    assert Sum([xs[i + 1]]) == xs[i + 1] by {
      assert [xs[i + 1]][..0] == [];
    }
  }

  /** The arithmetic of one slide, on plain reals: a window summing to
      `oldest + mid` and the next one summing to `mid + newest`, both of
      length `n`. */
  lemma SlideStep(m: real, m': real, mid: real, oldest: real, newest: real, n: real, s: real, s': real)
    requires n > 0.0 && m == s / n && m' == s' / n
    requires s == oldest + mid && s' == mid + newest
    ensures n * m' == n * m + newest - oldest
  {
    assert m * n == s && m' * n == s';
  }

  // ---------------------------------------------------------------------------
  // Exponential moving averages (`ewm(span=s).mean()`, default adjust=True)

  /** 1 − α with α = 2/(span + 1). */
  function Decay(span: nat): (b: real)
    requires span >= 1
    ensures 0.0 <= b < 1.0
  {
    (span as real - 1.0) / (span as real + 1.0)
  }

  /** Σ_k b^k · x[t−k]: the numerator of the adjusted exponential average. */
  function WeightedSum(xs: seq<real>, b: real): real
  {
    if xs == [] then 0.0 else b * WeightedSum(xs[..|xs| - 1], b) + xs[|xs| - 1]
  }

  /** Σ_{k<n} b^k: the denominator of the adjusted exponential average. */
  function TotalWeight(n: nat, b: real): (w: real)
    ensures 0.0 <= b ==> 0.0 <= w
    ensures 0.0 <= b && n >= 1 ==> w >= 1.0
  {
    if n == 0 then 0.0
    else
      var w' := TotalWeight(n - 1, b);
      assert 0.0 <= b ==> 0.0 <= b * w';
      b * w' + 1.0
  }

  /** The exponential average of a whole prefix, seeded by its first value
      and weighting the value k bars back by (1 − α)^k. */
  function Ewm(xs: seq<real>, span: nat): real
    requires |xs| > 0 && span >= 1
  {
    WeightedSum(xs, Decay(span)) / TotalWeight(|xs|, Decay(span))
  }

  lemma {:induction false} WeightedSumAtLeast(xs: seq<real>, b: real, lo: real)
    requires 0.0 <= b
    requires forall i :: 0 <= i < |xs| ==> lo <= xs[i]
    ensures lo * TotalWeight(|xs|, b) <= WeightedSum(xs, b)
  {
    if xs != [] {
      var p := xs[..|xs| - 1];
      WeightedSumAtLeast(p, b, lo);
      LowerStep(lo, b, WeightedSum(p, b), TotalWeight(|p|, b), xs[|xs| - 1],
                TotalWeight(|xs|, b), WeightedSum(xs, b));
    }
  }

  lemma {:induction false} WeightedSumAtMost(xs: seq<real>, b: real, hi: real)
    requires 0.0 <= b
    requires forall i :: 0 <= i < |xs| ==> xs[i] <= hi
    ensures WeightedSum(xs, b) <= hi * TotalWeight(|xs|, b)
  {
    if xs != [] {
      var p := xs[..|xs| - 1];
      WeightedSumAtMost(p, b, hi);
      UpperStep(hi, b, WeightedSum(p, b), TotalWeight(|p|, b), xs[|xs| - 1],
                TotalWeight(|xs|, b), WeightedSum(xs, b));
    }
  }

  /** One induction step of the lower bound above, with every quantity named. */
  lemma LowerStep(lo: real, b: real, s: real, w: real, x: real, t: real, u: real)
    requires 0.0 <= b
    requires lo * w <= s && lo <= x
    requires t == b * w + 1.0 && u == b * s + x
    ensures lo * t <= u
  {
    MulLeftMonotone(b, lo * w, s);
    assert lo * t == b * (lo * w) + lo;
  }

  lemma UpperStep(hi: real, b: real, s: real, w: real, x: real, t: real, u: real)
    requires 0.0 <= b
    requires s <= hi * w && x <= hi
    requires t == b * w + 1.0 && u == b * s + x
    ensures u <= hi * t
  {
    MulLeftMonotone(b, s, hi * w);
    assert hi * t == b * (hi * w) + hi;
  }

  /** A weighted average with weights b^k (b >= 0) is at least its least value ... */
  lemma WeightedAverageAtLeast(xs: seq<real>, b: real)
    requires |xs| > 0 && 0.0 <= b
    ensures Min(xs) <= WeightedSum(xs, b) / TotalWeight(|xs|, b)
  {
    WeightedSumAtLeast(xs, b, Min(xs));
    QuotientAtLeast(WeightedSum(xs, b), TotalWeight(|xs|, b), Min(xs));
  }

  /** ... and at most its greatest value. */
  lemma WeightedAverageAtMost(xs: seq<real>, b: real)
    requires |xs| > 0 && 0.0 <= b
    ensures WeightedSum(xs, b) / TotalWeight(|xs|, b) <= Max(xs)
  {
    WeightedSumAtMost(xs, b, Max(xs));
    QuotientAtMost(WeightedSum(xs, b), TotalWeight(|xs|, b), Max(xs));
  }

  /** An exponential average lies between the least and greatest value averaged. */
  lemma EwmWithinExtremes(xs: seq<real>, span: nat)
    requires |xs| > 0 && span >= 1
    ensures Min(xs) <= Ewm(xs, span) <= Max(xs)
  {
    WeightedAverageAtLeast(xs, Decay(span));
    WeightedAverageAtMost(xs, Decay(span));
  }

  /** The first value of the adjusted average is the first input. */
  lemma EwmSeed(x: real, span: nat)
    requires span >= 1
    ensures Ewm([x], span) == x
  {
    var b := Decay(span);
    assert [x][..0] == [];
    assert WeightedSum([x], b) == x by {
      assert b * 0.0 == 0.0;
    }
    assert TotalWeight(1, b) == 1.0 by {
      assert b * 0.0 == 0.0;
    }
  }

  /** The value of the MACD line on the last bar of a prefix of closes. */
  function Macd(prefix: seq<real>): real
    requires |prefix| > 0
  {
    Ewm(prefix, 12) - Ewm(prefix, 26)
  }

  /** The MACD line over every prefix of `xs`. */
  function MacdSeries(xs: seq<real>): (m: seq<real>)
    ensures |m| == |xs|
  {
    seq(|xs|, j requires 0 <= j < |xs| => Macd(xs[..j + 1]))
  }

  /** The MACD signal line: the span-9 average of the MACD line. */
  function MacdSignal(prefix: seq<real>): real
    requires |prefix| > 0
  {
    Ewm(MacdSeries(prefix), 9)
  }

  /** The MACD histogram: the MACD line minus its signal line. */
  function MacdHistogram(prefix: seq<real>): real
    requires |prefix| > 0
  {
    Macd(prefix) - MacdSignal(prefix)
  }

  /** Over constant closes both averages are the close, so the MACD line,
      its signal and the histogram are all zero. */
  lemma MacdOfConstant(prefix: seq<real>, c: real)
    requires |prefix| > 0
    requires forall k :: 0 <= k < |prefix| ==> prefix[k] == c
    ensures Macd(prefix) == 0.0
    ensures MacdSignal(prefix) == 0.0
    ensures MacdHistogram(prefix) == 0.0
  {
    EwmWithinExtremes(prefix, 12);
    EwmWithinExtremes(prefix, 26);
    var m := MacdSeries(prefix);
    forall j | 0 <= j < |prefix|
      ensures m[j] == 0.0
    {
      var p := prefix[..j + 1];
      EwmWithinExtremes(p, 12);
      EwmWithinExtremes(p, 26);
    }
    EwmWithinExtremes(m, 9);
  }

  // ---------------------------------------------------------------------------
  // RSI(14)

  /** `delta.where(delta > 0, 0)`: the first delta is NaN, which fails the
      test and so becomes 0. */
  function Gains(xs: seq<real>): (g: seq<real>)
    ensures |g| == |xs|
    ensures forall i :: 0 <= i < |xs| ==> g[i] >= 0.0
  {
    seq(|xs|, i requires 0 <= i < |xs| =>
      if i == 0 then 0.0
      else if xs[i] - xs[i - 1] > 0.0 then xs[i] - xs[i - 1] else 0.0)
  }

  /** `-delta.where(delta < 0, 0)`, with the same treatment of the first delta. */
  function Losses(xs: seq<real>): (l: seq<real>)
    ensures |l| == |xs|
    ensures forall i :: 0 <= i < |xs| ==> l[i] >= 0.0
  {
    seq(|xs|, i requires 0 <= i < |xs| =>
      if i == 0 then 0.0
      else if xs[i] - xs[i - 1] < 0.0 then xs[i - 1] - xs[i] else 0.0)
  }

  /** Gain and loss split each price change: their difference is the change,
      at most one of them is non-zero, and both are 0 on the first bar. */
  lemma GainsAndLossesSplitChanges(xs: seq<real>)
    requires |xs| > 0
    ensures Gains(xs)[0] == 0.0 && Losses(xs)[0] == 0.0
    ensures forall i :: 0 < i < |xs| ==> Gains(xs)[i] - Losses(xs)[i] == xs[i] - xs[i - 1]
    ensures forall i :: 0 <= i < |xs| ==> Gains(xs)[i] == 0.0 || Losses(xs)[i] == 0.0
  {
  }

  const RsiWindow: nat := 14

  function AverageGain(xs: seq<real>, i: nat): Option<real>
    requires i < |xs|
  {
    RollingMean(Gains(xs), RsiWindow, i)
  }

  function AverageLoss(xs: seq<real>, i: nat): Option<real>
    requires i < |xs|
  {
    RollingMean(Losses(xs), RsiWindow, i)
  }

  /** RSI = 100 − 100/(1 + gain/loss). A zero average loss makes RS infinite
      (RSI 100) when the gain is positive, and NaN when the gain is zero too. */
  function Rsi(xs: seq<real>, i: nat): Option<real>
    requires i < |xs|
  {
    if i + 1 < RsiWindow then None
    else
      AveragesNonNegative(xs, i);
      var g, l := AverageGain(xs, i).value, AverageLoss(xs, i).value;
      if l == 0.0 then (if g > 0.0 then Some(100.0) else None)
      else
        QuotientNonNegative(g, l);
        Some(100.0 - 100.0 / (1.0 + g / l))
  }

  lemma AveragesNonNegative(xs: seq<real>, i: nat)
    requires RsiWindow - 1 <= i < |xs|
    ensures AverageGain(xs, i).Some? && AverageGain(xs, i).value >= 0.0
    ensures AverageLoss(xs, i).Some? && AverageLoss(xs, i).value >= 0.0
  {
    RollingMeanWithinWindow(Gains(xs), RsiWindow, i);
    RollingMeanWithinWindow(Losses(xs), RsiWindow, i);
  }

  /** RSI is defined from the 14th bar on, except where both averages are
      zero; it always lies in [0, 100]; and it is exactly 100 when and only
      when the average loss is zero and the average gain positive. */
  lemma RsiProperties(xs: seq<real>, i: nat)
    requires i < |xs|
    ensures Rsi(xs, i).Some? <==>
      i >= RsiWindow - 1 && !(AverageGain(xs, i) == Some(0.0) && AverageLoss(xs, i) == Some(0.0))
    ensures Rsi(xs, i).Some? ==> 0.0 <= Rsi(xs, i).value <= 100.0
    ensures Rsi(xs, i) == Some(100.0) <==>
      i >= RsiWindow - 1 && AverageLoss(xs, i) == Some(0.0) && AverageGain(xs, i).value > 0.0
  {
    if i >= RsiWindow - 1 {
      AveragesNonNegative(xs, i);
      var g, l := AverageGain(xs, i).value, AverageLoss(xs, i).value;
      if l != 0.0 {
        var rs := g / l;
        QuotientNonNegative(g, l);
        var q := 100.0 / (1.0 + rs);
        QuotientAtMost(100.0, 1.0 + rs, 100.0);
        assert q * (1.0 + rs) == 100.0;
        assert 0.0 < q;
      }
    }
  }

  /** Over constant closes every change is zero, so RSI is undefined on every bar. */
  lemma RsiOfConstantIsUndefined(xs: seq<real>, i: nat, c: real)
    requires i < |xs|
    requires forall k :: 0 <= k < |xs| ==> xs[k] == c
    ensures Rsi(xs, i).None?
  {
    if i >= RsiWindow - 1 {
      var g, l := Gains(xs), Losses(xs);
      assert forall k :: 0 <= k < |xs| ==> g[k] == 0.0;
      assert forall k :: 0 <= k < |xs| ==> l[k] == 0.0;
      RollingMeanOfConstant(g, RsiWindow, i, 0.0);
      RollingMeanOfConstant(l, RsiWindow, i, 0.0);
    }
  }

  // ---------------------------------------------------------------------------
  // Bollinger bands (20 bars, middle ± 2 sample standard deviations)

  const BollingerWindow: nat := 20

  /** What the model assumes of the square root: it is never negative. */
  ghost predicate NonNegRoot(sqrt: real -> real)
  {
    forall v :: 0.0 <= v ==> 0.0 <= sqrt(v)
  }

  function SquaredDeviations(w: seq<real>, m: real): real
  {
    if w == [] then 0.0
    else
      var d := w[|w| - 1] - m;
      SquaredDeviations(w[..|w| - 1], m) + d * d
  }

  /** The sample variance (pandas' `std` uses ddof = 1). */
  function SampleVariance(w: seq<real>): real
    requires |w| >= 2
  {
    SquaredDeviations(w, Mean(w)) / ((|w| - 1) as real)
  }

  lemma {:induction false} SquaredDeviationsNonNegative(w: seq<real>, m: real)
    ensures SquaredDeviations(w, m) >= 0.0
  {
    if w != [] {
      SquaredDeviationsNonNegative(w[..|w| - 1], m);
      var d := w[|w| - 1] - m;
      assert d * d >= 0.0;
    }
  }

  lemma SampleVarianceNonNegative(w: seq<real>)
    requires |w| >= 2
    ensures SampleVariance(w) >= 0.0
  {
    SquaredDeviationsNonNegative(w, Mean(w));
  }

  datatype Bands = Bands(upper: real, middle: real, lower: real)

  function Bollinger(xs: seq<real>, i: nat, sqrt: real -> real): Option<Bands>
    requires i < |xs|
  {
    if i + 1 < BollingerWindow then None
    else
      var w := Window(xs, BollingerWindow, i);
      var sd := sqrt(SampleVariance(w));
      Some(Bands(Mean(w) + sd * 2.0, Mean(w), Mean(w) - sd * 2.0))
  }

  /** Wherever the bands are defined: upper ≥ middle ≥ lower, the middle band
      is SMA(20), and the two bands are the same distance from it. */
  lemma BollingerOrdered(xs: seq<real>, i: nat, sqrt: real -> real)
    requires i < |xs|
    requires NonNegRoot(sqrt)
    ensures Bollinger(xs, i, sqrt).Some? <==> i >= BollingerWindow - 1
    ensures Bollinger(xs, i, sqrt).Some? ==>
      var b := Bollinger(xs, i, sqrt).value;
      && b.lower <= b.middle <= b.upper
      && Some(b.middle) == RollingMean(xs, BollingerWindow, i)
      && b.upper - b.middle == b.middle - b.lower
  {
    if i + 1 >= BollingerWindow {
      SampleVarianceNonNegative(Window(xs, BollingerWindow, i));
    }
  }

  // ---------------------------------------------------------------------------
  // Volume and returns

  const VolumeWindow: nat := 20

  function VolumeSma(bars: seq<Bar>, i: nat): Option<real>
    requires i < |bars|
  {
    RollingMean(Volumes(bars), VolumeWindow, i)
  }

  /** `Volume / Volume_SMA`; a zero average means a window of zero volumes, 0/0. */
  function VolumeRatio(bars: seq<Bar>, i: nat): Option<real>
    requires i < |bars|
  {
    match VolumeSma(bars, i)
    case Some(m) => if m == 0.0 then None else Some(bars[i].volume as real / m)
    case None => None
  }

  lemma {:induction false} SumNonNegative(xs: seq<real>)
    requires forall k :: 0 <= k < |xs| ==> xs[k] >= 0.0
    ensures Sum(xs) >= 0.0
  {
    if xs != [] {
      SumNonNegative(xs[..|xs| - 1]);
    }
  }

  /** The volume ratio is never negative and never exceeds the window length,
      since today's volume is itself one of the 20 non-negative volumes averaged. */
  lemma VolumeRatioBounds(bars: seq<Bar>, i: nat)
    requires i < |bars|
    ensures VolumeRatio(bars, i).Some? ==> 0.0 <= VolumeRatio(bars, i).value <= VolumeWindow as real
  {
    if VolumeRatio(bars, i).Some? {
      var w := Window(Volumes(bars), VolumeWindow, i);
      var m := VolumeSma(bars, i).value;
      var v := bars[i].volume as real;
      SumNonNegative(w[..|w| - 1]);
      assert w[|w| - 1] == v;
      assert Sum(w) >= v >= 0.0;
      assert m * (VolumeWindow as real) == Sum(w);
      assert m > 0.0;
      var r := v / m;
      assert r * m == v;
    }
  }

  /** `pct_change(k)`: x[i]/x[i−k] − 1, NaN for the first k bars; a zero base
      close gives a non-finite value, left undefined. */
  function PctChange(xs: seq<real>, k: nat, i: nat): Option<real>
    requires i < |xs|
  {
    if i < k || xs[i - k] == 0.0 then None else Some(xs[i] / xs[i - k] - 1.0)
  }

  /** A (a+b)-bar return compounds an a-bar return with the b-bar return before it. */
  lemma PctChangeCompounds(xs: seq<real>, a: nat, b: nat, i: nat)
    requires i < |xs| && a + b <= i
    requires xs[i - a] != 0.0 && xs[i - a - b] != 0.0
    ensures 1.0 + PctChange(xs, a + b, i).value
         == (1.0 + PctChange(xs, a, i).value) * (1.0 + PctChange(xs, b, i - a).value)
  {
    var x, y, z := xs[i], xs[i - a], xs[i - a - b];
    assert x / z == (x / y) * (y / z);
  }

  /** Over constant non-zero closes every k-bar return after the first k bars is zero. */
  lemma PctChangeOfConstant(xs: seq<real>, k: nat, i: nat, c: real)
    requires k <= i < |xs| && c != 0.0
    requires forall j :: 0 <= j < |xs| ==> xs[j] == c
    ensures PctChange(xs, k, i) == Some(0.0)
  {
    assert xs[i] == c && xs[i - k] == c;
    assert c / c == 1.0;
  }
}
