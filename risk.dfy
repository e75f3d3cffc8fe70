/** Risk: drawdowns against the running maximum, liquidity and market beta. */
module Risk {
  import opened Options
  import opened Stats
  import opened Indicators
  import opened Valuation

  // ---------------------------------------------------------------------------
  // Drawdowns

  /** The expanding maximum of the closes up to and including bar `i`. */
  function RunningMax(xs: seq<real>, i: nat): (m: real)
    requires i < |xs|
    ensures xs[i] <= m && xs[0] <= m
    ensures forall j :: 0 <= j <= i ==> xs[j] <= m
    ensures exists j :: 0 <= j <= i && xs[j] == m
  {
    var p := xs[..i + 1];
    assert p[i] == xs[i] && p[0] == xs[0];
    assert forall j :: 0 <= j <= i ==> p[j] == xs[j];
    Max(p)
  }

  /** `(close / running max − 1) · 100`; undefined when the running maximum is
      0, where the division gives NaN. */
  function Drawdown(xs: seq<real>, i: nat): Option<real>
    requires i < |xs|
  {
    var m := RunningMax(xs, i);
    if m == 0.0 then None else Some((xs[i] / m - 1.0) * 100.0)
  }

  function Drawdowns(xs: seq<real>): (d: seq<Option<real>>)
    ensures |d| == |xs| && forall i :: 0 <= i < |xs| ==> d[i] == Drawdown(xs, i)
  {
    seq(|xs|, i requires 0 <= i < |xs| => Drawdown(xs, i))
  }

  /** The defined entries of a column, in order: what pandas' reductions see. */
  function Defined(os: seq<Option<real>>): seq<real>
  {
    if os == [] then []
    else
      var last := os[|os| - 1];
      Defined(os[..|os| - 1]) + (if last.Some? then [last.value] else [])
  }

  datatype DrawdownStats = DrawdownStats(current: Option<real>, maximum: Option<real>, average: real)

  /** The current drawdown, the deepest one (the minimum, undefined when no
      drawdown is) and the mean of the strictly negative ones (0 if none). */
  function DrawdownStatistics(closes: seq<real>): DrawdownStats
    requires |closes| > 0
  {
    var d := Defined(Drawdowns(closes));
    DrawdownStats(Drawdown(closes, |closes| - 1),
                  if d == [] then None else Some(Min(d)),
                  MeanOrZero(Negatives(d)))
  }

  ghost predicate NonNegative(xs: seq<real>)
  {
    forall i :: 0 <= i < |xs| ==> xs[i] >= 0.0
  }

  lemma {:induction false} DefinedMembership(os: seq<Option<real>>)
    ensures forall v :: v in Defined(os) <==> Some(v) in os
  {
    if os != [] {
      var p := os[..|os| - 1];
      DefinedMembership(p);
      assert os == p + [os[|os| - 1]];
    }
  }

  /** With non-negative closes every defined drawdown lies in [−100, 0]. */
  lemma DrawdownBounds(xs: seq<real>, i: nat)
    requires i < |xs| && NonNegative(xs)
    ensures Drawdown(xs, i).Some? ==> -100.0 <= Drawdown(xs, i).value <= 0.0
  {
    var m := RunningMax(xs, i);
    if m != 0.0 {
      QuotientNonNegative(xs[i], m);
      QuotientAtMost(xs[i], m, 1.0);
    }
  }

  /** A drawdown is exactly 0 when the close is the running maximum (and that
      maximum is not 0). */
  lemma DrawdownZeroAtPeak(xs: seq<real>, i: nat)
    requires i < |xs|
    ensures Drawdown(xs, i) == Some(0.0) <==> xs[i] == RunningMax(xs, i) && RunningMax(xs, i) != 0.0
  {
    var m := RunningMax(xs, i);
    if m != 0.0 {
      var q := xs[i] / m;
      assert q * m == xs[i];
      if (q - 1.0) * 100.0 == 0.0 {
        assert q == 1.0;
      }
    }
  }

  /** A positive first close makes every running maximum positive, so every
      drawdown is defined. */
  lemma DrawdownsDefined(xs: seq<real>)
    requires |xs| > 0 && xs[0] > 0.0
    ensures forall i :: 0 <= i < |xs| ==> Drawdown(xs, i).Some?
    ensures |Defined(Drawdowns(xs))| == |xs|
  {
    DefinedLength(Drawdowns(xs));
  }

  lemma {:induction false} DefinedLength(os: seq<Option<real>>)
    requires forall i :: 0 <= i < |os| ==> os[i].Some?
    ensures |Defined(os)| == |os|
  {
    if os != [] {
      DefinedLength(os[..|os| - 1]);
    }
  }

  lemma DefinedDrawdownsBounded(xs: seq<real>)
    requires |xs| > 0 && NonNegative(xs)
    ensures forall v :: v in Defined(Drawdowns(xs)) ==> -100.0 <= v <= 0.0
  {
    var ds := Drawdowns(xs);
    DefinedMembership(ds);
    forall v | v in Defined(ds)
      ensures -100.0 <= v <= 0.0
    {
      var i :| 0 <= i < |ds| && ds[i] == Some(v);
      DrawdownBounds(xs, i);
    }
  }

  /** With non-negative closes the deepest drawdown is at most the average
      drawdown, which is at most 0; the deepest is also at most the current
      one, and with no defined drawdown the average is 0. */
  lemma DrawdownStatisticsOrdered(closes: seq<real>)
    requires |closes| > 0 && NonNegative(closes)
    ensures var s := DrawdownStatistics(closes);
      s.average <= 0.0 &&
      (s.maximum.Some? ==> -100.0 <= s.maximum.value <= s.average) &&
      (s.maximum.None? ==> s.average == 0.0 && s.current.None?) &&
      (s.current.Some? ==> s.maximum.Some? && s.maximum.value <= s.current.value <= 0.0)
  {
    var ds := Drawdowns(closes);
    var d := Defined(ds);
    var neg := Negatives(d);
    DefinedMembership(ds);
    DefinedDrawdownsBounded(closes);
    NegativesMembership(d);
    DrawdownBounds(closes, |closes| - 1);
    if d != [] {
      var lo := Min(d);
      assert lo >= -100.0 by {
        assert lo in d;
      }
      if neg != [] {
        forall k | 0 <= k < |neg|
          ensures lo <= neg[k] <= 0.0
        {
          assert neg[k] in neg;
          var j :| 0 <= j < |d| && d[j] == neg[k];
        }
        MeanBounds(neg, lo, 0.0);
      } else {
        assert lo <= 0.0 by {
          assert lo in d;
        }
      }
    } else {
      assert ds[|closes| - 1] == Drawdown(closes, |closes| - 1);
    }
    if Drawdown(closes, |closes| - 1).Some? {
      assert ds[|closes| - 1] == Drawdown(closes, |closes| - 1);
      assert Drawdown(closes, |closes| - 1).value in d;
    }
  }

  lemma DrawdownOfConstant(closes: seq<real>, c: real, i: nat)
    requires i < |closes| && c > 0.0
    requires forall k :: 0 <= k < |closes| ==> closes[k] == c
    ensures Drawdown(closes, i) == Some(0.0)
  {
    var j :| 0 <= j <= i && closes[j] == RunningMax(closes, i);
    DrawdownZeroAtPeak(closes, i);
  }

  /** Constant positive prices never draw down. */
  lemma ConstantPricesHaveNoDrawdown(closes: seq<real>, c: real)
    requires |closes| > 0 && c > 0.0
    requires forall i :: 0 <= i < |closes| ==> closes[i] == c
    ensures DrawdownStatistics(closes) == DrawdownStats(Some(0.0), Some(0.0), 0.0)
  {
    var ds := Drawdowns(closes);
    forall i | 0 <= i < |closes|
      ensures ds[i] == Some(0.0)
    {
      DrawdownOfConstant(closes, c, i);
    }
    DrawdownOfConstant(closes, c, |closes| - 1);
    var d := Defined(ds);
    DefinedMembership(ds);
    DrawdownsDefined(closes);
    forall k | 0 <= k < |d|
      ensures d[k] == 0.0
    {
      assert d[k] in d;
    }
    NoNegatives(d);
  }

  lemma {:induction false} NoNegatives(d: seq<real>)
    requires forall k :: 0 <= k < |d| ==> d[k] == 0.0
    ensures Negatives(d) == []
  {
    if d != [] {
      NoNegatives(d[..|d| - 1]);
    }
  }

  // ---------------------------------------------------------------------------
  // Liquidity and market risk

  /** Bars in the liquidity look-back. */
  const LiquidityWindow: nat := 30

  datatype Liquidity = Liquidity(avgDailyVolume: real, dollarVolume: real)

  function LiquidityOf(bars: seq<Bar>): Liquidity
    requires |bars| > 0
  {
    var avg := Mean(Tail(Volumes(bars), LiquidityWindow));
    Liquidity(avg, avg * LastClose(bars))
  }

  /** The average volume is non-negative and no larger than the largest volume
      of the last 30 bars; the dollar volume has the sign of the price. */
  lemma LiquidityBounds(bars: seq<Bar>)
    requires |bars| > 0
    ensures 0.0 <= LiquidityOf(bars).avgDailyVolume <= Max(Tail(Volumes(bars), LiquidityWindow))
    ensures LastClose(bars) >= 0.0 ==> LiquidityOf(bars).dollarVolume >= 0.0
    ensures LastClose(bars) <= 0.0 ==> LiquidityOf(bars).dollarVolume <= 0.0
  {
    AverageVolumeBounds(bars);
    DollarVolumeSign(LiquidityOf(bars), LastClose(bars));
  }

  lemma AverageVolumeBounds(bars: seq<Bar>)
    ensures var t := Tail(Volumes(bars), LiquidityWindow);
      |t| > 0 ==> 0.0 <= Mean(t) <= Max(t)
  {
    var t := Tail(Volumes(bars), LiquidityWindow);
    RecentVolumesNonNegative(bars);
    if |t| > 0 {
      MeanBounds(t, 0.0, Max(t));
    }
  }

  lemma DollarVolumeSign(l: Liquidity, price: real)
    requires 0.0 <= l.avgDailyVolume && l.dollarVolume == l.avgDailyVolume * price
    ensures price >= 0.0 ==> l.dollarVolume >= 0.0
    ensures price <= 0.0 ==> l.dollarVolume <= 0.0
  {
    ProductSign(l.avgDailyVolume, price, l.dollarVolume);
  }

  lemma RecentVolumesNonNegative(bars: seq<Bar>)
    ensures var t := Tail(Volumes(bars), LiquidityWindow);
      forall k :: 0 <= k < |t| ==> 0.0 <= t[k]
  {
    var vs := Volumes(bars);
    var t := Tail(vs, LiquidityWindow);
    forall k | 0 <= k < |t|
      ensures 0.0 <= t[k]
    {
      assert t[k] == vs[|vs| - |t| + k];
    }
  }

  /** A product `p = a · b` with `a ≥ 0` has the sign of `b`. */
  lemma ProductSign(a: real, b: real, p: real)
    requires a >= 0.0 && p == a * b
    ensures b >= 0.0 ==> p >= 0.0
    ensures b <= 0.0 ==> p <= 0.0
  {
    if b >= 0.0 {
      MulLeftMonotone(a, 0.0, b);
    } else {
      MulLeftMonotone(a, b, 0.0);
    }
  }

  /** The market beta reported by the data provider, 1.0 when it has none. */
  function Beta(info: Info): (r: real)
    ensures "beta" !in info ==> r == 1.0
  {
    Get(info, "beta", 1.0)
  }

  // ---------------------------------------------------------------------------
  // The risk figures as a whole

  /** Whether `pct_change().dropna()` keeps any one-bar return. A change from a
      0 close to a 0 close is 0/0, NaN, and dropped; any other change is kept
      (a change from 0 to a non-zero close is infinite, not NaN). The Value at
      Risk percentile raises on an empty list of returns, so the risk figures
      exist exactly when this holds. */
  predicate HasReturns(closes: seq<real>)
  {
    exists i :: 1 <= i < |closes| && KeptReturn(closes, i)
  }

  /** The return into bar `i` is not 0/0. */
  predicate KeptReturn(closes: seq<real>, i: nat)
    requires 1 <= i < |closes|
  {
    !(closes[i - 1] == 0.0 && closes[i] == 0.0)
  }

  /** A single bar has no return, so the risk figures are never available for it. */
  lemma OneBarHasNoReturns(closes: seq<real>)
    requires |closes| <= 1
    ensures !HasReturns(closes)
  {
  }

  /** Two or more bars with a non-zero first close always have a return. */
  lemma TwoBarsHaveReturns(closes: seq<real>)
    requires |closes| >= 2 && closes[0] != 0.0
    ensures HasReturns(closes)
  {
    assert KeptReturn(closes, 1);
  }

  datatype RiskSummary = RiskSummary(drawdowns: DrawdownStats, beta: real, liquidity: Liquidity)

  function RiskAnalysis(snap: Snapshot): RiskSummary
    requires HasReturns(Closes(snap.bars))
  {
    RiskSummary(DrawdownStatistics(Closes(snap.bars)), Beta(snap.info), LiquidityOf(snap.bars))
  }
}
