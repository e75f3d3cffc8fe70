/** The investment thesis: trend label, technical signals, the threshold-based
    recommendation and the summary that ties the analyses together. */
module Thesis {
  import opened Options
  import opened Stats
  import opened Indicators
  import opened Valuation
  import opened Risk

  // ---------------------------------------------------------------------------
  // Trend

  datatype Trend = Bullish | Bearish | Neutral

  function TrendText(t: Trend): string
  {
    match t
    case Bullish => "Bullish"
    case Bearish => "Bearish"
    case Neutral => "Neutral"
  }

  /** `a > b` where an undefined side makes the comparison false. */
  predicate Above(a: Option<real>, b: Option<real>)
  {
    a.Some? && b.Some? && a.value > b.value
  }

  /** The chained comparisons `price > sma50 > sma200` and `price < sma50 < sma200`. */
  function TrendOf(price: real, sma50: Option<real>, sma200: Option<real>): (t: Trend)
    ensures t == Bullish <==> sma50.Some? && sma200.Some? && price > sma50.value > sma200.value
    ensures t == Bearish <==> sma50.Some? && sma200.Some? && price < sma50.value < sma200.value
  {
    if Above(Some(price), sma50) && Above(sma50, sma200) then Bullish
    else if Above(sma50, Some(price)) && Above(sma200, sma50) then Bearish
    else Neutral
  }

  /** The trend on the last bar of the closes. */
  function TrendAtLastBar(closes: seq<real>): Trend
    requires |closes| > 0
  {
    var i := |closes| - 1;
    TrendOf(closes[i], RollingMean(closes, 50, i), RollingMean(closes, 200, i))
  }

  /** Before 200 bars there is no 200-day average, so the trend is neutral. */
  lemma ShortHistoryIsNeutral(closes: seq<real>)
    requires 0 < |closes| < 200
    ensures TrendAtLastBar(closes) == Neutral
  {
    assert RollingMean(closes, 200, |closes| - 1) == None;
  }

  /** Constant prices are neither above nor below their averages. */
  lemma ConstantPricesAreNeutral(closes: seq<real>, c: real)
    requires |closes| > 0
    requires forall k :: 0 <= k < |closes| ==> closes[k] == c
    ensures TrendAtLastBar(closes) == Neutral
  {
    var i := |closes| - 1;
    if |closes| >= 200 {
      RollingMeanOfConstant(closes, 50, i, c);
      RollingMeanOfConstant(closes, 200, i, c);
    }
  }

  /** The mean of a window whose last value is strictly above all the others
      is strictly below that last value. */
  lemma MeanBelowStrictMaximum(w: seq<real>)
    requires |w| >= 2
    requires forall k :: 0 <= k < |w| - 1 ==> w[k] < w[|w| - 1]
    ensures Mean(w) < w[|w| - 1]
  {
    var top := w[|w| - 1];
    var p := w[..|w| - 1];
    SumStrictlyBelow(p, top);
    assert Sum(w) == Sum(p) + top;
    assert (|w| as real) * top == (|p| as real) * top + top;
    QuotientBelow(Sum(w), |w| as real, top);
  }

  lemma MeanAtLeast(c: seq<real>, t: real)
    requires |c| > 0
    requires forall k :: 0 <= k < |c| ==> t <= c[k]
    ensures t <= Mean(c)
  {
    MeanBounds(c, t, Max(c));
  }

  /** Prefixing values that lie below every value of `c` lowers the mean. */
  lemma MeanOfLowerPrefix(a: seq<real>, c: seq<real>, t: real)
    requires |a| > 0 && |c| > 0
    requires forall k :: 0 <= k < |a| ==> a[k] < t
    requires forall k :: 0 <= k < |c| ==> t <= c[k]
    ensures Mean(a + c) < Mean(c)
  {
    var p, q := |a| as real, |c| as real;
    var m := Mean(c);
    MeanAtLeast(c, t);
    SumStrictlyBelow(a, t);
    MeanTimesLength(c);
    SumAppend(a, c);
    assert |a + c| as real == p + q;
    PrefixSumBelow(Sum(a), Sum(c), p, q, t, m);
    QuotientBelow(Sum(a + c), p + q, m);
  }

  /** The sum step of `MeanOfLowerPrefix`, on plain reals: `p` values summing
      below `p · t` and `q` values with mean `m ≥ t` sum below `(p + q) · m`. */
  lemma PrefixSumBelow(sa: real, sc: real, p: real, q: real, t: real, m: real)
    requires p > 0.0 && sa < p * t && t <= m && m * q == sc
    ensures sa + sc < (p + q) * m
  {
    MulLeftMonotone(p, t, m);
    assert sa + sc < p * m + q * m;
  }

  /** Strictly rising closes over at least 200 bars give a bullish trend:
      the price is above its 50-day average, which is above the 200-day one. */
  lemma RisingPricesAreBullish(closes: seq<real>)
    requires |closes| >= 200
    requires forall i, j :: 0 <= i < j < |closes| ==> closes[i] < closes[j]
    ensures TrendAtLastBar(closes) == Bullish
  {
    var n := |closes|;
    var i := n - 1;
    var w50 := Window(closes, 50, i);
    var w200 := Window(closes, 200, i);
    var a := closes[n - 200..n - 50];
    assert w50 == closes[n - 50..];
    assert w200 == a + w50;
    assert w50[49] == closes[i];
    MeanBelowStrictMaximum(w50);
    MeanOfLowerPrefix(a, w50, closes[n - 50]);
  }

  // ---------------------------------------------------------------------------
  // Technical signals

  datatype Signal = Overbought | Oversold | AboveUpperBand | BelowLowerBand

  function SignalText(s: Signal): string
  {
    match s
    case Overbought => "Overbought (RSI > 70)"
    case Oversold => "Oversold (RSI < 30)"
    case AboveUpperBand => "Above Bollinger Upper Band"
    case BelowLowerBand => "Below Bollinger Lower Band"
  }

  predicate IsRsiSignal(s: Signal)
  {
    s == Overbought || s == Oversold
  }

  /** At most one RSI signal (overbought above 70, else oversold below 30)
      followed by at most one band signal (above the upper band, else below
      the lower one). Undefined inputs raise no signal. */
  method TechnicalSignals(price: real, rsi: Option<real>, bands: Option<Bands>) returns (signals: seq<Signal>)
    ensures |signals| <= 2
    ensures Overbought in signals <==> GreaterThan(rsi, 70.0)
    ensures Oversold in signals <==> LessThan(rsi, 30.0)
    ensures AboveUpperBand in signals <==> bands.Some? && price > bands.value.upper
    ensures BelowLowerBand in signals <==>
      bands.Some? && price < bands.value.lower && !(price > bands.value.upper)
    ensures |signals| == 2 ==> IsRsiSignal(signals[0]) && !IsRsiSignal(signals[1])
  {
    signals := [];
    if GreaterThan(rsi, 70.0) {
      signals := signals + [Overbought];
    } else if LessThan(rsi, 30.0) {
      signals := signals + [Oversold];
    }
    if bands.Some? && price > bands.value.upper {
      signals := signals + [AboveUpperBand];
    } else if bands.Some? && price < bands.value.lower {
      signals := signals + [BelowLowerBand];
    }
  }

  // ---------------------------------------------------------------------------
  // Recommendation

  datatype Recommendation = Buy | Overweight | Hold | Underweight

  function RecommendationText(r: Recommendation): string
  {
    match r
    case Buy => "BUY"
    case Overweight => "OVERWEIGHT"
    case Hold => "HOLD"
    case Underweight => "UNDERWEIGHT"
  }

  /** Strict thresholds on the upside to the average target, in percent. */
  function Recommend(upside: real): (r: Recommendation)
    ensures r == Buy <==> upside > 20.0
    ensures r == Overweight <==> 10.0 < upside <= 20.0
    ensures r == Hold <==> -10.0 < upside <= 10.0
    ensures r == Underweight <==> upside <= -10.0
  {
    if upside > 20.0 then Buy
    else if upside > 10.0 then Overweight
    else if upside > -10.0 then Hold
    else Underweight
  }

  /** The strength of a recommendation, weakest first. */
  function Rank(r: Recommendation): nat
  {
    match r
    case Underweight => 0
    case Hold => 1
    case Overweight => 2
    case Buy => 3
  }

  /** A larger upside never gives a weaker recommendation. */
  lemma RecommendMonotone(u: real, v: real)
    requires u <= v
    ensures Rank(Recommend(u)) <= Rank(Recommend(v))
  {
  }

  /** In terms of the target itself: with a positive price, BUY means a target
      more than 20% above the price and UNDERWEIGHT one at least 10% below it. */
  lemma RecommendationFromTarget(target: real, price: real)
    requires price > 0.0
    ensures Recommend(Upside(target, price)) == Buy <==> target > 1.2 * price
    ensures Recommend(Upside(target, price)) == Underweight <==> target <= 0.9 * price
  {
    var q := (target - price) / price;
    assert Upside(target, price) == q * 100.0;
    ScaledComparisons(q, price, target - price);
  }

  /** Comparing `q` with a constant is comparing `q · p` with that constant
      times `p`, for positive `p`. */
  lemma ScaledComparisons(q: real, p: real, d: real)
    requires p > 0.0 && d == q * p
    ensures q > 0.2 <==> d > 0.2 * p
    ensures q <= -0.1 <==> d <= -0.1 * p
  {
  }

  /** With no price the upside is 0 and the recommendation is HOLD. */
  lemma NoPriceMeansHold(target: real, price: real)
    requires price <= 0.0
    ensures Recommend(Upside(target, price)) == Hold
  {
  }

  // ---------------------------------------------------------------------------
  // Peer standing

  datatype PeerStanding = Outperforming | Underperforming

  /** Outperforming when the company's P/E is below the peer median. */
  function VsPeers(pe: real, peerMedianPe: real): PeerStanding
  {
    if pe < peerMedianPe then Outperforming else Underperforming
  }

  /** A company with no P/E on record reports 0, so it is labelled as
      outperforming exactly when some present main peer has a positive P/E. */
  lemma MissingPeLooksOutperforming(info: Info, peers: PeerData)
    requires "forwardPE" !in info && "trailingPE" !in info
    ensures VsPeers(PeRatio(info), PeerMultiplesOf(peers).peMedian) == Outperforming
        <==> exists i :: 0 <= i < 5 && MainPeers[i] in peers && peers[MainPeers[i]].pe > 0.0
  {
    PeerStatisticsSign(peers);
    PeerPesCharacterized(peers);
    if exists i :: 0 <= i < 5 && MainPeers[i] in peers && peers[MainPeers[i]].pe > 0.0 {
      var i :| 0 <= i < 5 && MainPeers[i] in peers && peers[MainPeers[i]].pe > 0.0;
      assert peers[MainPeers[i]].pe in PeerPes(peers, 5);
    }
    if PeerPes(peers, 5) != [] {
      assert PeerPes(peers, 5)[0] in PeerPes(peers, 5);
    }
  }

  // ---------------------------------------------------------------------------
  // The thesis

  datatype KeyMetrics = KeyMetrics(pe: real, pb: real, marketCapBn: real, beta: real, rsi: Option<real>)

  datatype PeerComparison = PeerComparison(vsPeers: PeerStanding, peerMedianPe: real, peerMedianPb: real)

  datatype InvestmentThesis = InvestmentThesis(
    company: string, symbol: string, currentPrice: real, recommendation: Recommendation,
    priceTarget: real, upsidePotential: real, trend: Trend, signals: seq<Signal>,
    keyMetrics: KeyMetrics, maxDrawdown: Option<real>, peerComparison: PeerComparison)

  /** The price, trend, RSI and signals of the last bar of the closes. */
  method TechnicalView(closes: seq<real>, sqrt: real -> real)
    returns (price: real, trend: Trend, rsi: Option<real>, signals: seq<Signal>)
    requires |closes| > 0
    ensures price == closes[|closes| - 1]
    ensures trend == TrendAtLastBar(closes)
    ensures rsi == Rsi(closes, |closes| - 1)
    ensures |signals| <= 2
    ensures Overbought in signals <==> GreaterThan(rsi, 70.0)
    ensures Oversold in signals <==> LessThan(rsi, 30.0)
    ensures var bands := Bollinger(closes, |closes| - 1, sqrt);
      (AboveUpperBand in signals <==> bands.Some? && price > bands.value.upper) &&
      (BelowLowerBand in signals <==>
         bands.Some? && price < bands.value.lower && !(price > bands.value.upper))
    ensures |signals| == 2 ==> IsRsiSignal(signals[0]) && !IsRsiSignal(signals[1])
  {
    var i := |closes| - 1;
    price := closes[i];
    rsi := Rsi(closes, i);
    trend := TrendAtLastBar(closes);
    signals := TechnicalSignals(price, rsi, Bollinger(closes, i, sqrt));
  }

  /** The figures the thesis takes from the valuation; `beta` and `rsi`, from
      the risk analysis and the last bar, complete the key metrics. */
  method ValuationFigures(snap: Snapshot, beta: real, rsi: Option<real>)
    returns (target: real, upside: real, metrics: KeyMetrics, comparison: PeerComparison)
    requires |snap.bars| > 0
    ensures target == PriceTargets(snap.bars, snap.info, PeerMultiplesOf(snap.peers),
                                   DcfOf(Closes(snap.bars), snap.info)).averageTarget
    ensures upside == Upside(target, LastClose(snap.bars))
    ensures metrics.pe == PeRatio(snap.info) && metrics.pb == Get(snap.info, "priceToBook", 0.0)
    ensures metrics.marketCapBn == Get(snap.info, "marketCap", 0.0) / 1000000000.0
    ensures metrics.beta == beta && metrics.rsi == rsi
    ensures var m := PeerMultiplesOf(snap.peers);
      comparison == PeerComparison(VsPeers(PeRatio(snap.info), m.peMedian), m.peMedian, m.pbMedian)
  {
    var valuation := PerformValuationAnalysis(snap);
    var current := valuation.current;
    assert current == CurrentMetricsOf(snap.bars, snap.info);
    assert current.marketCap == Get(snap.info, "marketCap", 0.0);
    assert current.pb == Get(snap.info, "priceToBook", 0.0);
    target := valuation.targets.averageTarget;
    upside := valuation.targets.upside;
    metrics := KeyMetrics(current.pe, current.pb, current.marketCap / 1000000000.0, beta, rsi);
    comparison := PeerComparison(VsPeers(valuation.current.pe, valuation.peers.peMedian),
                                 valuation.peers.peMedian, valuation.peers.pbMedian);
  }

  /** The figures the thesis takes from the risk analysis. */
  method RiskFigures(snap: Snapshot) returns (beta: real, maxDrawdown: Option<real>)
    requires HasReturns(Closes(snap.bars))
    ensures beta == Beta(snap.info)
    ensures maxDrawdown == DrawdownStatistics(Closes(snap.bars)).maximum
  {
    var risk := RiskAnalysis(snap);
    beta := risk.beta;
    maxDrawdown := risk.drawdowns.maximum;
  }

  /** Runs the technical, valuation and risk analyses on the snapshot and
      summarises them; `sqrt` is the square root the Bollinger bands use. */
  method GenerateInvestmentThesis(snap: Snapshot, sqrt: real -> real) returns (t: InvestmentThesis)
    requires HasReturns(Closes(snap.bars))
    ensures t.company == snap.companyName && t.symbol == snap.symbol
    ensures t.currentPrice == LastClose(snap.bars)
    ensures t.trend == TrendAtLastBar(Closes(snap.bars))
    ensures t.priceTarget == PriceTargets(snap.bars, snap.info, PeerMultiplesOf(snap.peers),
                                          DcfOf(Closes(snap.bars), snap.info)).averageTarget
    ensures t.upsidePotential == Upside(t.priceTarget, t.currentPrice)
    ensures t.recommendation == Recommend(t.upsidePotential)
    ensures |t.signals| <= 2
    ensures var closes := Closes(snap.bars);
      var rsi := Rsi(closes, |closes| - 1);
      (Overbought in t.signals <==> GreaterThan(rsi, 70.0)) &&
      (Oversold in t.signals <==> LessThan(rsi, 30.0))
    ensures var closes := Closes(snap.bars);
      var price := closes[|closes| - 1];
      var bands := Bollinger(closes, |closes| - 1, sqrt);
      (AboveUpperBand in t.signals <==> bands.Some? && price > bands.value.upper) &&
      (BelowLowerBand in t.signals <==>
         bands.Some? && price < bands.value.lower && !(price > bands.value.upper))
    ensures |t.signals| == 2 ==> IsRsiSignal(t.signals[0]) && !IsRsiSignal(t.signals[1])
    ensures t.keyMetrics.pe == PeRatio(snap.info) && t.keyMetrics.pb == Get(snap.info, "priceToBook", 0.0)
    ensures t.keyMetrics.marketCapBn == Get(snap.info, "marketCap", 0.0) / 1000000000.0
    ensures var closes := Closes(snap.bars);
      t.keyMetrics.beta == Beta(snap.info) && t.keyMetrics.rsi == Rsi(closes, |closes| - 1)
    ensures var m := PeerMultiplesOf(snap.peers);
      t.peerComparison == PeerComparison(VsPeers(PeRatio(snap.info), m.peMedian), m.peMedian, m.pbMedian)
    ensures t.maxDrawdown == DrawdownStatistics(Closes(snap.bars)).maximum
  {
    var closes := Closes(snap.bars);
    var price, trend, rsi, signals := TechnicalView(closes, sqrt);
    var beta, maxDrawdown := RiskFigures(snap);
    var target, upside, metrics, comparison := ValuationFigures(snap, beta, rsi);
    t := InvestmentThesis(snap.companyName, snap.symbol, price, Recommend(upside), target, upside,
                          trend, signals, metrics, maxDrawdown, comparison);
  }
}
