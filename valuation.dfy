/** Valuation: current multiples, peer-multiple statistics, the simplified
    five-year discounted-cash-flow model and the blended price targets. */
module Valuation {
  import opened Options
  import opened Stats
  import opened Indicators

  // ---------------------------------------------------------------------------
  // The loaded data

  /** The company fundamentals, keyed as in the provider's JSON (`marketCap`,
      `forwardPE`, ...). A key that is absent takes the caller's default. */
  type Info = map<string, real>

  function Get(info: Info, key: string, default: real): (r: real)
    ensures key in info ==> r == info[key]
    ensures key !in info ==> r == default
  {
    if key in info then info[key] else default
  }

  /** One entry of the peer file: the peer's P/E, P/B and market cap. */
  datatype PeerRecord = PeerRecord(pe: real, pb: real, marketCap: real)

  type PeerData = map<string, PeerRecord>

  /** Everything the engine reads: the daily bars, the fundamentals and the
      peer table, fixed once loaded. */
  datatype Snapshot = Snapshot(symbol: string, companyName: string,
                               bars: seq<Bar>, info: Info, peers: PeerData)

  /** The close of the last bar, the last entry of the close column. */
  function LastClose(bars: seq<Bar>): (c: real)
    requires |bars| > 0
    ensures c == Closes(bars)[|bars| - 1]
  {
    bars[|bars| - 1].close
  }

  // ---------------------------------------------------------------------------
  // Current metrics

  datatype CurrentMetrics = CurrentMetrics(price: real, marketCap: real, pe: real, pb: real,
                                           ps: real, evRevenue: real, evEbitda: real)

  /** The P/E reported: forward P/E when the key is present, otherwise trailing
      P/E, otherwise 0. */
  function PeRatio(info: Info): (r: real)
    ensures "forwardPE" in info ==> r == info["forwardPE"]
    ensures "forwardPE" !in info && "trailingPE" in info ==> r == info["trailingPE"]
    ensures "forwardPE" !in info && "trailingPE" !in info ==> r == 0.0
  {
    Get(info, "forwardPE", Get(info, "trailingPE", 0.0))
  }

  function CurrentMetricsOf(bars: seq<Bar>, info: Info): (m: CurrentMetrics)
    requires |bars| > 0
    ensures m.price == bars[|bars| - 1].close
    ensures m.pe == PeRatio(info)
  {
    CurrentMetrics(LastClose(bars), Get(info, "marketCap", 0.0), PeRatio(info),
                   Get(info, "priceToBook", 0.0), Get(info, "priceToSalesTrailing12Months", 0.0),
                   Get(info, "enterpriseToRevenue", 0.0), Get(info, "enterpriseToEbitda", 0.0))
  }

  // ---------------------------------------------------------------------------
  // Peer multiples

  /** The gold-mining peers the comparison is restricted to, in this order. */
  const MainPeers: seq<string> := ["NEM", "AEM", "KGC", "AU", "EGO"]

  /** The records of the symbols of `syms` that the peer table has, in order. */
  function PresentRecords(peers: PeerData, syms: seq<string>): (rs: seq<PeerRecord>)
    ensures |rs| <= |syms|
  {
    if syms == [] then []
    else
      var s := syms[|syms| - 1];
      PresentRecords(peers, syms[..|syms| - 1]) + (if s in peers then [peers[s]] else [])
  }

  function PeValues(rs: seq<PeerRecord>): (v: seq<real>)
    ensures |v| == |rs| && forall i :: 0 <= i < |rs| ==> v[i] == rs[i].pe
  {
    seq(|rs|, i requires 0 <= i < |rs| => rs[i].pe)
  }

  function PbValues(rs: seq<PeerRecord>): (v: seq<real>)
    ensures |v| == |rs| && forall i :: 0 <= i < |rs| ==> v[i] == rs[i].pb
  {
    seq(|rs|, i requires 0 <= i < |rs| => rs[i].pb)
  }

  function CapValues(rs: seq<PeerRecord>): (v: seq<real>)
    ensures |v| == |rs| && forall i :: 0 <= i < |rs| ==> v[i] == rs[i].marketCap
  {
    seq(|rs|, i requires 0 <= i < |rs| => rs[i].marketCap)
  }

  /** The three lists the collection loop builds over the first `k` main peers. */
  function PeerPes(peers: PeerData, k: nat): seq<real>
    requires k <= |MainPeers|
  {
    Positives(PeValues(PresentRecords(peers, MainPeers[..k])))
  }

  function PeerPbs(peers: PeerData, k: nat): seq<real>
    requires k <= |MainPeers|
  {
    Positives(PbValues(PresentRecords(peers, MainPeers[..k])))
  }

  function PeerCaps(peers: PeerData, k: nat): seq<real>
    requires k <= |MainPeers|
  {
    CapValues(PresentRecords(peers, MainPeers[..k]))
  }

  lemma ValuesStep(rs: seq<PeerRecord>, r: PeerRecord)
    ensures PeValues(rs + [r]) == PeValues(rs) + [r.pe]
    ensures PbValues(rs + [r]) == PbValues(rs) + [r.pb]
    ensures CapValues(rs + [r]) == CapValues(rs) + [r.marketCap]
  {
  }

  lemma PositivesStep(xs: seq<real>, x: real)
    ensures Positives(xs + [x]) == Positives(xs) + (if x > 0.0 then [x] else [])
  {
    assert (xs + [x])[..|xs|] == xs;
  }

  /** Walks the main peers, keeping the strictly positive P/E and P/B values
      and every market cap of the peers that are present. */
  method CollectPeerMetrics(peers: PeerData) returns (pes: seq<real>, pbs: seq<real>, caps: seq<real>)
    ensures pes == PeerPes(peers, |MainPeers|)
    ensures pbs == PeerPbs(peers, |MainPeers|)
    ensures caps == PeerCaps(peers, |MainPeers|)
  {
    pes, pbs, caps := [], [], [];
    var k := 0;
    while k < |MainPeers|
      invariant k <= |MainPeers|
      invariant pes == PeerPes(peers, k)
      invariant pbs == PeerPbs(peers, k)
      invariant caps == PeerCaps(peers, k)
    {
      var symbol := MainPeers[k];
      CollectStep(peers, k);
      if symbol in peers {
        var data := peers[symbol];
        if data.pe > 0.0 {
          pes := pes + [data.pe];
        }
        if data.pb > 0.0 {
          pbs := pbs + [data.pb];
        }
        caps := caps + [data.marketCap];
      }
      k := k + 1;
    }
  }

  /** What one more main peer contributes to the three lists. */
  lemma CollectStep(peers: PeerData, k: nat)
    requires k < |MainPeers|
    ensures var s := MainPeers[k];
      if s in peers then
        PeerPes(peers, k + 1) == PeerPes(peers, k) + (if peers[s].pe > 0.0 then [peers[s].pe] else []) &&
        PeerPbs(peers, k + 1) == PeerPbs(peers, k) + (if peers[s].pb > 0.0 then [peers[s].pb] else []) &&
        PeerCaps(peers, k + 1) == PeerCaps(peers, k) + [peers[s].marketCap]
      else
        PeerPes(peers, k + 1) == PeerPes(peers, k) && PeerPbs(peers, k + 1) == PeerPbs(peers, k) &&
        PeerCaps(peers, k + 1) == PeerCaps(peers, k)
  {
    var symbol := MainPeers[k];
    assert MainPeers[..k + 1][..k] == MainPeers[..k];
    var rs := PresentRecords(peers, MainPeers[..k]);
    if symbol in peers {
      var data := peers[symbol];
      assert PresentRecords(peers, MainPeers[..k + 1]) == rs + [data];
      ValuesStep(rs, data);
      PositivesStep(PeValues(rs), data.pe);
      PositivesStep(PbValues(rs), data.pb);
    } else {
      assert PresentRecords(peers, MainPeers[..k + 1]) == rs;
    }
  }

  datatype PeerMultiples = PeerMultiples(peMedian: real, peMean: real, pbMedian: real, pbMean: real,
                                         marketCapMedian: real, peerCount: nat)

  /** The statistics of the collected lists; an empty list gives 0. */
  function PeerMultiplesOf(peers: PeerData): PeerMultiples
  {
    var n := |MainPeers|;
    PeerMultiples(MedianOrZero(PeerPes(peers, n)), MeanOrZero(PeerPes(peers, n)),
                  MedianOrZero(PeerPbs(peers, n)), MeanOrZero(PeerPbs(peers, n)),
                  MedianOrZero(PeerCaps(peers, n)), |MainPeers|)
  }

  method CalculatePeerMultiples(peers: PeerData) returns (m: PeerMultiples)
    ensures m == PeerMultiplesOf(peers)
    ensures m.peerCount == 5
  {
    var pes, pbs, caps := CollectPeerMetrics(peers);
    m := PeerMultiples(MedianOrZero(pes), MeanOrZero(pes), MedianOrZero(pbs), MeanOrZero(pbs),
                       MedianOrZero(caps), |MainPeers|);
  }

  lemma {:induction false} PresentRecordsMembership(peers: PeerData, syms: seq<string>)
    ensures forall r :: r in PresentRecords(peers, syms) <==>
      exists i :: 0 <= i < |syms| && syms[i] in peers && peers[syms[i]] == r
  {
    if syms != [] {
      var p := syms[..|syms| - 1];
      PresentRecordsMembership(peers, p);
      forall r | r in PresentRecords(peers, syms)
        ensures exists i :: 0 <= i < |syms| && syms[i] in peers && peers[syms[i]] == r
      {
        if r in PresentRecords(peers, p) {
          var i :| 0 <= i < |p| && p[i] in peers && peers[p[i]] == r;
          assert syms[i] == p[i];
        } else {
          assert syms[|syms| - 1] in peers && peers[syms[|syms| - 1]] == r;
        }
      }
      forall r | exists i :: 0 <= i < |syms| && syms[i] in peers && peers[syms[i]] == r
        ensures r in PresentRecords(peers, syms)
      {
        var i :| 0 <= i < |syms| && syms[i] in peers && peers[syms[i]] == r;
        if i < |p| {
          assert p[i] == syms[i];
        }
      }
    }
  }

  /** A P/E enters the peer statistics exactly when some main peer present in
      the table has it and it is strictly positive; the same holds for P/B. */
  lemma PeerPesCharacterized(peers: PeerData)
    ensures forall v :: v in PeerPes(peers, 5) <==>
      v > 0.0 && exists i :: 0 <= i < 5 && MainPeers[i] in peers && peers[MainPeers[i]].pe == v
    ensures forall v :: v in PeerPbs(peers, 5) <==>
      v > 0.0 && exists i :: 0 <= i < 5 && MainPeers[i] in peers && peers[MainPeers[i]].pb == v
  {
    var rs := PresentRecords(peers, MainPeers[..5]);
    assert MainPeers[..5] == MainPeers;
    PresentRecordsMembership(peers, MainPeers);
    PositivesMembership(PeValues(rs));
    PositivesMembership(PbValues(rs));
    forall v ensures v in PeValues(rs) <==>
      exists i :: 0 <= i < 5 && MainPeers[i] in peers && peers[MainPeers[i]].pe == v
    {
      if v in PeValues(rs) {
        var j :| 0 <= j < |rs| && PeValues(rs)[j] == v;
        assert rs[j] in rs;
      }
      if exists i :: 0 <= i < 5 && MainPeers[i] in peers && peers[MainPeers[i]].pe == v {
        var i :| 0 <= i < 5 && MainPeers[i] in peers && peers[MainPeers[i]].pe == v;
        var r := peers[MainPeers[i]];
        assert r in rs;
        var j :| 0 <= j < |rs| && rs[j] == r;
        assert PeValues(rs)[j] == v;
      }
    }
    forall v ensures v in PbValues(rs) <==>
      exists i :: 0 <= i < 5 && MainPeers[i] in peers && peers[MainPeers[i]].pb == v
    {
      if v in PbValues(rs) {
        var j :| 0 <= j < |rs| && PbValues(rs)[j] == v;
        assert rs[j] in rs;
      }
      if exists i :: 0 <= i < 5 && MainPeers[i] in peers && peers[MainPeers[i]].pb == v {
        var i :| 0 <= i < 5 && MainPeers[i] in peers && peers[MainPeers[i]].pb == v;
        var r := peers[MainPeers[i]];
        assert r in rs;
        var j :| 0 <= j < |rs| && rs[j] == r;
        assert PbValues(rs)[j] == v;
      }
    }
  }

  /** Market caps are never filtered: one per main peer present in the table,
      and at most five values in every list. */
  lemma PeerListSizes(peers: PeerData)
    ensures |PeerCaps(peers, 5)| == |PresentRecords(peers, MainPeers)|
    ensures |PeerPes(peers, 5)| <= |PeerCaps(peers, 5)| <= 5
    ensures |PeerPbs(peers, 5)| <= |PeerCaps(peers, 5)|
  {
    assert MainPeers[..5] == MainPeers;
    var rs := PresentRecords(peers, MainPeers);
    PositivesMembership(PeValues(rs));
    PositivesMembership(PbValues(rs));
  }

  /** The P/E median and mean are positive exactly when some present main
      peer has a positive P/E, and 0 otherwise; likewise for P/B. */
  lemma PeerStatisticsSign(peers: PeerData)
    ensures PeerMultiplesOf(peers).peMedian > 0.0 <==> PeerPes(peers, 5) != []
    ensures PeerMultiplesOf(peers).peMean > 0.0 <==> PeerPes(peers, 5) != []
    ensures PeerPes(peers, 5) == [] ==> PeerMultiplesOf(peers).peMedian == PeerMultiplesOf(peers).peMean == 0.0
    ensures PeerMultiplesOf(peers).pbMedian > 0.0 <==> PeerPbs(peers, 5) != []
    ensures PeerMultiplesOf(peers).pbMean > 0.0 <==> PeerPbs(peers, 5) != []
    ensures PeerPbs(peers, 5) == [] ==> PeerMultiplesOf(peers).pbMedian == PeerMultiplesOf(peers).pbMean == 0.0
  {
    PositivesArePositive(PeValues(PresentRecords(peers, MainPeers[..5])));
    PositivesArePositive(PbValues(PresentRecords(peers, MainPeers[..5])));
    var pes, pbs := PeerPes(peers, 5), PeerPbs(peers, 5);
    if pes != [] {
      MedianOfPositivesIsPositive(pes);
      MeanOfPositivesIsPositive(pes);
    }
    if pbs != [] {
      MedianOfPositivesIsPositive(pbs);
      MeanOfPositivesIsPositive(pbs);
    }
  }

  lemma PositivesArePositive(xs: seq<real>)
    ensures forall i :: 0 <= i < |Positives(xs)| ==> Positives(xs)[i] > 0.0
  {
    PositivesMembership(xs);
    forall i | 0 <= i < |Positives(xs)|
      ensures Positives(xs)[i] > 0.0
    {
      assert Positives(xs)[i] in Positives(xs);
    }
  }

  // ---------------------------------------------------------------------------
  // Simplified DCF

  const Wacc: real := 0.08
  const TerminalGrowth: real := 0.03

  /** Year `year`'s cash flow, grown at `g` and discounted at the WACC. */
  function DiscountedCashFlow(fcf: real, g: real, year: nat): real
  {
    fcf * Pow(1.0 + g, year) / Pow(1.0 + Wacc, year)
  }

  /** Σ_{y=1..n} of the discounted cash flows. */
  function PvFcf(fcf: real, g: real, n: nat): real
  {
    if n == 0 then 0.0 else PvFcf(fcf, g, n - 1) + DiscountedCashFlow(fcf, g, n)
  }

  /** The Gordon terminal value after year five, discounted back. */
  function PvTerminal(fcf: real, g: real): real
  {
    fcf * Pow(1.0 + g, 5) * (1.0 + TerminalGrowth) / (Wacc - TerminalGrowth) / Pow(1.0 + Wacc, 5)
  }

  datatype Assumptions = Assumptions(wacc: real, terminalGrowth: real, revenueGrowth: real,
                                     operatingMargin: real)

  datatype Dcf = Dcf(valuePerShare: real, currentPrice: real, upside: real,
                     assumptions: Option<Assumptions>)

  /** The return value when the model cannot run: no price to read. */
  const DcfFallback: Dcf := Dcf(0.0, 0.0, 0.0, None)

  function EstimatedFcf(marketCap: real, margin: real): real
  {
    marketCap / 2.0 * margin * 0.8
  }

  function EnterpriseValue(marketCap: real, margin: real, g: real): real
  {
    var fcf := EstimatedFcf(marketCap, margin);
    PvFcf(fcf, g, 5) + PvTerminal(fcf, g)
  }

  function SharesOutstanding(marketCap: real, price: real): real
  {
    if price > 0.0 then marketCap / price else 1.0
  }

  function PerShare(ev: real, shares: real): real
  {
    if shares > 0.0 then ev / shares else 0.0
  }

  function Upside(target: real, price: real): real
  {
    if price > 0.0 then (target - price) / price * 100.0 else 0.0
  }

  /** The DCF value per share at price `price`. */
  function DcfValue(price: real, mc: real, margin: real, g: real): real
  {
    PerShare(EnterpriseValue(mc, margin, g), SharesOutstanding(mc, price))
  }

  /** The DCF valuation of the fundamentals at the last close. */
  function DcfOf(closes: seq<real>, info: Info): Dcf
  {
    if closes == [] then DcfFallback
    else
      var price := closes[|closes| - 1];
      var mc := Get(info, "marketCap", 0.0);
      var margin := Get(info, "operatingMargins", 0.15);
      var g := Get(info, "revenueGrowth", 0.05);
      var value := DcfValue(price, mc, margin, g);
      Dcf(value, price, Upside(value, price), Some(Assumptions(Wacc, TerminalGrowth, g, margin)))
  }

  /** Accumulates the discounted cash flows of years 1 to 5. */
  method ProjectCashFlows(fcf: real, g: real) returns (pv: real)
    ensures pv == PvFcf(fcf, g, 5)
  {
    pv := 0.0;
    var year: nat := 1;
    while year < 6
      invariant 1 <= year <= 6
      invariant pv == PvFcf(fcf, g, year - 1)
    {
      var f := fcf * Pow(1.0 + g, year);
      var p := f / Pow(1.0 + Wacc, year);
      assert PvFcf(fcf, g, year) == PvFcf(fcf, g, year - 1) + p;
      pv := pv + p;
      year := year + 1;
    }
  }

  /** Projects five years of free cash flow, discounts them and the terminal
      value, and divides by the implied share count. */
  method SimpleDcfModel(closes: seq<real>, info: Info) returns (d: Dcf)
    ensures d == DcfOf(closes, info)
  {
    if closes == [] {
      return DcfFallback;
    }
    var price := closes[|closes| - 1];
    var mc := Get(info, "marketCap", 0.0);
    var margin := Get(info, "operatingMargins", 0.15);
    var g := Get(info, "revenueGrowth", 0.05);
    var fcf := EstimatedFcf(mc, margin);
    var pv := ProjectCashFlows(fcf, g);
    var ev := pv + PvTerminal(fcf, g);
    var value := PerShare(ev, SharesOutstanding(mc, price));
    d := Dcf(value, price, Upside(value, price), Some(Assumptions(Wacc, TerminalGrowth, g, margin)));
  }

  /** The DCF is linear in the starting cash flow. */
  lemma {:induction false} PvFcfLinear(fcf: real, g: real, n: nat)
    ensures PvFcf(fcf, g, n) == fcf * PvFcf(1.0, g, n)
  {
    if n > 0 {
      PvFcfLinear(fcf, g, n - 1);
      DiscountedLinear(fcf, g, n);
    }
  }

  lemma DiscountedLinear(fcf: real, g: real, n: nat)
    ensures DiscountedCashFlow(fcf, g, n) == fcf * DiscountedCashFlow(1.0, g, n)
  {
    var p, q := Pow(1.0 + g, n), Pow(1.0 + Wacc, n);
    assert q > 0.0;
    assert fcf * p / q == fcf * (p / q);
  }

  lemma TerminalLinear(fcf: real, g: real)
    ensures PvTerminal(fcf, g) == fcf * PvTerminal(1.0, g)
  {
    var p, q := Pow(1.0 + g, 5), Pow(1.0 + Wacc, 5);
    var t := (1.0 + TerminalGrowth) / (Wacc - TerminalGrowth);
    assert q > 0.0;
    assert fcf * p * (1.0 + TerminalGrowth) / (Wacc - TerminalGrowth) == fcf * (p * t);
    assert fcf * (p * t) / q == fcf * (p * t / q);
  }

  /** Enterprise value per unit of market cap and of operating margin: a
      multiplier that depends on the growth rate alone. */
  function DcfMultiplier(g: real): real
  {
    0.4 * (PvFcf(1.0, g, 5) + PvTerminal(1.0, g))
  }

  lemma EnterpriseValueFactored(mc: real, margin: real, g: real)
    ensures EnterpriseValue(mc, margin, g) == mc * margin * DcfMultiplier(g)
  {
    var fcf := EstimatedFcf(mc, margin);
    PvFcfLinear(fcf, g, 5);
    TerminalLinear(fcf, g);
    var k := PvFcf(1.0, g, 5) + PvTerminal(1.0, g);
    assert fcf == mc * margin * 0.4;
    assert fcf * PvFcf(1.0, g, 5) + fcf * PvTerminal(1.0, g) == fcf * k;
    assert fcf * k == mc * margin * (0.4 * k);
  }

  /** With a positive price and market cap, the share count cancels the market
      cap: the DCF value per share is `price · margin · multiplier(g)`, so the
      DCF upside depends only on the margin and the growth rate. */
  lemma DcfValueIndependentOfMarketCap(price: real, mc: real, margin: real, g: real)
    requires price > 0.0 && mc > 0.0
    ensures DcfValue(price, mc, margin, g) == price * margin * DcfMultiplier(g)
    ensures Upside(DcfValue(price, mc, margin, g), price) == (margin * DcfMultiplier(g) - 1.0) * 100.0
  {
    var k := margin * DcfMultiplier(g);
    EnterpriseValueFactored(mc, margin, g);
    assert mc * margin * DcfMultiplier(g) == mc * k;
    var shares := mc / price;
    QuotientPositive(mc, price);
    CancelMarketCap(mc, price, k);
    assert DcfValue(price, mc, margin, g) == price * k;
    UpsideOfMultiple(DcfValue(price, mc, margin, g), price, k);
  }

  /** A target `k` times the price has an upside of `(k − 1) · 100`. */
  lemma UpsideOfMultiple(v: real, price: real, k: real)
    requires price > 0.0 && v == price * k
    ensures Upside(v, price) == (k - 1.0) * 100.0
  {
    var c := k - 1.0;
    var q := (v - price) / price;
    assert v - price == price * c;
    assert q * price == price * c;
    assert (q - c) * price == 0.0;
  }

  lemma CancelMarketCap(mc: real, price: real, k: real)
    requires mc > 0.0 && price > 0.0
    ensures (mc * k) / (mc / price) == price * k
  {
    var s := mc / price;
    assert s * price == mc;
    assert s > 0.0;
    assert (price * k) * s == mc * k;
  }

  /** The guard cases: no positive price means one share and no upside; a
      positive price with a non-positive market cap means no shares and a
      value of 0. */
  lemma DcfGuards(closes: seq<real>, info: Info)
    requires |closes| > 0
    ensures closes[|closes| - 1] <= 0.0 ==>
      DcfOf(closes, info).upside == 0.0 &&
      DcfOf(closes, info).valuePerShare == EnterpriseValue(Get(info, "marketCap", 0.0),
        Get(info, "operatingMargins", 0.15), Get(info, "revenueGrowth", 0.05))
    ensures closes[|closes| - 1] > 0.0 && Get(info, "marketCap", 0.0) <= 0.0 ==>
      DcfOf(closes, info).valuePerShare == 0.0 && DcfOf(closes, info).upside == -100.0
    ensures DcfOf(closes, info).assumptions.Some?
  {
    var price := closes[|closes| - 1];
    var mc := Get(info, "marketCap", 0.0);
    if price > 0.0 && mc <= 0.0 {
      QuotientAtMost(mc, price, 0.0);
      assert (0.0 - price) / price == -1.0;
    }
  }

  /** Present values of the projection are positive under positive cash flow
      and a growth rate above −100%. */
  lemma {:induction false} PvFcfPositive(fcf: real, g: real, n: nat)
    requires fcf > 0.0 && g > -1.0 && n > 0
    ensures PvFcf(fcf, g, n) > 0.0
  {
    var p, q := Pow(1.0 + g, n), Pow(1.0 + Wacc, n);
    assert fcf * p > 0.0;
    QuotientPositive(fcf * p, q);
    if n > 1 {
      PvFcfPositive(fcf, g, n - 1);
    }
  }

  lemma QuotientPositive(a: real, w: real)
    requires a > 0.0 && w > 0.0
    ensures a / w > 0.0
  {
    assert (a / w) * w == a;
  }

  lemma MultiplierPositive(g: real)
    requires g > -1.0
    ensures DcfMultiplier(g) > 0.0
  {
    PvFcfPositive(1.0, g, 5);
    var p, q := Pow(1.0 + g, 5), Pow(1.0 + Wacc, 5);
    assert p * (1.0 + TerminalGrowth) > 0.0;
    QuotientPositive(p * (1.0 + TerminalGrowth), Wacc - TerminalGrowth);
    QuotientPositive(p * (1.0 + TerminalGrowth) / (Wacc - TerminalGrowth), q);
  }

  /** A higher operating margin never lowers the DCF value per share, for a
      growth rate above −100%. */
  lemma DcfMonotoneInMargin(price: real, mc: real, margin: real, margin': real, g: real)
    requires price > 0.0 && mc > 0.0 && g > -1.0 && margin <= margin'
    ensures DcfValue(price, mc, margin, g) <= DcfValue(price, mc, margin', g)
  {
    DcfValueIndependentOfMarketCap(price, mc, margin, g);
    DcfValueIndependentOfMarketCap(price, mc, margin', g);
    MultiplierPositive(g);
    MarginStep(DcfValue(price, mc, margin, g), DcfValue(price, mc, margin', g),
               price, margin, margin', DcfMultiplier(g));
  }

  lemma MarginStep(v: real, v': real, price: real, m: real, m': real, k: real)
    requires price > 0.0 && k > 0.0 && m <= m'
    requires v == price * m * k && v' == price * m' * k
    ensures v <= v'
  {
    assert price * k > 0.0;
    assert (price * k) * m <= (price * k) * m';
  }

  // ---------------------------------------------------------------------------
  // Price targets

  datatype Targets = Targets(peTarget: real, pbTarget: real, dcfTarget: real, averageTarget: real,
                             currentPrice: real, yearHigh: real, yearLow: real, upside: real)

  /** Bars in a trading year: the look-back of the high and low. */
  const TradingYear: nat := 252

  function Highs(bars: seq<Bar>): (h: seq<real>)
    ensures |h| == |bars| && forall i :: 0 <= i < |bars| ==> h[i] == bars[i].high
  {
    seq(|bars|, i requires 0 <= i < |bars| => bars[i].high)
  }

  function Lows(bars: seq<Bar>): (l: seq<real>)
    ensures |l| == |bars| && forall i :: 0 <= i < |bars| ==> l[i] == bars[i].low
  {
    seq(|bars|, i requires 0 <= i < |bars| => bars[i].low)
  }

  /** A multiple-based target: the company's own per-share figure (price over
      its own multiple) times the peer median, when both multiples are positive. */
  function MultipleTarget(peerMedian: real, ownMultiple: real, price: real): real
  {
    if peerMedian > 0.0 && ownMultiple > 0.0 then price / ownMultiple * peerMedian else 0.0
  }

  /** The candidate targets that enter the average. */
  function TargetCandidates(pe: real, pb: real, dcf: real): seq<real>
  {
    Positives([pe, pb, dcf])
  }

  function AverageTarget(pe: real, pb: real, dcf: real, price: real): real
  {
    var ts := TargetCandidates(pe, pb, dcf);
    if ts == [] then price else Mean(ts)
  }

  function PriceTargets(bars: seq<Bar>, info: Info, peers: PeerMultiples, dcf: Dcf): Targets
    requires |bars| > 0
  {
    var price := LastClose(bars);
    var pe := MultipleTarget(peers.peMedian, Get(info, "forwardPE", 0.0), price);
    var pb := MultipleTarget(peers.pbMedian, Get(info, "priceToBook", 0.0), price);
    var avg := AverageTarget(pe, pb, dcf.valuePerShare, price);
    Targets(pe, pb, dcf.valuePerShare, avg, price,
            Max(Tail(Highs(bars), TradingYear)), Min(Tail(Lows(bars), TradingYear)),
            Upside(avg, price))
  }

  /** A multiple target is positive exactly when the peer median, the own
      multiple and the price are all positive; it is 0 whenever either
      multiple is not positive. */
  lemma MultipleTargetSign(peerMedian: real, ownMultiple: real, price: real)
    ensures MultipleTarget(peerMedian, ownMultiple, price) > 0.0
        <==> peerMedian > 0.0 && ownMultiple > 0.0 && price > 0.0
    ensures !(peerMedian > 0.0 && ownMultiple > 0.0) ==> MultipleTarget(peerMedian, ownMultiple, price) == 0.0
  {
    if peerMedian > 0.0 && ownMultiple > 0.0 {
      var e := price / ownMultiple;
      assert e * ownMultiple == price;
      if price > 0.0 {
        QuotientPositive(price, ownMultiple);
        assert e * peerMedian > 0.0;
      } else {
        QuotientAtMost(price, ownMultiple, 0.0);
        assert e * peerMedian <= 0.0;
      }
    }
  }

  /** With some positive candidate, the average is positive and lies between the
      smallest and the largest positive candidate; with none it is the price. */
  lemma AverageTargetBounds(pe: real, pb: real, dcf: real, price: real)
    ensures TargetCandidates(pe, pb, dcf) == [] <==> pe <= 0.0 && pb <= 0.0 && dcf <= 0.0
    ensures TargetCandidates(pe, pb, dcf) == [] ==> AverageTarget(pe, pb, dcf, price) == price
    ensures TargetCandidates(pe, pb, dcf) != [] ==>
      Min(TargetCandidates(pe, pb, dcf)) <= AverageTarget(pe, pb, dcf, price) <= Max(TargetCandidates(pe, pb, dcf))
      && AverageTarget(pe, pb, dcf, price) > 0.0
    ensures forall t :: t in TargetCandidates(pe, pb, dcf) <==> t in [pe, pb, dcf] && t > 0.0
  {
    var ts := TargetCandidates(pe, pb, dcf);
    PositivesMembership([pe, pb, dcf]);
    PositivesArePositive([pe, pb, dcf]);
    if ts != [] {
      MeanWithinExtremes(ts);
      MeanOfPositivesIsPositive(ts);
    } else {
      assert pe !in ts && pb !in ts && dcf !in ts;
    }
  }

  /** The upside is 0 without a positive price, and otherwise positive
      exactly when the target is above the price. */
  lemma UpsideSign(target: real, price: real)
    ensures price <= 0.0 ==> Upside(target, price) == 0.0
    ensures price > 0.0 ==> (Upside(target, price) > 0.0 <==> target > price)
    ensures price > 0.0 ==> (Upside(target, price) == 0.0 <==> target == price)
  {
    if price > 0.0 {
      var q := (target - price) / price;
      assert q * price == target - price;
      if target > price {
        QuotientPositive(target - price, price);
      } else {
        QuotientAtMost(target - price, price, 0.0);
      }
    }
  }

  /** The year high is at least the last bar's high and the year low at most
      the last bar's low. The year low is at most the year high when every
      bar's low is at most its high; only that first ensures needs the
      requirement on the bars. */
  lemma YearRange(bars: seq<Bar>)
    requires |bars| > 0
    requires forall i :: 0 <= i < |bars| ==> bars[i].low <= bars[i].high
    ensures Min(Tail(Lows(bars), TradingYear)) <= Max(Tail(Highs(bars), TradingYear))
    ensures Max(Tail(Highs(bars), TradingYear)) >= bars[|bars| - 1].high
    ensures Min(Tail(Lows(bars), TradingYear)) <= bars[|bars| - 1].low
  {
    var h, l := Tail(Highs(bars), TradingYear), Tail(Lows(bars), TradingYear);
    assert h[|h| - 1] == bars[|bars| - 1].high;
    assert l[|l| - 1] == bars[|bars| - 1].low;
    assert l[0] == bars[|bars| - |l|].low;
    assert h[0] == bars[|bars| - |h|].high;
  }

  // ---------------------------------------------------------------------------
  // The valuation as a whole

  datatype ValuationResult = ValuationResult(current: CurrentMetrics, peers: PeerMultiples, dcf: Dcf,
                                             targets: Targets)

  method PerformValuationAnalysis(snap: Snapshot) returns (v: ValuationResult)
    requires |snap.bars| > 0
    ensures v.current == CurrentMetricsOf(snap.bars, snap.info)
    ensures v.peers == PeerMultiplesOf(snap.peers)
    ensures v.dcf == DcfOf(Closes(snap.bars), snap.info)
    ensures v.targets == PriceTargets(snap.bars, snap.info, v.peers, v.dcf)
    ensures v.dcf.currentPrice == v.targets.currentPrice == v.current.price
  {
    var current := CurrentMetricsOf(snap.bars, snap.info);
    var peers := CalculatePeerMultiples(snap.peers);
    var dcf := SimpleDcfModel(Closes(snap.bars), snap.info);
    var targets := PriceTargets(snap.bars, snap.info, peers, dcf);
    v := ValuationResult(current, peers, dcf, targets);
  }
}
