# Financial analysis engine — a Dafny model

This project models the equity-research engine `FinancialAnalysisEngine` of the
Barrick Gold analysis repository (`src/models/financial_models.py`). The engine
takes three loaded inputs:

- a table of daily bars (close, high, low, volume);
- a map of company fundamentals (`marketCap`, `forwardPE`, `operatingMargins`, …);
- a peer table mapping a ticker to its P/E, P/B and market cap.

From these it derives:

- rolling technical indicators: SMA, EMA/MACD, RSI, Bollinger bands, volume ratio and returns;
- peer-multiple statistics;
- a simplified five-year discounted-cash-flow valuation;
- blended price targets;
- drawdown and liquidity risk figures;
- an investment thesis with a trend label, technical signals and a BUY / OVERWEIGHT / HOLD / UNDERWEIGHT recommendation.

The loaded data is an immutable `Valuation.Snapshot` value. The engine only
reads it after loading, so the model takes it as a parameter rather than
reading files. The modules follow the engine's sections:

| module | contents |
|---|---|
| `Options` | `Option`, with NaN modelled as `None` |
| `Stats` | sum, mean, min/max, tail, filters, sorting, the numpy median |
| `Indicators` | `calculate_technical_indicators` |
| `Valuation` | `perform_valuation_analysis`, `_calculate_peer_multiples`, `_simple_dcf_model`, `_calculate_price_targets` |
| `Risk` | the drawdown, beta and liquidity parts of `risk_analysis` |
| `Thesis` | `generate_investment_thesis` |

The source's two loops are Dafny methods with loop invariants, each proved against a specification function:

- the peer-collection loop is `CollectPeerMetrics`;
- the five-year discounting loop is `ProjectCashFlows`.

`CalculatePeerMultiples` and `SimpleDcfModel` run these loops and finish
with the same functions their specifications use (`MedianOrZero`,
`PvTerminal`, `PerShare`, `Upside`). The signals are appended in the method
`TechnicalSignals`, whose contract characterises the list: which signals it
holds, at most two, the RSI signal first. The vectorised pandas expressions
are functions over sequences.

Numerics:

- Floats are Dafny `real`s.
- NaN and the infinities a division by zero produces are `None`.
- A comparison with an undefined value is false, as every comparison with NaN is in pandas.
- The square root behind the Bollinger bands is a parameter. Only non-negativity is assumed of it (`NonNegRoot`).

Things the proofs bring out about the code:

- **DCF value and market cap.** Whenever the price and the market cap are positive, the DCF value per share is `price · margin · DcfMultiplier(g)`. The market cap cancels out, because revenue is estimated as half the market cap and the share count as market cap over price. So the DCF upside depends only on the operating margin and the revenue growth (`DcfValueIndependentOfMarketCap`).
- **Missing P/E.** A company with no P/E on record has `pe_ratio` 0. It is labelled "outperforming" exactly when some present main peer has a positive P/E (`MissingPeLooksOutperforming`).

Pandas and numpy semantics the model follows (lines of `src/models/financial_models.py`):

- **Bollinger bands** (`:61`): `rolling(20).std()` is pandas' sample standard deviation, ddof = 1.
- **RSI with no movement** (`:56-57`): when the average gain and the average loss are both 0, `gain / loss` is 0/0 and the RSI is NaN. The RSI is 100 exactly when the loss is 0 and the gain positive.
- **RSI start** (`:53-55`): the first `diff()` is NaN, and `where` turns it into 0. So the 14-bar averages, and the RSI, are defined from the 14th bar (index 13).
- **EMA** (`:44-45`): `ewm(span=…).mean()` is pandas' default `adjust=True` average, a weighted mean with weights (1 − α)^k.
- **WACC and terminal growth** (`:164-165`) are the constants 0.08 and 0.03, so the terminal-value denominator is always 0.05.
- **`peer_count`** (`:145`) is `len(main_peers)`, always 5, whatever is present in the peer table.

## Model

| member | source | states |
|---|---|---|
| Indicators.Sma | src/models/financial_models.py:39-41 | SMA(n) has one entry per bar; it is undefined exactly for the first n−1 bars and otherwise is the mean of the trailing n closes |
| Indicators.RollingMeanWithinWindow | src/models/financial_models.py:39-41 | a defined rolling mean lies between the least and greatest close of its window |
| Indicators.RollingMeanOfConstant | src/models/financial_models.py:39-41 | over constant closes every defined SMA equals the close |
| Indicators.RollingMeanSlide | src/models/financial_models.py:39-41 | n·SMA[i+1] = n·SMA[i] + x[i+1] − x[i+1−n]: sliding the window adds the new close and drops the oldest |
| Indicators.Decay | src/models/financial_models.py:44-45 | the EMA decay 1 − 2/(span+1) lies in [0, 1) |
| Indicators.EwmWithinExtremes | src/models/financial_models.py:44-50 | an adjusted exponential average lies between the least and greatest value averaged |
| Indicators.EwmSeed | src/models/financial_models.py:44-45 | the first EMA value is the first close |
| Indicators.MacdOfConstant | src/models/financial_models.py:44-50 | over constant closes the MACD line, its signal line and the histogram are 0 |
| Indicators.GainsAndLossesSplitChanges | src/models/financial_models.py:53-55 | gain minus loss is the price change on every bar after the first; at most one of them is non-zero; both are 0 on the first bar, whose NaN change the source replaces with 0 |
| Indicators.Gains | src/models/financial_models.py:53-54 | one gain per bar, never negative |
| Indicators.Losses | src/models/financial_models.py:53-55 | one loss per bar, never negative |
| Indicators.RsiProperties | src/models/financial_models.py:53-57 | RSI is defined exactly from index 13 on, except where both averages are 0; a defined RSI lies in [0, 100]; it is 100 exactly when the average loss is 0 and the average gain positive |
| Indicators.RsiOfConstantIsUndefined | src/models/financial_models.py:53-57 | over constant closes the RSI is undefined on every bar (0/0) |
| Indicators.SampleVarianceNonNegative | src/models/financial_models.py:61 | the rolling sample variance is never negative |
| Indicators.BollingerOrdered | src/models/financial_models.py:60-63 | the bands are defined exactly from index 19 on; upper ≥ middle ≥ lower; middle is SMA(20); the bands are symmetric about it |
| Indicators.VolumeRatioBounds | src/models/financial_models.py:66-67 | a defined volume ratio lies in [0, 20], the window length |
| Indicators.PctChangeCompounds | src/models/financial_models.py:70-72 | an (a+b)-bar return compounds the a-bar return with the b-bar return before it |
| Indicators.PctChangeOfConstant | src/models/financial_models.py:70-72 | over constant non-zero closes every k-bar return after the first k bars is 0 |
| Valuation.PeRatio | src/models/financial_models.py:88 | the P/E is forward P/E if present, else trailing P/E if present, else 0 |
| Valuation.CurrentMetricsOf | src/models/financial_models.py:82-102 | the current metrics carry the last close as price and the P/E chosen above |
| Valuation.CollectPeerMetrics | src/models/financial_models.py:127-136 | the loop builds exactly the strictly positive P/Es, the strictly positive P/Bs and all market caps of the present main peers, in list order |
| Valuation.CalculatePeerMultiples | src/models/financial_models.py:118-146 | the peer statistics are the median and mean of the collected lists, 0 for an empty list, and the peer count is 5 |
| Valuation.PeerPesCharacterized | src/models/financial_models.py:127-134 | a value is among the peer P/Es (P/Bs) exactly when it is positive and belongs to a main peer present in the table |
| Valuation.PeerListSizes | src/models/financial_models.py:129-136 | one market cap per present main peer, none filtered; at most five of each list |
| Valuation.PeerStatisticsSign | src/models/financial_models.py:140-144 | the P/E (P/B) median and mean are positive exactly when the filtered list is non-empty, and are both 0 when it is empty |
| Valuation.ProjectCashFlows | src/models/financial_models.py:167-171 | the loop accumulates Σ_{y=1..5} fcf·(1+g)^y/(1+wacc)^y |
| Valuation.SimpleDcfModel | src/models/financial_models.py:148-195 | the result is the DCF of the fundamentals at the last close, with the fixed WACC and terminal growth and the fundamentals' defaults; no closes give the zero fallback |
| Valuation.PvFcfLinear | src/models/financial_models.py:167-171 | the present value of the projection is linear in the starting cash flow |
| Valuation.EnterpriseValueFactored | src/models/financial_models.py:160-178 | the enterprise value is market cap × margin × a multiplier depending on growth alone |
| Valuation.DcfValueIndependentOfMarketCap | src/models/financial_models.py:178-185 | with positive price and market cap the value per share is price·margin·multiplier(g) and the upside is (margin·multiplier(g) − 1)·100, independent of the market cap |
| Valuation.DcfGuards | src/models/financial_models.py:179-185 | a non-positive price means one share and zero upside; a positive price with a non-positive market cap means a value of 0 and an upside of −100 |
| Valuation.PvFcfPositive | src/models/financial_models.py:167-171 | a positive cash flow above −100% growth has a positive present value |
| Valuation.DcfMonotoneInMargin | src/models/financial_models.py:156-180 | with positive price and market cap and growth above −100%, a higher operating margin never lowers the DCF value per share |
| Valuation.MultipleTargetSign | src/models/financial_models.py:205-217 | a P/E (P/B) target is positive exactly when the peer median, the own multiple and the price are positive, and 0 when either multiple is not positive |
| Valuation.AverageTargetBounds | src/models/financial_models.py:224-225 | the candidates are exactly the positive targets; with none, the average target is the price; otherwise it is positive and within their minimum and maximum |
| Valuation.UpsideSign | src/models/financial_models.py:235 | the upside is 0 without a positive price, and otherwise positive (zero) exactly when the target is above (equal to) the price |
| Valuation.YearRange | src/models/financial_models.py:220-221 | the year high bounds the last high, the year low the last low, and the year low is at most the year high |
| Valuation.PerformValuationAnalysis | src/models/financial_models.py:79-116 | the valuation combines the current metrics, peer statistics, DCF and targets, all priced at the same last close |
| Risk.RunningMax | src/models/financial_models.py:254 | the expanding maximum bounds every close so far and is one of them |
| Risk.DrawdownBounds | src/models/financial_models.py:253-255 | with non-negative closes every defined drawdown lies in [−100, 0] |
| Risk.DrawdownZeroAtPeak | src/models/financial_models.py:255-258 | a drawdown is 0 exactly when the close equals its non-zero running maximum |
| Risk.DrawdownsDefined | src/models/financial_models.py:254-255 | a positive first close makes every drawdown defined |
| Risk.DrawdownStatisticsOrdered | src/models/financial_models.py:257-261 | with non-negative closes, max drawdown ≤ average drawdown ≤ 0 and max ≤ current ≤ 0, with max ≥ −100; with no defined drawdown the average is 0 |
| Risk.ConstantPricesHaveNoDrawdown | src/models/financial_models.py:253-261 | constant positive closes give current, maximum and average drawdowns of 0 |
| Risk.LiquidityBounds | src/models/financial_models.py:273-277 | the 30-bar average volume is non-negative and at most the largest volume; the dollar volume is non-negative for a non-negative price and non-positive for a non-positive price |
| Risk.OneBarHasNoReturns | src/models/financial_models.py:243-249 | a single bar leaves no one-bar return, so the Value at Risk percentile raises and neither the risk figures nor the thesis exist |
| Risk.TwoBarsHaveReturns | src/models/financial_models.py:243 | two or more bars with a non-zero first close always leave a return |
| Risk.Beta | src/models/financial_models.py:265 | beta defaults to 1.0 |
| Thesis.TrendOf | src/models/financial_models.py:300 | Bullish exactly when price > SMA50 > SMA200 and Bearish exactly when price < SMA50 < SMA200, both averages defined |
| Thesis.ShortHistoryIsNeutral | src/models/financial_models.py:297-300 | with fewer than 200 bars the trend is Neutral |
| Thesis.ConstantPricesAreNeutral | src/models/financial_models.py:297-300 | constant closes give a Neutral trend |
| Thesis.RisingPricesAreBullish | src/models/financial_models.py:297-300 | strictly rising closes over at least 200 bars give a Bullish trend |
| Thesis.TechnicalSignals | src/models/financial_models.py:303-312 | at most two signals, RSI signal first; each signal is present exactly when its condition holds (overbought above 70, else oversold below 30; above the upper band, else below the lower band); undefined inputs raise none |
| Thesis.Recommend | src/models/financial_models.py:317-324 | total over the upside, with strict thresholds: > 20 BUY, (10, 20] OVERWEIGHT, (−10, 10] HOLD, ≤ −10 UNDERWEIGHT |
| Thesis.RecommendMonotone | src/models/financial_models.py:317-324 | a larger upside never gives a weaker recommendation |
| Thesis.RecommendationFromTarget | src/models/financial_models.py:315-324 | with a positive price: BUY exactly when the average target exceeds 1.2 × price, UNDERWEIGHT exactly when it is at most 0.9 × price |
| Thesis.NoPriceMeansHold | src/models/financial_models.py:315-324 | without a positive price the upside is 0 and the recommendation HOLD |
| Thesis.MissingPeLooksOutperforming | src/models/financial_models.py:352 | with no P/E on record the company is "outperforming" exactly when some present main peer has a positive P/E |
| Thesis.TechnicalView | src/models/financial_models.py:294-312 | the price is the last close, the trend and RSI are those of the last bar, and the signals are exactly those of the last bar's RSI and Bollinger bands, at most two, the RSI signal first |
| Thesis.ValuationFigures | src/models/financial_models.py:316-354 | the target is the average price target, the upside is its upside over the last close, the key metrics carry the P/E, the P/B and the market cap in billions, and the peer comparison carries the standing and the peer P/E and P/B medians |
| Thesis.RiskFigures | src/models/financial_models.py:340-346 | the beta of the key metrics is the provider's beta or 1.0, and the reported maximum drawdown is that of the drawdown statistics |
| Thesis.GenerateInvestmentThesis | src/models/financial_models.py:287-356 | the thesis carries the company and symbol, the last close, the trend of the last bar, the average target, its upside and the recommendation for it; the signals are exactly those of the last bar (at most two, the RSI signal first); the key metrics are the P/E, the P/B, the market cap in billions, the beta and the RSI; the peer comparison is the standing and the peer medians; and the maximum drawdown |
| Stats.MedianWithinExtremes | src/models/financial_models.py:140-144 | the numpy median lies between the least and greatest value |
| Stats.SortAscCorrect | src/models/financial_models.py:140-144 | the sort behind the median is ascending and a permutation |
| Stats.MeanWithinExtremes | src/models/financial_models.py:141 | the mean lies between the least and greatest value |

## Definitions

The functions below define what the engine computes. Their properties are
stated by the members of the "Model" table:

| definition | source | properties stated by |
|---|---|---|
| Indicators.RollingMean | src/models/financial_models.py:39-41 | Sma, RollingMeanWithinWindow, RollingMeanSlide |
| Indicators.Ewm | src/models/financial_models.py:44-45 | EwmSeed, EwmWithinExtremes |
| Indicators.Macd | src/models/financial_models.py:48 | MacdOfConstant |
| Indicators.MacdSignal | src/models/financial_models.py:49 | MacdOfConstant |
| Indicators.MacdHistogram | src/models/financial_models.py:50 | MacdOfConstant |
| Indicators.Rsi | src/models/financial_models.py:53-57 | RsiProperties, RsiOfConstantIsUndefined |
| Indicators.Bollinger | src/models/financial_models.py:60-63 | BollingerOrdered, SampleVarianceNonNegative |
| Indicators.VolumeRatio | src/models/financial_models.py:66-67 | VolumeRatioBounds |
| Indicators.PctChange | src/models/financial_models.py:70-72 | PctChangeCompounds, PctChangeOfConstant |
| Valuation.PeerMultiplesOf | src/models/financial_models.py:138-146 | CalculatePeerMultiples, PeerStatisticsSign |
| Valuation.DcfOf | src/models/financial_models.py:148-195 | SimpleDcfModel, DcfGuards, DcfValueIndependentOfMarketCap, DcfMonotoneInMargin |
| Valuation.PriceTargets | src/models/financial_models.py:197-236 | MultipleTargetSign, AverageTargetBounds, UpsideSign, YearRange |
| Risk.Drawdown | src/models/financial_models.py:253-255 | DrawdownBounds, DrawdownZeroAtPeak, DrawdownsDefined |
| Risk.DrawdownStatistics | src/models/financial_models.py:257-261 | DrawdownStatisticsOrdered, ConstantPricesHaveNoDrawdown |
| Risk.LiquidityOf | src/models/financial_models.py:273-277 | LiquidityBounds |
| Risk.HasReturns | src/models/financial_models.py:243-249 | OneBarHasNoReturns, TwoBarsHaveReturns |
| Risk.RiskAnalysis | src/models/financial_models.py:238-279 | DrawdownStatisticsOrdered, LiquidityBounds, Beta |
| Thesis.TrendAtLastBar | src/models/financial_models.py:294-300 | TrendOf, ShortHistoryIsNeutral, ConstantPricesAreNeutral, RisingPricesAreBullish |
| Thesis.VsPeers | src/models/financial_models.py:352 | MissingPeLooksOutperforming, GenerateInvestmentThesis |

## Left out

- The volatility columns are not modelled: the 30-day volatility (`financial_models.py:75`) and the daily and annual volatility (`:246-247`). Each is a standard deviation times √252, a floating-point figure with no exact real counterpart.
- The 95% and 99% Value at Risk (`:248-249`) are not modelled: they rely on numpy's interpolating percentile.
- The peer correlation (`:281-285`) is not modelled: it is the constant 0.75.
- `load_data` (`:15-32`) is not modelled, nor is the console output. The loaded data is the `Snapshot` parameter.
- The analysis date from `datetime.now()` (`:329`) is not modelled.
- Text formatting is not modelled. This covers the `risk_factors` strings and the `annual_volatility` key metric, which belongs to the volatility above. The thesis keeps the maximum drawdown that the strings report.
- The DCF's exception handler (`src/models/financial_models.py:193-195`) is modelled only for its one reachable cause in exact arithmetic, an empty price table, which gives the zero fallback (`DcfFallback`). The source also falls back when a double overflows: a float power `(1 + revenue_growth) ** year` (:169) or `** 5` (:174) or an integer market cap divided to a float (:160) outside the double range raises `OverflowError`. The model's exact reals cannot reproduce this, so `DcfOf` returns a computed value for such inputs. Non-numeric JSON values are outside the model.
- Indicators.Ewm: the model does not prove the `adjust=True` recurrence that links consecutive averages. Only the seed, the within-extremes bound and the constant case are proved.
- Risk.Drawdown: a zero running maximum is treated as undefined. With non-negative closes this is exactly pandas' 0/0 NaN. With a negative close pandas would give −∞, which the model does not distinguish.
- Integer widths and float rounding are not modelled. Volumes are natural numbers and every other quantity is an exact real.
- The exceptions the source raises are preconditions in the model, not error values. On an empty price table the source's `iloc[-1]` raises. So `PerformValuationAnalysis` requires at least one bar.
- `RiskAnalysis` and `GenerateInvestmentThesis` require `HasReturns`: at least one one-bar return that is not 0/0. Without one, `np.percentile` raises on the empty list of returns. With a single bar this always happens (`OneBarHasNoReturns`).
