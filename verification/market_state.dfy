/**
 Balanced versus imbalanced market detection (`trading_core/market_state.rs`):
 for each bar, a look-back window's VWAP, average true range, fair-value
 crossings, range expansion and cumulative delta, and the classification
 built from them.
 */
module MarketRegime {
  import opened Base
  import opened Market
  import opened Impulse
  import opened Lvn

  datatype MarketState = Balanced | Imbalanced

  datatype Config = Config(lookbackBars: nat, rotationThreshold: nat, rangeExpansionMult: real, deltaThreshold: int)

  /** `MarketStateConfig::default()`: 60 one-second bars, 3 rotations, 2x range, 200 delta. */
  const DefaultConfig := Config(60, 3, 2.0, 200)

  datatype StateResult = StateResult(state: MarketState, fairValue: real, atr: real, rotationCount: nat,
                                     rangeRatio: real, cumulativeDelta: int, trendDirection: int)

  /** `calculate_vwap`: 0 for no bars, the open/close midpoint when no volume traded. */
  function Vwap(bars: seq<Bar>): (v: real)
    ensures |bars| == 0 ==> v == 0.0
    ensures |bars| > 0 && VolumeSum(bars) == 0 ==> v == (bars[0].open + bars[|bars| - 1].close) / 2.0
  {
    if |bars| == 0 then 0.0
    else if VolumeSum(bars) == 0 then (bars[0].open + bars[|bars| - 1].close) / 2.0
    else PriceVolume(bars) / VolumeSum(bars) as real
  }

  /** With volume, this VWAP is the LVN module's VWAP, so it lies between the extreme typical prices. */
  lemma VwapWithVolume(bars: seq<Bar>, lo: real, hi: real)
    requires VolumeSum(bars) > 0
    requires forall i :: 0 <= i < |bars| ==> lo <= TypicalPrice(bars[i]) <= hi
    ensures Vwap(bars) == SimpleVwap(bars)
    ensures lo <= Vwap(bars) <= hi
  {
    SimpleVwapBounds(bars, lo, hi);
  }

  function TrueRange(b: Bar, prevClose: real): (tr: real)
    ensures tr >= b.high - b.low && tr >= 0.0
    ensures tr >= Abs(b.high - prevClose) && tr >= Abs(b.low - prevClose)
  {
    Max(Max(b.high - b.low, Abs(b.high - prevClose)), Abs(b.low - prevClose))
  }

  /** Sum of the true ranges of bars 1.. against each previous close. */
  function TrueRangeSum(bars: seq<Bar>): (s: real)
    ensures s >= 0.0
  {
    if |bars| < 2 then 0.0
    else TrueRangeSum(bars[..|bars| - 1]) + TrueRange(bars[|bars| - 1], bars[|bars| - 2].close)
  }

  /** `calculate_atr`: one bar's range alone, or the mean true range of the later bars. */
  function Atr(bars: seq<Bar>): (r: real)
    ensures |bars| == 0 ==> r == 0.0
    ensures |bars| == 1 ==> r == bars[0].high - bars[0].low
    ensures |bars| >= 2 ==> r >= 0.0
  {
    if |bars| < 2 then (if |bars| == 1 then bars[0].high - bars[0].low else 0.0)
    else TrueRangeSum(bars) / (|bars| - 1) as real
  }

  predicate Above(b: Bar, fairValue: real)
  {
    b.close > fairValue
  }

  /** `count_fair_value_crosses`: consecutive closes on opposite sides of the fair value. */
  function Crosses(bars: seq<Bar>, fairValue: real): (n: nat)
    ensures |bars| < 2 ==> n == 0
    ensures |bars| >= 1 ==> n <= |bars| - 1
  {
    if |bars| < 2 then 0
    else
      Crosses(bars[..|bars| - 1], fairValue)
      + (if Above(bars[|bars| - 1], fairValue) != Above(bars[|bars| - 2], fairValue) then 1 else 0)
  }

  /** An even number of crossings brings price back to the side it started on. */
  lemma {:induction false} CrossesParity(bars: seq<Bar>, fairValue: real)
    requires |bars| >= 1
    ensures Crosses(bars, fairValue) % 2 == 0 <==> Above(bars[0], fairValue) == Above(bars[|bars| - 1], fairValue)
  {
    if |bars| >= 2 {
      CrossesParity(bars[..|bars| - 1], fairValue);
    }
  }

  /** No crossing at all means every close is on the first close's side. */
  lemma {:induction false} NoCrossesOneSide(bars: seq<Bar>, fairValue: real)
    requires |bars| >= 1 && Crosses(bars, fairValue) == 0
    ensures forall i :: 0 <= i < |bars| ==> Above(bars[i], fairValue) == Above(bars[0], fairValue)
  {
    if |bars| >= 2 {
      NoCrossesOneSide(bars[..|bars| - 1], fairValue);
    }
  }

  function DeltaSum(bars: seq<Bar>): int
  {
    if |bars| == 0 then 0 else DeltaSum(bars[..|bars| - 1]) + bars[|bars| - 1].delta
  }

  /** Trend from cumulative delta against half the threshold, halved as Rust's `/` does on `i64`. */
  function TrendDirection(delta: int, threshold: int): (t: int)
    ensures t == 1 <==> delta > HalfTrunc(threshold)
    ensures t == -1 <==> delta < -HalfTrunc(threshold) && delta <= HalfTrunc(threshold)
    ensures -1 <= t <= 1
  {
    if delta > HalfTrunc(threshold) then 1
    else if delta < -HalfTrunc(threshold) then -1
    else 0
  }

  /** The classification: range expansion or strong delta means Imbalanced; everything else is Balanced. */
  function Classify(rangeRatio: real, delta: int, rotations: nat, cfg: Config): (s: MarketState)
    ensures s == Imbalanced <==> rangeRatio >= cfg.rangeExpansionMult || IntAbs(delta) > cfg.deltaThreshold
  {
    if rangeRatio >= cfg.rangeExpansionMult then Imbalanced
    else if IntAbs(delta) > cfg.deltaThreshold then Imbalanced
    else if rotations >= cfg.rotationThreshold then Balanced
    else Balanced
  }

  /** The rotation count and threshold never change the classification. */
  lemma ClassifyIgnoresRotations(rangeRatio: real, delta: int, r1: nat, r2: nat, cfg: Config, threshold: nat)
    ensures Classify(rangeRatio, delta, r1, cfg) == Classify(rangeRatio, delta, r2, cfg.(rotationThreshold := threshold))
  {
  }

  /**
   The analysis window `bars[idx - lookback .. idx + 1]`, clipped at both
   ends; the slice panics in the source if its start passes its end.
   */
  function WindowBounds(n: nat, idx: nat, lookback: nat): (r: (nat, nat))
    requires idx <= n + lookback
    ensures r.0 <= r.1 <= n
    ensures r.1 == if idx + 1 <= n then idx + 1 else n
    ensures r.0 == if idx >= lookback then idx - lookback else 0
    ensures r.1 - r.0 <= lookback + 1
  {
    (SaturatingSub(idx, lookback), if idx + 1 <= n then idx + 1 else n)
  }

  function RangeRatio(window: seq<Bar>, atr: real): (r: real)
    requires |window| > 0
    ensures atr <= 0.0 ==> r == 0.0
  {
    var range := WindowHigh(window).value - WindowLow(window).value;
    if atr > 0.0 then range / atr else 0.0
  }

  /** `detect_market_state`. */
  function DetectMarketState(bars: seq<Bar>, idx: nat, cfg: Config): (r: StateResult)
    requires idx <= |bars| + cfg.lookbackBars
    ensures var (s, e) := WindowBounds(|bars|, idx, cfg.lookbackBars);
            s == e ==> r == StateResult(Balanced, 0.0, 0.0, 0, 0.0, 0, 0)
    ensures var (s, e) := WindowBounds(|bars|, idx, cfg.lookbackBars);
            s < e ==> (r.cumulativeDelta == DeltaSum(bars[s..e]) && r.rotationCount <= e - s - 1
                       && (r.state == Imbalanced <==> r.rangeRatio >= cfg.rangeExpansionMult || IntAbs(r.cumulativeDelta) > cfg.deltaThreshold)
                       && r.trendDirection == TrendDirection(r.cumulativeDelta, cfg.deltaThreshold))
    ensures r.atr <= 0.0 ==> r.rangeRatio == 0.0
  {
    var (s, e) := WindowBounds(|bars|, idx, cfg.lookbackBars);
    var window := bars[s..e];
    if |window| == 0 then StateResult(Balanced, 0.0, 0.0, 0, 0.0, 0, 0)
    else
      var fv := Vwap(window);
      var atr := Atr(window);
      var rotations := Crosses(window, fv);
      var ratio := RangeRatio(window, atr);
      var delta := DeltaSum(window);
      StateResult(Classify(ratio, delta, rotations, cfg), fv, atr, rotations, ratio, delta,
                  TrendDirection(delta, cfg.deltaThreshold))
  }

  /** Only bars after the index are outside the window: later bars never change a state. */
  lemma DetectIgnoresFuture(bars: seq<Bar>, more: seq<Bar>, idx: nat, cfg: Config)
    requires idx < |bars|
    ensures DetectMarketState(bars + more, idx, cfg) == DetectMarketState(bars, idx, cfg)
  {
    var (s, e) := WindowBounds(|bars|, idx, cfg.lookbackBars);
    assert (bars + more)[s..e] == bars[s..e];
  }

  /** `precompute_market_states`: one result per bar, each from that bar's window. */
  function PrecomputeMarketStates(bars: seq<Bar>, cfg: Config): (r: seq<StateResult>)
    ensures |r| == |bars|
    ensures forall i :: 0 <= i < |r| ==> r[i] == DetectMarketState(bars, i, cfg)
  {
    seq(|bars|, i requires 0 <= i < |bars| => DetectMarketState(bars, i, cfg))
  }

  /** Precomputing on a longer feed extends the earlier states without changing them. */
  lemma PrecomputePrefix(bars: seq<Bar>, more: seq<Bar>, cfg: Config)
    ensures PrecomputeMarketStates(bars + more, cfg)[..|bars|] == PrecomputeMarketStates(bars, cfg)
  {
    forall i | 0 <= i < |bars|
      ensures PrecomputeMarketStates(bars + more, cfg)[i] == PrecomputeMarketStates(bars, cfg)[i]
    {
      DetectIgnoresFuture(bars, more, i, cfg);
    }
  }
}
