/**
 Impulse legs (`trading_core/impulse.rs`): fast, one-directional moves of
 at least 30 points found in one-minute bars, scored on five criteria, and
 the real-time builder that grows a leg bar by bar.
 */
module Impulse {
  import opened Base
  import opened Market

  const MinImpulsePoints: real := 30.0
  const MaxFastCandles: nat := 5
  const MinImpulseScore: nat := 4
  const SwingLookback: nat := 10

  /** Nanoseconds in a UTC day: `date_naive()` of a UTC timestamp. */
  const NanosPerDay: nat := 86_400 * NanosPerSecond

  function DayOf(ts: int): int
  {
    ts / NanosPerDay
  }

  datatype ImpulseDirection = Up | Down

  datatype ImpulseLeg = ImpulseLeg(
    id: nat,
    startTime: int, endTime: int,
    startPrice: real, endPrice: real,
    direction: ImpulseDirection,
    symbol: string, date: int,
    scoreTotal: nat,
    brokeSwing: bool, wasFast: bool, uniformCandles: bool, volumeIncreased: bool, sufficientSize: bool,
    numCandles: nat, totalVolume: nat, avgVolumePerBar: nat)

  /** A candle that closed at or above its open. */
  predicate IsBullish(b: Bar)
  {
    b.close >= b.open
  }

  predicate Matches(b: Bar, dir: ImpulseDirection)
  {
    if dir == Up then IsBullish(b) else !IsBullish(b)
  }

  function CountTrue(bs: seq<bool>): (n: nat)
    ensures n <= |bs|
    ensures n == |bs| <==> forall i :: 0 <= i < |bs| ==> bs[i]
  {
    if |bs| == 0 then 0 else CountTrue(bs[..|bs| - 1]) + (if bs[|bs| - 1] then 1 else 0)
  }

  function MatchingCount(bars: seq<Bar>, dir: ImpulseDirection): (n: nat)
    ensures n <= |bars|
    ensures n == |bars| <== forall i :: 0 <= i < |bars| ==> Matches(bars[i], dir)
  {
    if |bars| == 0 then 0
    else MatchingCount(bars[..|bars| - 1], dir) + (if Matches(bars[|bars| - 1], dir) then 1 else 0)
  }

  /** Two consecutive candle bodies overlap. */
  predicate BodiesOverlap(prev: Bar, curr: Bar)
  {
    Min(curr.open, curr.close) < Max(prev.open, prev.close) && Max(curr.open, curr.close) > Min(prev.open, prev.close)
  }

  /** Number of i in 1..|bars| whose body overlaps the one before. */
  function OverlapCount(bars: seq<Bar>): (n: nat)
    ensures n <= if |bars| == 0 then 0 else |bars| - 1
  {
    if |bars| <= 1 then 0
    else OverlapCount(bars[..|bars| - 1]) + (if BodiesOverlap(bars[|bars| - 2], bars[|bars| - 1]) then 1 else 0)
  }

  /**
   `check_uniform_candles`: at least 70% of the candles point the leg's way
   and fewer than half of the consecutive pairs have overlapping bodies.
   */
  function CheckUniformCandles(bars: seq<Bar>, dir: ImpulseDirection): (r: bool)
    ensures |bars| == 0 ==> !r
    ensures r ==> MatchingCount(bars, dir) as real >= 0.7 * |bars| as real
    ensures r ==> 2 * OverlapCount(bars) < (if |bars| > 1 then |bars| - 1 else 1)
  {
    // both ratios are compared cross-multiplied by their positive denominators
    if |bars| == 0 then false
    else if MatchingCount(bars, dir) as real < 0.7 * |bars| as real then false
    else
      var denom := if |bars| - 1 > 1 then |bars| - 1 else 1;
      2 * OverlapCount(bars) < denom
  }

  /** Each body sits wholly at or above the previous one (a staircase up). */
  predicate Staircase(bars: seq<Bar>)
  {
    forall i :: 1 <= i < |bars| ==> Min(bars[i].open, bars[i].close) >= Max(bars[i - 1].open, bars[i - 1].close)
  }

  lemma {:induction false} StaircaseNoOverlap(bars: seq<Bar>)
    requires Staircase(bars)
    ensures OverlapCount(bars) == 0
  {
    if |bars| > 1 {
      StaircaseNoOverlap(bars[..|bars| - 1]);
    }
  }

  /** A run of rising candles, each body above the last, is uniform for an up leg. */
  lemma RisingStaircaseIsUniform(bars: seq<Bar>)
    requires |bars| > 0 && Staircase(bars)
    requires forall i :: 0 <= i < |bars| ==> IsBullish(bars[i])
    ensures CheckUniformCandles(bars, Up)
  {
    StaircaseNoOverlap(bars);
  }

  // ---------------------------------------------------------------------
  // Swing highs and lows

  /** Highest high of a window, `None` for an empty window (the `f64::MIN` sentinel). */
  function WindowHigh(bars: seq<Bar>): (r: Option<real>)
    ensures r.None? <==> |bars| == 0
    ensures r.Some? ==> (forall i :: 0 <= i < |bars| ==> bars[i].high <= r.value)
                        && exists i :: 0 <= i < |bars| && bars[i].high == r.value
  {
    if |bars| == 0 then None
    else match WindowHigh(bars[..|bars| - 1])
      case None => Some(bars[|bars| - 1].high)
      case Some(m) => Some(Max(m, bars[|bars| - 1].high))
  }

  /** Lowest low of a window, `None` for an empty window (the `f64::MAX` sentinel). */
  function WindowLow(bars: seq<Bar>): (r: Option<real>)
    ensures r.None? <==> |bars| == 0
    ensures r.Some? ==> (forall i :: 0 <= i < |bars| ==> r.value <= bars[i].low)
                        && exists i :: 0 <= i < |bars| && bars[i].low == r.value
  {
    if |bars| == 0 then None
    else match WindowLow(bars[..|bars| - 1])
      case None => Some(bars[|bars| - 1].low)
      case Some(m) => Some(Min(m, bars[|bars| - 1].low))
  }

  /** `find_swing_highs`: nothing for the first `lookback` bars, then the high of the `lookback` bars before. */
  function FindSwingHighs(bars: seq<Bar>, lookback: nat): (r: seq<Option<real>>)
    ensures |r| == |bars|
    ensures forall i :: 0 <= i < |r| && i < lookback ==> r[i].None?
    ensures forall i :: lookback <= i < |r| ==> r[i] == WindowHigh(bars[i - lookback..i])
  {
    seq(|bars|, i requires 0 <= i < |bars| => if i < lookback then None else WindowHigh(bars[i - lookback..i]))
  }

  function FindSwingLows(bars: seq<Bar>, lookback: nat): (r: seq<Option<real>>)
    ensures |r| == |bars|
    ensures forall i :: 0 <= i < |r| && i < lookback ==> r[i].None?
    ensures forall i :: lookback <= i < |r| ==> r[i] == WindowLow(bars[i - lookback..i])
  {
    seq(|bars|, i requires 0 <= i < |bars| => if i < lookback then None else WindowLow(bars[i - lookback..i]))
  }

  /** `check_broke_swing`: the close beyond the prior swing in the leg's direction. */
  function CheckBrokeSwing(dir: ImpulseDirection, endPrice: real, highs: seq<Option<real>>, lows: seq<Option<real>>, idx: nat): (r: bool)
    ensures r && dir == Up ==> idx < |highs| && highs[idx].Some? && endPrice > highs[idx].value
    ensures r && dir == Down ==> idx < |lows| && lows[idx].Some? && endPrice < lows[idx].value
  {
    match dir
    case Up => idx < |highs| && highs[idx].Some? && endPrice > highs[idx].value
    case Down => idx < |lows| && lows[idx].Some? && endPrice < lows[idx].value
  }

  function VolumeSum(bars: seq<Bar>): nat
  {
    if |bars| == 0 then 0 else VolumeSum(bars[..|bars| - 1]) + bars[|bars| - 1].volume
  }

  lemma {:induction false} VolumeSumAppend(a: seq<Bar>, b: seq<Bar>)
    ensures VolumeSum(a + b) == VolumeSum(a) + VolumeSum(b)
  {
    if |b| > 0 {
      assert (a + b)[..|a + b| - 1] == a + b[..|b| - 1];
      VolumeSumAppend(a, b[..|b| - 1]);
    } else {
      assert a + b == a;
    }
  }

  /** Mean volume; `None` stands for the NaN of an empty slice, which compares false. */
  function AvgVolume(bars: seq<Bar>): Option<real>
  {
    if |bars| == 0 then None else Some(VolumeSum(bars) as real / |bars| as real)
  }

  /** `check_volume_increase`: the leg's mean volume beats the prior ten bars' by more than 20%. */
  function CheckVolumeIncrease(moveBars: seq<Bar>, allBars: seq<Bar>, startIdx: nat): (r: bool)
    requires startIdx <= |allBars|
    ensures r ==> startIdx >= SwingLookback && |moveBars| > 0
  {
    if startIdx < SwingLookback then false
    else match (AvgVolume(moveBars), AvgVolume(allBars[startIdx - SwingLookback..startIdx]))
      case (Some(m), Some(p)) => m > p * 1.2
      case _ => false
  }

  /** Close of the window's last candle minus open of its first. */
  function WindowMove(bars: seq<Bar>, start: nat, n: nat): real
    requires 1 <= n && start + n <= |bars|
  {
    bars[start + n - 1].close - bars[start].open
  }

  /** The window of `n` candles at `start` moved at least 30 points. */
  predicate IsBigMove(bars: seq<Bar>, start: nat, n: nat)
    requires 1 <= n && start + n <= |bars|
  {
    Abs(WindowMove(bars, start, n)) >= MinImpulsePoints
  }

  /** The leg found at `start` spanning `n` candles (the UUID is supplied by the caller). */
  function LegAt(bars: seq<Bar>, start: nat, n: nat, highs: seq<Option<real>>, lows: seq<Option<real>>, id: nat): (leg: ImpulseLeg)
    requires 1 <= n && start + n <= |bars|
    ensures leg.numCandles == n && leg.scoreTotal <= 5
    ensures leg.startPrice == bars[start].open && leg.endPrice == bars[start + n - 1].close
    ensures leg.sufficientSize <==> IsBigMove(bars, start, n)
    ensures leg.wasFast <==> n <= MaxFastCandles
    ensures leg.direction == Up <==> leg.endPrice > leg.startPrice
  {
    var change := WindowMove(bars, start, n);
    var dir := if change > 0.0 then Up else Down;
    var moveBars := bars[start..start + n];
    var broke := CheckBrokeSwing(dir, bars[start + n - 1].close, highs, lows, start);
    var uniform := CheckUniformCandles(moveBars, dir);
    var volUp := CheckVolumeIncrease(moveBars, bars, start);
    MakeLeg(id, bars[start], bars[start + n - 1], dir, broke, n <= MaxFastCandles, uniform, volUp,
            IsBigMove(bars, start, n), n, VolumeSum(moveBars))
  }

  function MakeLeg(id: nat, s: Bar, e: Bar, dir: ImpulseDirection, broke: bool, fast: bool, uniform: bool,
                   volUp: bool, sufficient: bool, n: nat, total: nat): (leg: ImpulseLeg)
    requires n >= 1
    ensures leg.numCandles == n && leg.scoreTotal <= 5
    ensures leg.startPrice == s.open && leg.endPrice == e.close && leg.direction == dir
    ensures leg.sufficientSize == sufficient && leg.wasFast == fast
  {
    var score := CountTrue([broke, fast, uniform, volUp, sufficient]);
    ImpulseLeg(id, s.ts, e.ts, s.open, e.close, dir, s.symbol, DayOf(s.ts), score,
               broke, fast, uniform, volUp, sufficient, n, total, total / n)
  }

  /** The first window length from `n` up to 5 (and the data's end) with a big move. */
  function FirstBigWindow(bars: seq<Bar>, start: nat, n: nat): (r: Option<nat>)
    requires start < |bars| && n >= 3
    ensures r.Some? ==> n <= r.value <= MaxFastCandles && start + r.value <= |bars| && IsBigMove(bars, start, r.value)
    ensures r.Some? ==> forall k :: n <= k < r.value ==> !IsBigMove(bars, start, k)
    ensures r.None? ==> forall k :: n <= k <= MaxFastCandles && start + k <= |bars| ==> !IsBigMove(bars, start, k)
    decreases MaxFastCandles + 1 - n
  {
    if n > MaxFastCandles || start + n > |bars| then None
    else if IsBigMove(bars, start, n) then Some(n)
    else FirstBigWindow(bars, start, n + 1)
  }

  /**
   `try_detect_impulse_at`: the first window of 3, 4 or 5 candles (fewer
   when the data ends) whose close-to-open move reaches 30 points.
   */
  function TryDetectImpulseAt(bars: seq<Bar>, start: nat, highs: seq<Option<real>>, lows: seq<Option<real>>, id: nat): (r: Option<ImpulseLeg>)
    requires start < |bars|
    ensures r.Some? ==> 3 <= r.value.numCandles <= MaxFastCandles && start + r.value.numCandles <= |bars|
    ensures r.Some? ==> r.value.sufficientSize && r.value.wasFast && IsBigMove(bars, start, r.value.numCandles)
    ensures r.Some? ==> forall k :: 3 <= k < r.value.numCandles ==> !IsBigMove(bars, start, k)
    ensures r.None? ==> forall k :: 3 <= k <= MaxFastCandles && start + k <= |bars| ==> !IsBigMove(bars, start, k)
  {
    match FirstBigWindow(bars, start, 3)
    case None => None
    case Some(n) => Some(LegAt(bars, start, n, highs, lows, id))
  }

  /**
   The scan of `detect_impulse_legs` from bar `i`: legs scoring at least 4
   are kept with their start index and the scan jumps past them; otherwise
   it moves on one bar. Each leg's UUID is its start index here.
   */
  function ScanFrom(bars: seq<Bar>, i: nat, highs: seq<Option<real>>, lows: seq<Option<real>>): (r: seq<(nat, ImpulseLeg)>)
    ensures forall k :: 0 <= k < |r| ==> i <= r[k].0 && r[k].0 + r[k].1.numCandles <= |bars|
    ensures forall k :: 0 <= k < |r| ==> r[k].1.scoreTotal >= MinImpulseScore && r[k].1.sufficientSize
    ensures forall k :: 0 < k < |r| ==> r[k - 1].0 + r[k - 1].1.numCandles <= r[k].0
    decreases |bars| - i
  {
    if i >= |bars| then []
    else match TryDetectImpulseAt(bars, i, highs, lows, i)
      case Some(leg) =>
        if leg.scoreTotal >= MinImpulseScore then [(i, leg)] + ScanFrom(bars, i + leg.numCandles, highs, lows)
        else ScanFrom(bars, i + 1, highs, lows)
      case None => ScanFrom(bars, i + 1, highs, lows)
  }

  /**
   `detect_impulse_legs` with the legs' start indices: nothing for fewer
   than 15 bars; every leg scores at least 4 and the legs do not overlap.
   */
  function DetectImpulseLegs(bars: seq<Bar>): (r: seq<(nat, ImpulseLeg)>)
    ensures |bars| < SwingLookback + MaxFastCandles ==> r == []
    ensures forall k :: 0 <= k < |r| ==> SwingLookback <= r[k].0 && r[k].0 + r[k].1.numCandles <= |bars|
    ensures forall k :: 0 <= k < |r| ==> r[k].1.scoreTotal >= MinImpulseScore
    ensures forall k :: 0 < k < |r| ==> r[k - 1].0 + r[k - 1].1.numCandles <= r[k].0
  {
    if |bars| < SwingLookback + MaxFastCandles then []
    else ScanFrom(bars, SwingLookback, FindSwingHighs(bars, SwingLookback), FindSwingLows(bars, SwingLookback))
  }

  // ---------------------------------------------------------------------
  // Real-time builder

  datatype ImpulseBuilder = ImpulseBuilder(
    id: nat, startTime: int, startPrice: real, direction: ImpulseDirection,
    bars: seq<Bar>, high: real, low: real, symbol: string)

  /** The builder's extremes are the extremes of its bars. */
  predicate Tracks(b: ImpulseBuilder)
  {
    |b.bars| >= 1 && WindowHigh(b.bars) == Some(b.high) && WindowLow(b.bars) == Some(b.low)
    && b.startPrice == b.bars[0].open
  }

  function NewBuilder(start: Bar, dir: ImpulseDirection, id: nat): (b: ImpulseBuilder)
    ensures Tracks(b) && BarCount(b) == 1
  {
    ImpulseBuilder(id, start.ts, start.open, dir, [start], start.high, start.low, start.symbol)
  }

  function AddBar(b: ImpulseBuilder, bar: Bar): (r: ImpulseBuilder)
    requires Tracks(b)
    ensures Tracks(r)
    ensures BarCount(r) == BarCount(b) + 1
    ensures r.startPrice == b.startPrice && r.direction == b.direction
  {
    var bars := b.bars + [bar];
    assert bars[..|bars| - 1] == b.bars;
    b.(high := Max(b.high, bar.high), low := Min(b.low, bar.low), bars := bars)
  }

  function BarCount(b: ImpulseBuilder): nat { |b.bars| }

  function MoveSize(b: ImpulseBuilder): real
  {
    match b.direction
    case Up => b.high - b.startPrice
    case Down => b.startPrice - b.low
  }

  function EndPrice(b: ImpulseBuilder): real
  {
    match b.direction
    case Up => b.high
    case Down => b.low
  }

  /** A bar whose open and close lie within its range. */
  predicate WellFormed(bar: Bar)
  {
    bar.low <= bar.open <= bar.high && bar.low <= bar.close <= bar.high
  }

  /**
   With well-formed bars the move never goes negative, and it is the
   distance from the start to the end price in the leg's direction.
   */
  lemma MoveSizeFromExtremes(b: ImpulseBuilder)
    requires Tracks(b) && WellFormed(b.bars[0])
    ensures MoveSize(b) >= 0.0
    ensures MoveSize(b) == (if b.direction == Up then EndPrice(b) - b.startPrice else b.startPrice - EndPrice(b))
    ensures b.low <= b.startPrice <= b.high
  {
    assert b.bars[0].high <= b.high;
    assert b.low <= b.bars[0].low;
  }

  predicate IsSufficientSize(b: ImpulseBuilder) { MoveSize(b) >= MinImpulsePoints }

  predicate IsFast(b: ImpulseBuilder) { |b.bars| <= MaxFastCandles }

  predicate IsUniform(b: ImpulseBuilder) { CheckUniformCandles(b.bars, b.direction) }

  predicate VolumeIncreased(b: ImpulseBuilder, priorAvg: real)
  {
    match AvgVolume(b.bars)
    case None => false
    case Some(m) => m > priorAvg * 1.2
  }

  function Criteria(b: ImpulseBuilder, brokeSwing: bool, priorAvg: real): seq<bool>
  {
    [brokeSwing, IsFast(b), IsUniform(b), VolumeIncreased(b, priorAvg), IsSufficientSize(b)]
  }

  /** `score`: how many of the five criteria hold. */
  function Score(b: ImpulseBuilder, brokeSwing: bool, priorAvg: real): (s: nat)
    ensures s <= 5
    ensures s == 5 <==> brokeSwing && IsFast(b) && IsUniform(b) && VolumeIncreased(b, priorAvg) && IsSufficientSize(b)
  {
    var c := Criteria(b, brokeSwing, priorAvg);
    assert (forall i :: 0 <= i < 5 ==> c[i]) <==> c[0] && c[1] && c[2] && c[3] && c[4];
    CountTrue(c)
  }

  /**
   `is_complete`: large enough and scoring at least 4, so at most one of
   the other four criteria may fail.
   */
  function IsComplete(b: ImpulseBuilder, brokeSwing: bool, priorAvg: real): (r: bool)
    ensures r ==> IsSufficientSize(b) && Score(b, brokeSwing, priorAvg) >= MinImpulseScore
    ensures r ==> CountTrue(Criteria(b, brokeSwing, priorAvg)[..4]) >= 3
  {
    var c := Criteria(b, brokeSwing, priorAvg);
    assert c[..5][..4] == c[..4];
    assert c[..5] == c;
    IsSufficientSize(b) && Score(b, brokeSwing, priorAvg) >= MinImpulseScore
  }

  /** `finalize`: the leg the builder has grown. */
  function Finalize(b: ImpulseBuilder, brokeSwing: bool, priorAvg: real): (leg: ImpulseLeg)
    requires |b.bars| >= 1
    ensures leg.id == b.id && leg.startTime == b.startTime && leg.endTime == b.bars[|b.bars| - 1].ts
    ensures leg.numCandles == |b.bars| && leg.totalVolume == VolumeSum(b.bars)
    ensures leg.avgVolumePerBar * leg.numCandles <= leg.totalVolume < (leg.avgVolumePerBar + 1) * leg.numCandles
    ensures leg.endPrice == EndPrice(b) && leg.scoreTotal == Score(b, brokeSwing, priorAvg)
    ensures leg.date == DayOf(b.startTime)
  {
    var n := |b.bars|;
    var total := VolumeSum(b.bars);
    var score := Score(b, brokeSwing, priorAvg);
    ImpulseLeg(b.id, b.startTime, b.bars[n - 1].ts, b.startPrice, EndPrice(b), b.direction, b.symbol,
               DayOf(b.startTime), score, brokeSwing, IsFast(b), IsUniform(b),
               VolumeIncreased(b, priorAvg), IsSufficientSize(b), n, total, AvgPerBar(total, n))
  }

  /** The average volume per bar as `u64` division computes it: rounded down. */
  function AvgPerBar(total: nat, n: nat): (a: nat)
    requires n > 0
    ensures a * n <= total < (a + 1) * n
  {
    total / n
  }
}
