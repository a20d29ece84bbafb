/**
 The three-element backtester (`pipeline/three_element_backtest.rs`): an
 aggression event is traded only when the market state, a key level near
 the event's price and the event's direction agree. A balanced market
 fades at value-area and prior-session extremes (mean reversion); an
 imbalanced one joins its trend with a trailing stop (trend continuation).

 The aggression events themselves (from bars and captured signals) are
 inputs here; the clock is a parameter giving a timestamp's UTC hour and
 minute; days are UTC day numbers.

 The pipeline's own `market_state` module is not part of this model; the
 `trading_core` copy (module `MarketRegime`) stands in for it.
 */
module ThreeElement {
  import opened Base
  import opened Market
  import opened Impulse
  import opened Stats
  import opened Levels
  import opened Sorting
  import MarketRegime
  import RetestBacktest

  datatype TradeModel = MeanReversion | TrendContinuation

  datatype TradeOutcome = Win | Loss | Timeout

  datatype AggressionType =
    | DeltaMomentumUp | DeltaMomentumDown | StackedBidImbalance | StackedAskImbalance
    | TradeFlowImbalance | CapturedSignal

  datatype AggressionEvent = AggressionEvent(
    barIdx: nat, timestamp: int, aggressionType: AggressionType, direction: Direction,
    strength: real, price: real, deltaChange: int)

  datatype ThreeElementConfig = ThreeElementConfig(
    levelTolerance: real,
    mrStopLoss: real, mrTakeProfit: real, mrMaxHoldBars: nat,
    tcStopLoss: real, tcTakeProfit: real, tcMaxHoldBars: nat, tcTrailingStop: real,
    rthOnly: bool, globalCooldown: nat, levelCooldown: nat)

  /** The defaults, in one-second bars: 3 minutes' hold for mean reversion, 10 for trends, 10 minutes between trades, 30 per level. */
  const DefaultConfig := ThreeElementConfig(1.0, 6.0, 12.0, 180, 10.0, 30.0, 600, 5.0, true, 600, 1800)

  datatype ThreeElementTrade = ThreeElementTrade(
    entryIdx: nat, exitIdx: nat, entryTime: int, exitTime: int,
    direction: Direction, model: TradeModel, entryPrice: real, exitPrice: real,
    stopLoss: real, takeProfit: real, pnlPoints: real, outcome: TradeOutcome,
    aggressionType: AggressionType, levelType: LevelType, levelPrice: real,
    marketState: MarketRegime.MarketState, deltaChange: int, trendDirection: int)

  // ---------------------------------------------------------------------
  // Bar lookup and hours

  /** The bars are in time order. */
  predicate Sorted(bars: seq<Bar>)
  {
    forall i, j :: 0 <= i < j < |bars| ==> bars[i].ts <= bars[j].ts
  }

  /**
   `find_bar_index_binary`: the last bar at or before `t`. Whatever the
   order, a result is a bar at or before `t` whose successor (if any) is
   after it, and no result means there are no bars or the first is after
   `t`; for time-ordered bars, no result means exactly that and a result
   is the last such bar.
   */
  method FindBarIndexBinary(bars: seq<Bar>, t: int) returns (r: Option<nat>)
    ensures r.Some? ==> r.value < |bars| && bars[r.value].ts <= t && (r.value + 1 == |bars| || bars[r.value + 1].ts > t)
    ensures r.None? ==> |bars| == 0 || bars[0].ts > t
    ensures Sorted(bars) ==> (r.None? <==> |bars| == 0 || bars[0].ts > t)
    ensures Sorted(bars) && r.Some? ==> forall j :: r.value < j < |bars| ==> bars[j].ts > t
  {
    if |bars| == 0 {
      return None;
    }
    var low := 0;
    var high := |bars|;
    while low < high
      invariant 0 <= low <= high <= |bars|
      invariant low == 0 || bars[low - 1].ts <= t
      invariant high == |bars| || bars[high].ts > t
      decreases high - low
    {
      var mid := (low + high) / 2;
      if bars[mid].ts <= t {
        low := mid + 1;
      } else {
        high := mid;
      }
    }
    if low > 0 {
      r := Some(low - 1);
      if Sorted(bars) {
        forall j | low - 1 < j < |bars| ensures bars[j].ts > t {
          assert bars[low].ts <= bars[j].ts;
        }
      }
    } else {
      // `low` and `high` met at 0, so the first bar is after `t` and the
      // source's fallback for a first bar at or before `t` is never taken
      assert bars[0].ts > t;
      r := None;
    }
  }

  /** `is_rth`: the morning session 14:30 to 17:00 UTC and the power hour 20:00 to 21:00 UTC, ends excluded. */
  predicate IsRth(hour: nat, minute: nat)
  {
    var m := hour * 60 + minute;
    (870 <= m < 1020) || (1200 <= m < 1260)
  }

  /** The windows' edges: 14:30 and 20:00 are in, 14:29, 17:00 and 21:00 out. */
  lemma RthEdges()
    ensures IsRth(14, 30) && IsRth(16, 59) && IsRth(20, 0) && IsRth(20, 59)
    ensures !IsRth(14, 29) && !IsRth(17, 0) && !IsRth(19, 59) && !IsRth(21, 0)
  {
  }

  // ---------------------------------------------------------------------
  // Alignment

  predicate SupportLevel(t: LevelType) { t == VAL || t == PDL || t == ONL }

  predicate ResistanceLevel(t: LevelType) { t == VAH || t == PDH || t == ONH }

  predicate NeutralLevel(t: LevelType) { t == POC || t == LVN }

  /**
   `should_take_trade`. Balanced: at support only a long event is taken, at
   resistance only a short one, and at the point of control or an LVN the
   event's direction is followed. Imbalanced: only an event in the trend's
   direction is taken. The rule names only those eight level types; the
   later ones (Fibonacci, VWAP, weekly and monthly levels) take no trade.
   */
  function ShouldTakeTrade(eventDir: Direction, level: LevelType, ms: MarketRegime.StateResult): (r: Option<Direction>)
    ensures r.Some? ==> r.value == eventDir
    ensures ms.state == MarketRegime.Balanced ==>
              (r.Some? <==> (SupportLevel(level) && eventDir == Long) || (ResistanceLevel(level) && eventDir == Short) || NeutralLevel(level))
    ensures ms.state == MarketRegime.Imbalanced ==>
              (r.Some? <==> (ms.trendDirection > 0 && eventDir == Long) || (ms.trendDirection < 0 && eventDir == Short))
  {
    match ms.state
    case Balanced =>
      if SupportLevel(level) then (if eventDir == Long then Some(Long) else None)
      else if ResistanceLevel(level) then (if eventDir == Short then Some(Short) else None)
      else if NeutralLevel(level) then Some(eventDir)
      else None
    case Imbalanced =>
      if ms.trendDirection > 0 && eventDir == Long then Some(Long)
      else if ms.trendDirection < 0 && eventDir == Short then Some(Short)
      else None
  }

  /** A balanced market is traded as mean reversion, an imbalanced one as trend continuation. */
  function ModelFor(s: MarketRegime.MarketState): (m: TradeModel)
    ensures m == MeanReversion <==> s == MarketRegime.Balanced
  {
    if s == MarketRegime.Balanced then MeanReversion else TrendContinuation
  }

  // ---------------------------------------------------------------------
  // Trade simulation

  datatype ExitKind = TargetExit | StopExit | TimedOut

  datatype Walked = Walked(idx: nat, kind: ExitKind, stop: real)

  /**
   The loop of `simulate_trade` from bar `i` up to (not including)
   `maxBar`: each bar becomes the exit bar, moves the extremes and (for a
   trend trade) the trailing stop, then exits at the target if the bar
   reaches it and otherwise at the stop if the bar reaches that.
   */
  function Walk(bars: seq<Bar>, i: nat, maxBar: nat, d: Direction, trailing: bool, entry: real, target: real,
                dist: real, stop: real, hi: real, lo: real, lastIdx: nat): (r: Walked)
    requires maxBar <= |bars| && lastIdx < |bars| && lastIdx < i
    ensures lastIdx <= r.idx < |bars| && (r.idx == lastIdx || r.idx < maxBar)
    ensures d == Long ==> r.stop >= stop
    ensures d == Short ==> r.stop <= stop
    ensures !trailing ==> r.stop == stop
    ensures r.kind == TargetExit ==> r.idx >= i && RetestBacktest.TargetTouched(d, bars[r.idx], target)
    ensures r.kind == StopExit ==> r.idx >= i && RetestBacktest.StopTouched(d, bars[r.idx], r.stop)
                                   && !RetestBacktest.TargetTouched(d, bars[r.idx], target)
    ensures r.kind == TimedOut ==> r.idx == (if i < maxBar then maxBar - 1 else lastIdx)
    ensures r.kind == TimedOut && r.idx >= i ==> !RetestBacktest.TargetTouched(d, bars[r.idx], target)
    decreases maxBar - i
  {
    if i >= maxBar then Walked(lastIdx, TimedOut, stop)
    else
      var b := bars[i];
      var hi2 := Max(hi, b.high);
      var lo2 := Min(lo, b.low);
      var stop2 := if trailing then RetestBacktest.Trail(d, entry, dist, hi2, lo2, stop) else stop;
      if RetestBacktest.TargetTouched(d, b, target) then Walked(i, TargetExit, stop2)
      else if RetestBacktest.StopTouched(d, b, stop2) then Walked(i, StopExit, stop2)
      else Walk(bars, i + 1, maxBar, d, trailing, entry, target, dist, stop2, hi2, lo2, i)
  }

  /** The stop, target and hold of a model. */
  function Params(c: ThreeElementConfig, m: TradeModel): (nat, real, real)
  {
    match m
    case MeanReversion => (c.mrMaxHoldBars, c.mrStopLoss, c.mrTakeProfit)
    case TrendContinuation => (c.tcMaxHoldBars, c.tcStopLoss, c.tcTakeProfit)
  }

  /** The plausible range of an NQ price. */
  predicate PlausiblePrice(p: real) { 10000.0 <= p <= 50000.0 }

  /** A stop or timeout exit is a loss unless it made money, in which case it is counted as a timeout. */
  function Reclassify(kind: ExitKind, pnl: real): (o: TradeOutcome)
    ensures o == Win <==> kind == TargetExit
    ensures o == Loss <==> kind != TargetExit && pnl <= 0.0
  {
    if kind == TargetExit then Win else if pnl > 0.0 then Timeout else Loss
  }

  /**
   `simulate_trade`: the entry is the next bar's open and the stop and
   target the model's distances from it; the trade is walked for at most
   the model's hold. A timeout exits at the exit bar's close (the entry
   bar's own close when no bar followed). The trade is dropped when no
   bar follows the signal, when the entry is outside 10000 to 50000, or
   when the exit is more than 500 points from the entry.
   */
  function SimulateTrade(bars: seq<Bar>, c: ThreeElementConfig, signalIdx: nat, d: Direction, m: TradeModel,
                         ev: AggressionEvent, level: KeyLevel, ms: MarketRegime.StateResult): (r: Option<ThreeElementTrade>)
    ensures signalIdx + 1 >= |bars| || !PlausiblePrice(bars[signalIdx + 1].open) ==> r.None?
    ensures r.Some? ==>
              var t := r.value;
              var (hold, sl, tp) := Params(c, m);
              t.entryIdx == signalIdx + 1 && t.entryPrice == bars[t.entryIdx].open && PlausiblePrice(t.entryPrice)
              && t.entryIdx <= t.exitIdx < |bars| && t.exitIdx <= t.entryIdx + hold
              && Abs(t.exitPrice - t.entryPrice) <= 500.0
              && t.stopLoss == (if d == Long then t.entryPrice - sl else t.entryPrice + sl)
              && t.takeProfit == (if d == Long then t.entryPrice + tp else t.entryPrice - tp)
              && t.pnlPoints == RetestBacktest.Points(d, t.entryPrice, t.exitPrice)
              && t.direction == d && t.model == m && t.levelType == level.levelType && t.levelPrice == level.price
              && t.marketState == ms.state && t.trendDirection == ms.trendDirection
              && t.aggressionType == ev.aggressionType && t.deltaChange == ev.deltaChange
              && t.entryTime == bars[t.entryIdx].ts && t.exitTime == bars[t.exitIdx].ts
    ensures r.Some? ==> var t := r.value;
              (t.outcome == Win ==> t.exitPrice == t.takeProfit && t.exitIdx > t.entryIdx
                                    && RetestBacktest.TargetTouched(d, bars[t.exitIdx], t.takeProfit))
              && (t.outcome != Win && t.exitIdx > t.entryIdx ==> !RetestBacktest.TargetTouched(d, bars[t.exitIdx], t.takeProfit))
              && (t.outcome == Loss ==> t.pnlPoints <= 0.0)
              && (t.outcome == Timeout ==> t.pnlPoints > 0.0)
  {
    var e := signalIdx + 1;
    if e >= |bars| then None
    else
      var entry := bars[e].open;
      var (hold, sl, tp) := Params(c, m);
      var stop := if d == Long then entry - sl else entry + sl;
      var target := if d == Long then entry + tp else entry - tp;
      var maxBar := MinNat(|bars|, e + hold + 1);
      var w := Walk(bars, e + 1, maxBar, d, m == TrendContinuation, entry, target, c.tcTrailingStop, stop, entry, entry, e);
      var exitPrice := match w.kind
        case TargetExit => target
        case StopExit => w.stop
        case TimedOut => bars[w.idx].close;
      if !PlausiblePrice(entry) then None
      else if Abs(exitPrice - entry) > 500.0 then None
      else
        var pnl := RetestBacktest.Points(d, entry, exitPrice);
        Some(ThreeElementTrade(e, w.idx, bars[e].ts, bars[w.idx].ts, d, m, entry, exitPrice, stop, target, pnl,
                               Reclassify(w.kind, pnl), ev.aggressionType, level.levelType, level.price, ms.state,
                               ev.deltaChange, ms.trendDirection))
  }

  /** A trade whose target lies beyond the entry wins a positive amount; only losses lose money. */
  lemma OutcomeSigns(bars: seq<Bar>, c: ThreeElementConfig, signalIdx: nat, d: Direction, m: TradeModel,
                     ev: AggressionEvent, level: KeyLevel, ms: MarketRegime.StateResult)
    requires Params(c, m).2 > 0.0
    requires SimulateTrade(bars, c, signalIdx, d, m, ev, level, ms).Some?
    ensures var t := SimulateTrade(bars, c, signalIdx, d, m, ev, level, ms).value;
            (t.outcome == Win ==> t.pnlPoints > 0.0) && (t.pnlPoints < 0.0 ==> t.outcome == Loss)
  {
  }

  // ---------------------------------------------------------------------
  // Per-model statistics

  datatype ModelStats = ModelStats(
    tradeCount: nat, wins: nat, losses: nat, timeouts: nat,
    winRate: real, totalPnl: real, avgWin: real, avgLoss: real, profitFactor: Ratio,
    largestWin: real, largestLoss: real)

  const EmptyStats := ModelStats(0, 0, 0, 0, 0.0, 0.0, 0.0, 0.0, Finite(0.0), 0.0, 0.0)

  function CountOutcome(ts: seq<ThreeElementTrade>, o: TradeOutcome): (n: nat)
    ensures n <= |ts|
  {
    if |ts| == 0 then 0 else CountOutcome(ts[..|ts| - 1], o) + (if ts[|ts| - 1].outcome == o then 1 else 0)
  }

  lemma {:induction false} OutcomesPartition(ts: seq<ThreeElementTrade>)
    ensures CountOutcome(ts, Win) + CountOutcome(ts, Loss) + CountOutcome(ts, Timeout) == |ts|
  {
    if |ts| > 0 {
      OutcomesPartition(ts[..|ts| - 1]);
    }
  }

  function PnlOf(ts: seq<ThreeElementTrade>): (ps: seq<real>)
    ensures |ps| == |ts| && forall k :: 0 <= k < |ts| ==> ps[k] == ts[k].pnlPoints
  {
    if |ts| == 0 then [] else PnlOf(ts[..|ts| - 1]) + [ts[|ts| - 1].pnlPoints]
  }

  /** What a trade adds to the winning total: a win's P&L, or a timeout's when not negative. */
  function WinPart(t: ThreeElementTrade): real
  {
    match t.outcome
    case Win => t.pnlPoints
    case Loss => 0.0
    case Timeout => if t.pnlPoints >= 0.0 then t.pnlPoints else 0.0
  }

  /** What a trade adds to the losing total: a loss's size, or a negative timeout's. */
  function LossPart(t: ThreeElementTrade): real
  {
    match t.outcome
    case Win => 0.0
    case Loss => Abs(t.pnlPoints)
    case Timeout => if t.pnlPoints >= 0.0 then 0.0 else Abs(t.pnlPoints)
  }

  function WinTotal(ts: seq<ThreeElementTrade>): real
  {
    if |ts| == 0 then 0.0 else WinTotal(ts[..|ts| - 1]) + WinPart(ts[|ts| - 1])
  }

  function LossTotal(ts: seq<ThreeElementTrade>): (l: real)
    ensures l >= 0.0
  {
    if |ts| == 0 then 0.0 else LossTotal(ts[..|ts| - 1]) + LossPart(ts[|ts| - 1])
  }

  /** The largest win's P&L, 0 when there is none larger. */
  function LargestWin(ts: seq<ThreeElementTrade>): (w: real)
    ensures w >= 0.0
    ensures forall k :: 0 <= k < |ts| && ts[k].outcome == Win ==> ts[k].pnlPoints <= w
    ensures w == 0.0 || exists k :: 0 <= k < |ts| && ts[k].outcome == Win && ts[k].pnlPoints == w
  {
    if |ts| == 0 then 0.0
    else
      var init := ts[..|ts| - 1];
      var prev := LargestWin(init);
      var t := ts[|ts| - 1];
      if t.outcome == Win && t.pnlPoints > prev then t.pnlPoints else prev
  }

  /** The largest loss's size, 0 when there is no loss. */
  function LargestLoss(ts: seq<ThreeElementTrade>): (l: real)
    ensures l >= 0.0
    ensures forall k :: 0 <= k < |ts| && ts[k].outcome == Loss ==> Abs(ts[k].pnlPoints) <= l
    ensures l == 0.0 || exists k :: 0 <= k < |ts| && ts[k].outcome == Loss && Abs(ts[k].pnlPoints) == l
  {
    if |ts| == 0 then 0.0
    else
      var init := ts[..|ts| - 1];
      var prev := LargestLoss(init);
      var t := ts[|ts| - 1];
      if t.outcome == Loss && Abs(t.pnlPoints) > prev then Abs(t.pnlPoints) else prev
  }

  /**
   `ModelStats::from_trades`: the default for no trades; otherwise the
   outcome counts, the win rate, the net P&L, the averages of the winning
   and losing totals over the wins and losses, their profit factor and the
   largest win and loss.
   */
  function FromTrades(ts: seq<ThreeElementTrade>): (s: ModelStats)
    ensures |ts| == 0 ==> s == EmptyStats
    ensures s.tradeCount == |ts| && s.wins + s.losses + s.timeouts == s.tradeCount
    ensures s.wins == CountOutcome(ts, Win) && s.winRate == WinRatePercent(s.wins, |ts|) && 0.0 <= s.winRate <= 100.0
    ensures s.totalPnl == Sum(PnlOf(ts)) && s.avgLoss >= 0.0
    ensures s.profitFactor == Infinite <==> LossTotal(ts) == 0.0 && WinTotal(ts) > 0.0
  {
    if |ts| == 0 then EmptyStats
    else
      OutcomesPartition(ts);
      var w := CountOutcome(ts, Win);
      var l := CountOutcome(ts, Loss);
      var avgLoss := if l > 0 then LossTotal(ts) / l as real else 0.0;
      assert avgLoss >= 0.0 by {
        if l > 0 {
          var d := l as real;
          assert d > 0.0 && LossTotal(ts) >= 0.0;
        }
      }
      ModelStats(|ts|, w, l, CountOutcome(ts, Timeout), WinRatePercent(w, |ts|), Sum(PnlOf(ts)),
                 if w > 0 then WinTotal(ts) / w as real else 0.0,
                 avgLoss,
                 Factor(WinTotal(ts), LossTotal(ts)), LargestWin(ts), LargestLoss(ts))
  }

  /** The running totals of the `from_trades` loop. */
  datatype Totals = Totals(wins: nat, losses: nat, timeouts: nat, totalWins: real, totalLosses: real,
                           totalPnl: real, largestWin: real, largestLoss: real)

  /** The totals after a sequence of trades. */
  function TotalsOf(ts: seq<ThreeElementTrade>): Totals
  {
    Totals(CountOutcome(ts, Win), CountOutcome(ts, Loss), CountOutcome(ts, Timeout), WinTotal(ts), LossTotal(ts),
           Sum(PnlOf(ts)), LargestWin(ts), LargestLoss(ts))
  }

  /** One pass of the loop body: count the outcome, add to the winning or losing total, track the extremes. */
  function AddTrade(a: Totals, t: ThreeElementTrade): Totals
  {
    var a2 := a.(totalPnl := a.totalPnl + t.pnlPoints);
    match t.outcome
    case Win =>
      a2.(wins := a.wins + 1, totalWins := a.totalWins + t.pnlPoints,
          largestWin := if t.pnlPoints > a.largestWin then t.pnlPoints else a.largestWin)
    case Loss =>
      a2.(losses := a.losses + 1, totalLosses := a.totalLosses + Abs(t.pnlPoints),
          largestLoss := if Abs(t.pnlPoints) > a.largestLoss then Abs(t.pnlPoints) else a.largestLoss)
    case Timeout =>
      if t.pnlPoints >= 0.0 then a2.(timeouts := a.timeouts + 1, totalWins := a.totalWins + t.pnlPoints)
      else a2.(timeouts := a.timeouts + 1, totalLosses := a.totalLosses + Abs(t.pnlPoints))
  }

  /** The loop body extends the totals by one trade. */
  lemma TotalsSnoc(ts: seq<ThreeElementTrade>, t: ThreeElementTrade)
    ensures TotalsOf(ts + [t]) == AddTrade(TotalsOf(ts), t)
  {
    var u := ts + [t];
    assert u[..|u| - 1] == ts;
  }

  /** The totals after the first `i + 1` trades extend those after the first `i`. */
  lemma TotalsPrefix(ts: seq<ThreeElementTrade>, i: nat)
    requires i < |ts|
    ensures TotalsOf(ts[..i + 1]) == AddTrade(TotalsOf(ts[..i]), ts[i])
  {
    assert ts[..i + 1] == ts[..i] + [ts[i]];
    TotalsSnoc(ts[..i], ts[i]);
  }

  /** The statistics `from_trades` builds from the final totals of `n` trades. */
  function StatsOf(n: nat, a: Totals): ModelStats
  {
    ModelStats(n, a.wins, a.losses, a.timeouts, WinRatePercent(a.wins, n), a.totalPnl,
               if a.wins > 0 then a.totalWins / a.wins as real else 0.0,
               if a.losses > 0 then a.totalLosses / a.losses as real else 0.0,
               Factor(a.totalWins, a.totalLosses), a.largestWin, a.largestLoss)
  }

  lemma StatsOfTotals(ts: seq<ThreeElementTrade>)
    requires |ts| > 0
    ensures FromTrades(ts) == StatsOf(|ts|, TotalsOf(ts))
  {
  }

  /** The loop `from_trades` runs, one trade at a time, computes the same statistics. */
  method FromTradesLoop(ts: seq<ThreeElementTrade>) returns (s: ModelStats)
    ensures s == FromTrades(ts)
  {
    if |ts| == 0 {
      return EmptyStats;
    }
    var a := TotalsLoop(ts);
    StatsOfTotals(ts);
    s := StatsOf(|ts|, a);
  }

  /** The loop's running totals, one trade at a time. */
  method TotalsLoop(ts: seq<ThreeElementTrade>) returns (a: Totals)
    ensures a == TotalsOf(ts)
  {
    a := Totals(0, 0, 0, 0.0, 0.0, 0.0, 0.0, 0.0);
    var i := 0;
    while i < |ts|
      invariant 0 <= i <= |ts|
      invariant a == TotalsOf(ts[..i])
    {
      TotalsPrefix(ts, i);
      a := AddTrade(a, ts[i]);
      i := i + 1;
    }
    assert ts[..|ts|] == ts;
  }

  /** When every loss lost money, the winning total less the losing total is the net P&L. */
  lemma {:induction false} TotalsNet(ts: seq<ThreeElementTrade>)
    requires forall k :: 0 <= k < |ts| && ts[k].outcome == Loss ==> ts[k].pnlPoints <= 0.0
    ensures WinTotal(ts) - LossTotal(ts) == Sum(PnlOf(ts))
  {
    if |ts| > 0 {
      TotalsNet(ts[..|ts| - 1]);
    }
  }

  // ---------------------------------------------------------------------
  // The run

  datatype RunState = RunState(lastExit: Option<nat>, traded: map<int, nat>, trades: seq<ThreeElementTrade>)

  /** A level's cooldown key: its price in hundredths, truncated. */
  function LevelKey(price: real): int
  {
    Trunc(price * 100.0)
  }

  /** The inputs `run` reads besides the events. */
  datatype Context = Context(
    bars: seq<Bar>, config: ThreeElementConfig, index: LevelIndex,
    states: seq<MarketRegime.StateResult>, clock: int -> (nat, nat))

  /** Within the global cooldown: at or before the last exit plus the cooldown. */
  predicate InGlobalCooldown(last: Option<nat>, barIdx: nat, cooldown: nat)
  {
    last.Some? && barIdx <= last.value + cooldown
  }

  predicate LevelOnCooldown(traded: map<int, nat>, key: int, barIdx: nat, cooldown: nat)
  {
    key in traded && barIdx < traded[key] + cooldown
  }

  /**
   One event of `run`: skipped within the global cooldown, outside the
   hours (when restricted), past the precomputed market states, away from
   any key level, at a level on cooldown, or when the elements do not
   align; otherwise traded, and a trade records its exit as the last exit
   and as its level's last trade.
   */
  function Step(cx: Context, ev: AggressionEvent, st: RunState): (r: RunState)
    ensures InGlobalCooldown(st.lastExit, ev.barIdx, cx.config.globalCooldown) ==> r == st
    ensures cx.config.rthOnly && !IsRth(cx.clock(ev.timestamp).0, cx.clock(ev.timestamp).1) ==> r == st
    ensures r == st || (|r.trades| == |st.trades| + 1 && r.trades == st.trades + [r.trades[|st.trades|]])
    ensures r != st ==>
              var t := r.trades[|st.trades|];
              !InGlobalCooldown(st.lastExit, ev.barIdx, cx.config.globalCooldown)
              && t.entryIdx == ev.barIdx + 1 && t.entryIdx <= t.exitIdx && r.lastExit == Some(t.exitIdx)
              && r.traded == st.traded[LevelKey(t.levelPrice) := t.exitIdx]
              && !LevelOnCooldown(st.traded, LevelKey(t.levelPrice), ev.barIdx, cx.config.levelCooldown)
              && (t.outcome == Loss ==> t.pnlPoints <= 0.0)
  {
    var c := cx.config;
    if InGlobalCooldown(st.lastExit, ev.barIdx, c.globalCooldown) then st
    else if c.rthOnly && !IsRth(cx.clock(ev.timestamp).0, cx.clock(ev.timestamp).1) then st
    else if ev.barIdx >= |cx.states| then st
    else
      var ms := cx.states[ev.barIdx];
      match StrongestLevelNear(cx.index, ev.price, DayOf(ev.timestamp))
      case None => st
      case Some(level) =>
        var key := LevelKey(level.price);
        if LevelOnCooldown(st.traded, key, ev.barIdx, c.levelCooldown) then st
        else
          match ShouldTakeTrade(ev.direction, level.levelType, ms)
          case None => st
          case Some(d) =>
            match SimulateTrade(cx.bars, c, ev.barIdx, d, ModelFor(ms.state), ev, level, ms)
            case None => st
            case Some(t) =>
              assert (st.trades + [t])[|st.trades|] == t;
              RunState(Some(t.exitIdx), st.traded[key := t.exitIdx], st.trades + [t])
  }

  /** Trades apart by more than the global cooldown: each enters more than the cooldown after the previous exit. */
  predicate Spaced(ts: seq<ThreeElementTrade>, cooldown: nat)
  {
    forall k :: 0 <= k < |ts| - 1 ==> ts[k].exitIdx + cooldown < ts[k + 1].entryIdx
  }

  predicate Consistent(st: RunState, cooldown: nat)
  {
    Spaced(st.trades, cooldown)
    && (|st.trades| == 0 <==> st.lastExit.None?)
    && (|st.trades| > 0 ==> st.lastExit == Some(st.trades[|st.trades| - 1].exitIdx))
    && (forall k :: 0 <= k < |st.trades| ==> st.trades[k].entryIdx <= st.trades[k].exitIdx)
    && forall k :: 0 <= k < |st.trades| && st.trades[k].outcome == Loss ==> st.trades[k].pnlPoints <= 0.0
  }

  lemma StepConsistent(cx: Context, ev: AggressionEvent, st: RunState)
    requires Consistent(st, cx.config.globalCooldown)
    ensures Consistent(Step(cx, ev, st), cx.config.globalCooldown)
  {
    var r := Step(cx, ev, st);
    if r != st {
      ExtendConsistent(st, r, r.trades[|st.trades|], ev.barIdx, cx.config.globalCooldown);
    }
  }

  lemma ExtendConsistent(st: RunState, r: RunState, t: ThreeElementTrade, barIdx: nat, cooldown: nat)
    requires Consistent(st, cooldown)
    requires r.trades == st.trades + [t] && r.lastExit == Some(t.exitIdx)
    requires !InGlobalCooldown(st.lastExit, barIdx, cooldown) && t.entryIdx == barIdx + 1 && t.entryIdx <= t.exitIdx
    requires t.outcome == Loss ==> t.pnlPoints <= 0.0
    ensures Consistent(r, cooldown)
  {
    var n := |st.trades|;
    if n > 0 {
      assert st.trades[n - 1].exitIdx == st.lastExit.value;
    }
    assert r.trades[n] == t;
  }

  function RunEvents(cx: Context, evs: seq<AggressionEvent>, st: RunState): (r: RunState)
    decreases |evs|
  {
    if |evs| == 0 then st else RunEvents(cx, evs[1..], Step(cx, evs[0], st))
  }

  lemma {:induction false} RunEventsConsistent(cx: Context, evs: seq<AggressionEvent>, st: RunState)
    requires Consistent(st, cx.config.globalCooldown)
    ensures Consistent(RunEvents(cx, evs, st), cx.config.globalCooldown)
    decreases |evs|
  {
    if |evs| > 0 {
      var next := Step(cx, evs[0], st);
      assert RunEvents(cx, evs, st) == RunEvents(cx, evs[1..], next);
      StepConsistent(cx, evs[0], st);
      RunEventsConsistent(cx, evs[1..], next);
    }
  }

  function EventTime(e: AggressionEvent): real
  {
    e.timestamp as real
  }

  /** The events in time order (a stable sort, as `sort_by_key` is). */
  function SortedEvents(evs: seq<AggressionEvent>): (r: seq<AggressionEvent>)
    ensures SortedBy(r, EventTime) && multiset(r) == multiset(evs)
  {
    SortBy(evs, EventTime)
  }

  /** The trades of `run`: the events taken in time order from a flat start. */
  function RunTrades(cx: Context, evs: seq<AggressionEvent>): seq<ThreeElementTrade>
  {
    RunEvents(cx, SortedEvents(evs), RunState(None, map[], [])).trades
  }

  /** A run's trades are spaced by more than the global cooldown and its losses never made money. */
  lemma RunTradesSpaced(cx: Context, evs: seq<AggressionEvent>)
    ensures Spaced(RunTrades(cx, evs), cx.config.globalCooldown)
    ensures forall k :: 0 <= k < |RunTrades(cx, evs)| && RunTrades(cx, evs)[k].outcome == Loss ==> RunTrades(cx, evs)[k].pnlPoints <= 0.0
  {
    RunEventsConsistent(cx, SortedEvents(evs), RunState(None, map[], []));
  }

  // ---------------------------------------------------------------------
  // Results

  datatype ThreeElementResults = ThreeElementResults(
    totalTrades: nat, winRate: real, profitFactor: Ratio, maxDrawdown: real, totalPnl: real,
    meanReversionStats: ModelStats, trendContinuationStats: ModelStats,
    statsByLevel: map<LevelType, ModelStats>, statsByAggression: map<AggressionType, ModelStats>,
    trades: seq<ThreeElementTrade>)

  function OfModel(ts: seq<ThreeElementTrade>, m: TradeModel): (r: seq<ThreeElementTrade>)
    ensures |r| <= |ts| && forall k :: 0 <= k < |r| ==> r[k].model == m && r[k] in ts
  {
    if |ts| == 0 then [] else OfModel(ts[..|ts| - 1], m) + (if ts[|ts| - 1].model == m then [ts[|ts| - 1]] else [])
  }

  lemma {:induction false} ModelsPartition(ts: seq<ThreeElementTrade>)
    ensures |OfModel(ts, MeanReversion)| + |OfModel(ts, TrendContinuation)| == |ts|
  {
    if |ts| > 0 {
      ModelsPartition(ts[..|ts| - 1]);
    }
  }

  function OfLevel(ts: seq<ThreeElementTrade>, lt: LevelType): (r: seq<ThreeElementTrade>)
    ensures |r| <= |ts| && forall k :: 0 <= k < |r| ==> r[k].levelType == lt && r[k] in ts
    ensures |r| == 0 <==> forall k :: 0 <= k < |ts| ==> ts[k].levelType != lt
  {
    if |ts| == 0 then [] else OfLevel(ts[..|ts| - 1], lt) + (if ts[|ts| - 1].levelType == lt then [ts[|ts| - 1]] else [])
  }

  function OfAggression(ts: seq<ThreeElementTrade>, a: AggressionType): (r: seq<ThreeElementTrade>)
    ensures |r| <= |ts| && forall k :: 0 <= k < |r| ==> r[k].aggressionType == a && r[k] in ts
  {
    if |ts| == 0 then [] else OfAggression(ts[..|ts| - 1], a) + (if ts[|ts| - 1].aggressionType == a then [ts[|ts| - 1]] else [])
  }

  /** The level types the breakdown reports on. */
  predicate ReportedLevel(lt: LevelType)
  {
    lt == POC || lt == VAH || lt == VAL || lt == PDH || lt == PDL || lt == ONH || lt == ONL || lt == LVN
  }

  predicate AtLevel(ts: seq<ThreeElementTrade>, lt: LevelType)
  {
    exists k :: 0 <= k < |ts| && ts[k].levelType == lt
  }

  /** The statistics of each reported level type that was traded. */
  function ByLevel(ts: seq<ThreeElementTrade>): (m: map<LevelType, ModelStats>)
    ensures forall lt :: lt in m <==> ReportedLevel(lt) && AtLevel(ts, lt)
    ensures forall lt :: lt in m ==> m[lt] == FromTrades(OfLevel(ts, lt)) && m[lt].tradeCount > 0
  {
    map lt | ReportedLevel(lt) && AtLevel(ts, lt) :: FromTrades(OfLevel(ts, lt))
  }

  /** The aggression types that were traded. */
  function AggressionTypes(ts: seq<ThreeElementTrade>): (r: set<AggressionType>)
    ensures forall a :: a in r <==> exists k :: 0 <= k < |ts| && ts[k].aggressionType == a
  {
    set k | 0 <= k < |ts| :: ts[k].aggressionType
  }

  /** The statistics of each aggression type that was traded. */
  function ByAggression(ts: seq<ThreeElementTrade>): (m: map<AggressionType, ModelStats>)
    ensures forall a :: a in m <==> a in AggressionTypes(ts)
    ensures forall a :: a in m ==> m[a] == FromTrades(OfAggression(ts, a))
  {
    map a | a in AggressionTypes(ts) :: FromTrades(OfAggression(ts, a))
  }

  /**
   `calculate_results`: zeros for no trades; otherwise the net P&L, the win
   rate, the profit factor and drawdown of the P&L series, the statistics
   of each model, of each of the eight reported level types that was
   traded, and of each aggression type that was traded. The Sharpe ratio
   is not modelled.
   */
  function CalculateResults(ts: seq<ThreeElementTrade>): (r: ThreeElementResults)
    ensures |ts| == 0 ==> r == ThreeElementResults(0, 0.0, Finite(0.0), 0.0, 0.0, EmptyStats, EmptyStats, map[], map[], [])
    ensures r.totalTrades == |ts| && r.totalPnl == Sum(PnlOf(ts)) && 0.0 <= r.winRate <= 100.0
    ensures r.profitFactor == ProfitFactor(PnlOf(ts)) && r.maxDrawdown == MaxDrawdown(PnlOf(ts)) && r.maxDrawdown >= 0.0
    ensures r.meanReversionStats.tradeCount + r.trendContinuationStats.tradeCount == |ts|
    ensures r.statsByLevel == ByLevel(ts) && r.statsByAggression == ByAggression(ts)
  {
    if |ts| == 0 then
      assert ByLevel(ts) == map[];
      assert ByAggression(ts) == map[];
      ThreeElementResults(0, 0.0, Finite(0.0), 0.0, 0.0, EmptyStats, EmptyStats, map[], map[], [])
    else
      var ps := PnlOf(ts);
      ModelsPartition(ts);
      ThreeElementResults(
        |ts|, WinRatePercent(CountOutcome(ts, Win), |ts|), ProfitFactor(ps), MaxDrawdown(ps), Sum(ps),
        FromTrades(OfModel(ts, MeanReversion)), FromTrades(OfModel(ts, TrendContinuation)),
        ByLevel(ts), ByAggression(ts), ts)
  }
}
