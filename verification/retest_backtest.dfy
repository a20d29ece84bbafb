/**
 The LVN retest backtester (`pipeline/lvn_retest.rs`, `LvnRetestBacktester`):
 the same level states and signal rule as the live generator, run over a
 whole bar series, with each signal traded at the next bar's open under a
 structure stop, a fixed target and a trailing stop.

 The Sharpe ratio (a square root) and the trade's formatted reason are not
 modelled; trades carry their entry and exit bar indices next to the
 timestamps.

 The pipeline's own `impulse` and `market_state` modules are not part of
 this model; the market state comes from the `trading_core` copy
 (module `MarketRegime`) in their place.
 */
module RetestBacktest {
  import opened Base
  import opened Market
  import opened Lvn
  import opened Stats
  import opened RetestSignals
  import MarketRegime

  datatype Outcome = Win | Loss | Breakeven | Timeout

  datatype TradeRecord = TradeRecord(
    entryIdx: nat, exitIdx: nat, entryTime: int, exitTime: int,
    direction: Direction, entryPrice: real, exitPrice: real,
    stopLoss: real, takeProfit: real, pnlPoints: real, peakUnrealized: real,
    outcome: Outcome, levelPrice: real, holdBars: nat)

  /** A P&L's class: above half a point a win, below minus half a point a loss, otherwise breakeven. */
  function Classify(pnl: real): (o: Outcome)
    ensures o != Timeout
    ensures o == Win <==> pnl > 0.5
    ensures o == Loss <==> pnl < -0.5
  {
    if pnl > 0.5 then Win else if pnl < -0.5 then Loss else Breakeven
  }

  /** The points a trade makes: exit minus entry for a long, the reverse for a short. */
  function Points(d: Direction, entry: real, exit: real): (p: real)
    ensures p == if d == Long then exit - entry else entry - exit
  {
    if d == Long then exit - entry else entry - exit
  }

  datatype ExitKind = StopExit | TargetExit | TimedOut

  /** Where a walk through the trade's bars ended, and the trailing state it ended with. */
  datatype Walked = Walked(idx: nat, price: real, kind: ExitKind, stop: real, highest: real, lowest: real)

  /**
   The trailing stop after a new extreme: once price has gone the trailing
   distance in favour, the stop follows the extreme at that distance, but
   only when that tightens it.
   */
  function Trail(d: Direction, entry: real, dist: real, highest: real, lowest: real, stop: real): (r: real)
    ensures d == Long ==> r >= stop && (r == stop || (highest >= entry + dist && r == highest - dist))
    ensures d == Short ==> r <= stop && (r == stop || (lowest <= entry - dist && r == lowest + dist))
  {
    if d == Long then (if highest >= entry + dist && highest - dist > stop then highest - dist else stop)
    else (if lowest <= entry - dist && lowest + dist < stop then lowest + dist else stop)
  }

  predicate StopTouched(d: Direction, b: Bar, stop: real)
  {
    if d == Long then b.low <= stop else b.high >= stop
  }

  predicate TargetTouched(d: Direction, b: Bar, target: real)
  {
    if d == Long then b.high >= target else b.low <= target
  }

  /**
   The bar-by-bar loop of `simulate_trade` from bar `i` up to (not
   including) `maxBar`: update the extremes and the trail, then exit at the
   stop if the bar reaches it, else at the target if the bar reaches it;
   a bar that reaches neither becomes the provisional exit at its close.
   */
  function Walk(bars: seq<Bar>, i: nat, maxBar: nat, d: Direction, entry: real, target: real, dist: real,
                stop: real, hi: real, lo: real, lastIdx: nat, lastPrice: real): (r: Walked)
    requires maxBar <= |bars| && lastIdx < |bars| && lastIdx < i
    ensures lastIdx <= r.idx < |bars| && (r.idx == lastIdx || r.idx < maxBar)
    ensures d == Long ==> r.stop >= stop
    ensures d == Short ==> r.stop <= stop
    ensures r.highest >= hi && r.lowest <= lo
    ensures r.kind == StopExit ==> r.price == r.stop && r.idx >= i && StopTouched(d, bars[r.idx], r.stop)
    ensures r.kind == TargetExit ==> r.price == target && r.idx >= i && TargetTouched(d, bars[r.idx], target)
                                     && !StopTouched(d, bars[r.idx], r.stop)
    ensures r.kind == TimedOut ==> if i < maxBar then r.idx == maxBar - 1 && r.price == bars[maxBar - 1].close
                                   else r.idx == lastIdx && r.price == lastPrice
    decreases maxBar - i
  {
    if i >= maxBar then Walked(lastIdx, lastPrice, TimedOut, stop, hi, lo)
    else
      var b := bars[i];
      var hi2 := Max(hi, b.high);
      var lo2 := Min(lo, b.low);
      var stop2 := Trail(d, entry, dist, hi2, lo2, stop);
      if StopTouched(d, b, stop2) then Walked(i, stop2, StopExit, stop2, hi2, lo2)
      else if TargetTouched(d, b, target) then Walked(i, target, TargetExit, stop2, hi2, lo2)
      else Walk(bars, i + 1, maxBar, d, entry, target, dist, stop2, hi2, lo2, i, b.close)
  }

  /**
   `simulate_trade`: nothing when no bar follows the signal. Otherwise the
   entry is the next bar's open, the stop the structure buffer beyond the
   level (the key in tenths) and the target the take-profit distance from
   the entry; the trade is walked for at most `max_hold_bars` bars, and a
   trade that neither stopped nor hit its target is classified by its P&L,
   so no trade stays a timeout.
   */
  function SimulateTrade(bars: seq<Bar>, c: RetestConfig, signalIdx: nat, d: Direction, levelKey: int): (r: Option<TradeRecord>)
    ensures r.None? <==> signalIdx + 1 >= |bars|
    ensures r.Some? ==>
              var t := r.value;
              var level := KeyPrice(levelKey);
              t.entryIdx == signalIdx + 1 && t.entryPrice == bars[signalIdx + 1].open && t.direction == d
              && t.stopLoss == (if d == Long then level - c.structureStopBuffer else level + c.structureStopBuffer)
              && t.takeProfit == (if d == Long then t.entryPrice + c.takeProfit else t.entryPrice - c.takeProfit)
              && t.entryIdx <= t.exitIdx < |bars| && t.holdBars == t.exitIdx - t.entryIdx
              && (t.exitIdx == t.entryIdx || t.exitIdx < t.entryIdx + c.maxHoldBars)
              && t.pnlPoints == Points(d, t.entryPrice, t.exitPrice)
              && t.peakUnrealized >= 0.0 && t.outcome != Timeout && t.levelPrice == level
              && t.entryTime == bars[t.entryIdx].ts && t.exitTime == bars[t.exitIdx].ts
  {
    var e := signalIdx + 1;
    if e >= |bars| then None
    else
      var entry := bars[e].open;
      var level := KeyPrice(levelKey);
      var stop := if d == Long then level - c.structureStopBuffer else level + c.structureStopBuffer;
      var target := if d == Long then entry + c.takeProfit else entry - c.takeProfit;
      var maxBar := MinNat(e + c.maxHoldBars, |bars|);
      var w := Walk(bars, e + 1, maxBar, d, entry, target, c.trailingStop, stop, entry, entry, e, entry);
      var pnl := Points(d, entry, w.price);
      var outcome :=
        match w.kind
        case TargetExit => Win
        case StopExit => Classify(pnl)
        case TimedOut => Classify(pnl);
      var peak := if d == Long then w.highest - entry else entry - w.lowest;
      Some(TradeRecord(e, w.idx, bars[e].ts, bars[w.idx].ts, d, entry, w.price, stop, target, pnl, peak, outcome, level, w.idx - e))
  }

  /** A target exit is always a win; every other exit is classified by its P&L. */
  lemma OutcomeFollowsPnl(bars: seq<Bar>, c: RetestConfig, signalIdx: nat, d: Direction, levelKey: int)
    requires SimulateTrade(bars, c, signalIdx, d, levelKey).Some?
    ensures var t := SimulateTrade(bars, c, signalIdx, d, levelKey).value;
            t.outcome == Classify(t.pnlPoints) || (t.outcome == Win && t.exitPrice == t.takeProfit)
  {
  }

  /** A bar with only the prices that matter to a simulated trade. */
  function PriceBar(ts: int, o: real, h: real, l: real, cl: real): Bar
  {
    Bar(ts, o, h, l, cl, 0, 0, 0, 0, 0, "NQ")
  }

  /**
   A long at the level 21000.0 entered at 21001: the stop starts 2 points
   under the level; the next bar runs to 21010, which pulls the trail up to
   21006 without touching it and reaches the 21009 target, a win of 8 points.
   */
  lemma SimulateTradeExample()
    ensures var bars := [PriceBar(0, 21000.0, 21001.0, 20999.0, 21000.0), PriceBar(60, 21001.0, 21003.0, 21000.0, 21002.0),
                         PriceBar(120, 21002.0, 21010.0, 21007.0, 21008.0)];
            var t := SimulateTrade(bars, DefaultRetestConfig, 0, Long, 210000);
            t.Some? && t.value.entryPrice == 21001.0 && t.value.stopLoss == 20998.0 && t.value.takeProfit == 21009.0
            && t.value.exitIdx == 2 && t.value.exitPrice == 21009.0 && t.value.pnlPoints == 8.0 && t.value.outcome == Win
            && t.value.peakUnrealized == 9.0 && t.value.holdBars == 1
  {
    var bars := [PriceBar(0, 21000.0, 21001.0, 20999.0, 21000.0), PriceBar(60, 21001.0, 21003.0, 21000.0, 21002.0),
                 PriceBar(120, 21002.0, 21010.0, 21007.0, 21008.0)];
    assert KeyPrice(210000) == 21000.0;
    var w := Walk(bars, 2, 3, Long, 21001.0, 21009.0, 4.0, 20998.0, 21001.0, 21001.0, 1, 21001.0);
    assert Trail(Long, 21001.0, 4.0, 21010.0, 21001.0, 20998.0) == 21006.0;
    assert w == Walked(2, 21009.0, TargetExit, 21006.0, 21010.0, 21001.0);
  }

  // ---------------------------------------------------------------------
  // The run

  datatype RunState = RunState(levels: Book, lastExit: Option<nat>, trades: seq<TradeRecord>)

  /** The market is imbalanced at the bar (over the whole series) and the bar's delta is large enough. */
  predicate Absorbing(bars: seq<Bar>, c: RetestConfig, i: nat)
    requires i < |bars|
  {
    MarketRegime.DetectMarketState(bars, i, MarketRegime.DefaultConfig).state == MarketRegime.Imbalanced
    && IntAbs(bars[i].delta) >= c.minDeltaForAbsorption
  }

  /** The backtester's signal check: the generator's rule, with the market state taken at the bar over the whole series. */
  function SignalAt(bars: seq<Bar>, c: RetestConfig, levels: Book, i: nat): (r: Option<(int, Direction)>)
    requires i < |bars|
    ensures r.Some? <==> Absorbing(bars, c, i) && FirstCandidate(c, levels, bars[i]).Some?
    ensures r.Some? ==> var j := FirstCandidate(c, levels, bars[i]).value;
                        r.value == (levels[j].0, TradeDirection(levels[j].1.impulseDirection))
  {
    if !Absorbing(bars, c, i) then None
    else
      match FirstCandidate(c, levels, bars[i])
      case None => None
      case Some(j) => Some((levels[j].0, TradeDirection(levels[j].1.impulseDirection)))
  }

  /** No trade overlaps the next: each entry comes after the previous trade's exit. */
  predicate Sequential(ts: seq<TradeRecord>)
  {
    forall k :: 0 <= k < |ts| - 1 ==> ts[k].exitIdx < ts[k + 1].entryIdx
  }

  /** The run's bookkeeping: the last exit is the last trade's, and trades follow one another. */
  predicate Consistent(st: RunState)
  {
    Ascending(st.levels) && Sequential(st.trades)
    && (|st.trades| == 0 <==> st.lastExit.None?)
    && (|st.trades| > 0 ==> st.lastExit == Some(st.trades[|st.trades| - 1].exitIdx))
    && (forall k :: 0 <= k < |st.trades| ==> st.trades[k].entryIdx <= st.trades[k].exitIdx)
    && forall k :: 0 <= k < |st.trades| ==> st.trades[k].outcome != Timeout
  }

  /**
   One bar of `run`. In the global cooldown after the last exit only the
   level states move. Outside the hours (when restricted) the bar is
   skipped and the levels do not move. Otherwise the levels move, and a
   signal whose level is out of its own cooldown is traded; the level is
   marked with the trade's exit bar and put back to Touched.
   */
  function Step(bars: seq<Bar>, c: RetestConfig, clock: int -> (nat, nat), i: nat, st: RunState): (r: RunState)
    requires 1 <= i < |bars| && Ascending(st.levels)
    ensures Ascending(r.levels)
    ensures Cooling(st.lastExit, i, c.cooldownBars) ==>
              r == st.(levels := UpdateLevelStates(c, st.levels, i, bars[i], bars[i - 1]))
    ensures !Cooling(st.lastExit, i, c.cooldownBars) && c.rthOnly && !InTradingHours(c, clock(bars[i].ts).0, clock(bars[i].ts).1) ==>
              r == st
    ensures |r.trades| == |st.trades| || |r.trades| == |st.trades| + 1
    ensures r.trades[..|st.trades|] == st.trades
    ensures |r.trades| == |st.trades| + 1 ==>
              !Cooling(st.lastExit, i, c.cooldownBars) && r.trades[|st.trades|].entryIdx == i + 1
              && r.lastExit == Some(r.trades[|st.trades|].exitIdx)
              && r.trades[|st.trades|].entryIdx <= r.trades[|st.trades|].exitIdx
              && r.trades[|st.trades|].outcome != Timeout
    ensures |r.trades| == |st.trades| ==> r.lastExit == st.lastExit
  {
    if Cooling(st.lastExit, i, c.cooldownBars) then st.(levels := UpdateLevelStates(c, st.levels, i, bars[i], bars[i - 1]))
    else if c.rthOnly && !InTradingHours(c, clock(bars[i].ts).0, clock(bars[i].ts).1) then st
    else
      var levels := UpdateLevelStates(c, st.levels, i, bars[i], bars[i - 1]);
      var moved := st.(levels := levels);
      match SignalAt(bars, c, levels, i)
      case None => moved
      case Some((key, d)) =>
        if LevelCooling(levels, key, i, c.levelCooldownBars) then moved
        else
          match SimulateTrade(bars, c, i, d, key)
          case None => moved
          case Some(t) =>
            assert (st.trades + [t])[..|st.trades|] == st.trades;
            RunState(MarkTraded(levels, key, t.exitIdx), Some(t.exitIdx), st.trades + [t])
  }

  /** A step keeps the run's bookkeeping consistent: a new trade starts after the last exit. */
  lemma StepConsistent(bars: seq<Bar>, c: RetestConfig, clock: int -> (nat, nat), i: nat, st: RunState)
    requires 1 <= i < |bars| && Consistent(st)
    ensures Consistent(Step(bars, c, clock, i, st))
  {
    var r := Step(bars, c, clock, i, st);
    ExtendConsistent(st, r, i, c.cooldownBars);
  }

  /** Any state that keeps the trades so far and at most appends one entered after bar `i` out of cooldown stays consistent. */
  lemma ExtendConsistent(st: RunState, r: RunState, i: nat, cooldown: nat)
    requires Consistent(st) && Ascending(r.levels)
    requires |r.trades| == |st.trades| || |r.trades| == |st.trades| + 1
    requires r.trades[..|st.trades|] == st.trades
    requires |r.trades| == |st.trades| + 1 ==>
               !Cooling(st.lastExit, i, cooldown) && r.trades[|st.trades|].entryIdx == i + 1
               && r.lastExit == Some(r.trades[|st.trades|].exitIdx)
               && r.trades[|st.trades|].entryIdx <= r.trades[|st.trades|].exitIdx
               && r.trades[|st.trades|].outcome != Timeout
    requires |r.trades| == |st.trades| ==> r.lastExit == st.lastExit
    ensures Consistent(r)
  {
    var n := |st.trades|;
    if |r.trades| == n + 1 {
      assert r.trades == st.trades + [r.trades[n]];
      if n > 0 {
        assert st.trades[n - 1].exitIdx == st.lastExit.value;
      }
    } else {
      assert r.trades == st.trades;
    }
  }

  /** Bars `i` up to the end, from a state. */
  function RunFrom(bars: seq<Bar>, c: RetestConfig, clock: int -> (nat, nat), i: nat, st: RunState): (r: RunState)
    requires 1 <= i && Ascending(st.levels)
    ensures Ascending(r.levels)
    decreases |bars| - i
  {
    if i >= |bars| then st else RunFrom(bars, c, clock, i + 1, Step(bars, c, clock, i, st))
  }

  lemma {:induction false} RunFromConsistent(bars: seq<Bar>, c: RetestConfig, clock: int -> (nat, nat), i: nat, st: RunState)
    requires 1 <= i && Consistent(st)
    ensures Consistent(RunFrom(bars, c, clock, i, st))
    decreases |bars| - i
  {
    if i < |bars| {
      var next := Step(bars, c, clock, i, st);
      assert RunFrom(bars, c, clock, i, st) == RunFrom(bars, c, clock, i + 1, next);
      StepConsistent(bars, c, clock, i, st);
      RunFromConsistent(bars, c, clock, i + 1, next);
    }
  }

  /** The levels `run` starts from: the thin LVNs, keyed like the generator's. */
  function InitialLevels(c: RetestConfig, lvns: seq<LvnLevel>): (b: Book)
    ensures Ascending(b)
  {
    AddLevels(c, [], lvns, OwnId).0
  }

  /** The trades of `run`, bar 1 to the end. */
  function RunTrades(bars: seq<Bar>, c: RetestConfig, clock: int -> (nat, nat), lvns: seq<LvnLevel>): (ts: seq<TradeRecord>)
  {
    RunFrom(bars, c, clock, 1, RunState(InitialLevels(c, lvns), None, [])).trades
  }

  /** The trades of a run never overlap (each enters after the previous one exited) and none is left a timeout. */
  lemma RunTradesSequential(bars: seq<Bar>, c: RetestConfig, clock: int -> (nat, nat), lvns: seq<LvnLevel>)
    ensures Sequential(RunTrades(bars, c, clock, lvns))
    ensures forall k :: 0 <= k < |RunTrades(bars, c, clock, lvns)| ==> RunTrades(bars, c, clock, lvns)[k].outcome != Timeout
  {
    RunFromConsistent(bars, c, clock, 1, RunState(InitialLevels(c, lvns), None, []));
  }

  // ---------------------------------------------------------------------
  // Results

  datatype Results = Results(
    totalTrades: nat, wins: nat, losses: nat, breakevens: nat, timeouts: nat,
    winRate: real, profitFactor: Ratio, totalPnl: real, avgWin: real, avgLoss: real, maxDrawdown: real,
    trades: seq<TradeRecord>)

  function PnlOf(ts: seq<TradeRecord>): (ps: seq<real>)
    ensures |ps| == |ts| && forall k :: 0 <= k < |ts| ==> ps[k] == ts[k].pnlPoints
  {
    if |ts| == 0 then [] else PnlOf(ts[..|ts| - 1]) + [ts[|ts| - 1].pnlPoints]
  }

  function CountOutcome(ts: seq<TradeRecord>, o: Outcome): (n: nat)
    ensures n <= |ts|
  {
    if |ts| == 0 then 0 else CountOutcome(ts[..|ts| - 1], o) + (if ts[|ts| - 1].outcome == o then 1 else 0)
  }

  /** Every trade has exactly one of the four outcomes. */
  lemma {:induction false} OutcomesPartition(ts: seq<TradeRecord>)
    ensures CountOutcome(ts, Win) + CountOutcome(ts, Loss) + CountOutcome(ts, Breakeven) + CountOutcome(ts, Timeout) == |ts|
  {
    if |ts| > 0 {
      OutcomesPartition(ts[..|ts| - 1]);
    }
  }

  /**
   `calculate_results`: all zeros for no trades; otherwise the outcome
   counts, win rate, net P&L, profit factor, mean winner and loser, and
   the drawdown of cumulative P&L from a peak that starts at 0.
   */
  function CalculateResults(ts: seq<TradeRecord>): (r: Results)
    ensures |ts| == 0 ==> r == Results(0, 0, 0, 0, 0, 0.0, Finite(0.0), 0.0, 0.0, 0.0, 0.0, [])
    ensures r.totalTrades == |ts| && r.wins + r.losses + r.breakevens + r.timeouts == r.totalTrades
    ensures r.totalPnl == Sum(PnlOf(ts)) && r.profitFactor == ProfitFactor(PnlOf(ts))
    ensures r.maxDrawdown == MaxDrawdown(PnlOf(ts)) && r.maxDrawdown >= 0.0
    ensures r.avgLoss <= 0.0 && r.avgWin >= 0.0
    ensures 0.0 <= r.winRate <= 100.0
  {
    if |ts| == 0 then Results(0, 0, 0, 0, 0, 0.0, Finite(0.0), 0.0, 0.0, 0.0, 0.0, [])
    else
      var ps := PnlOf(ts);
      OutcomesPartition(ts);
      AverageLossNotPositive(ps);
      assert ProfitFactor([]) == Finite(0.0);
      Results(|ts|, CountOutcome(ts, Win), CountOutcome(ts, Loss), CountOutcome(ts, Breakeven), CountOutcome(ts, Timeout),
              WinRatePercent(CountOutcome(ts, Win), |ts|), ProfitFactor(ps), Sum(ps),
              Mean(Winners(ps)), Mean(Losers(ps)), MaxDrawdown(ps), ts)
  }

  /** Trades from `simulate_trade` are never timeouts, so a run's results count none. */
  lemma {:induction false} NoTimeoutsCounted(ts: seq<TradeRecord>)
    requires forall k :: 0 <= k < |ts| ==> ts[k].outcome != Timeout
    ensures CountOutcome(ts, Timeout) == 0
  {
    if |ts| > 0 {
      NoTimeoutsCounted(ts[..|ts| - 1]);
    }
  }

  /** `run` reports no timeouts: every trade was reclassified by its P&L. */
  lemma RunReportsNoTimeouts(bars: seq<Bar>, c: RetestConfig, clock: int -> (nat, nat), lvns: seq<LvnLevel>)
    ensures var r := CalculateResults(RunTrades(bars, c, clock, lvns));
            r.timeouts == 0 && r.wins + r.losses + r.breakevens == r.totalTrades
  {
    RunTradesSequential(bars, c, clock, lvns);
    NoTimeoutsCounted(RunTrades(bars, c, clock, lvns));
  }
}
