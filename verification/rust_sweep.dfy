/**
 The Rust sweep driver (`pipeline/sweep.rs`, `run_sweep`): every grid
 point becomes a trader configuration, every run's summary becomes one
 22-field record of the results file with two derived metrics, and the
 profitable results are counted.

 The trader the driver runs lives in `pipeline/trader.rs`, which is not
 part of this model: its configuration and summary are taken to be the
 ones of `LiveTrading`, and a run's summary is an input. The cells of a
 record are kept as numbers; their decimal formatting is not modelled.
 */
module RustSweep {
  import opened Base
  import opened SweepGrid
  import LT = LiveTrading
  import BreakoutMachine
  import Ranking
  import SweepScript

  // ---------------------------------------------------------------------
  // Configurations

  /** The account `run_sweep` starts from: one NQ contract on CME in the given window. */
  function BaseConfig(startHour: nat, startMinute: nat, endHour: nat, endMinute: nat): (c: LT.LiveConfig)
    ensures c.symbol == "NQ" && c.exchange == "CME" && c.contracts == 1
    ensures c.levelTolerance == 2.0 && c.startingBalance == 50000.0
  {
    LT.LiveConfig("NQ", "CME", 1, 30.0, 6.0, 2.0, startHour, startMinute, endHour, endMinute,
                  25, 0.25, 2.0, 50000.0, 0, 1000.0, 20.0, 0.5, 4.0)
  }

  /**
   The configuration of one run: the grid point's target, trail, stop
   buffer, delta and node ratio, the window, the base's account fields,
   and fixed risk settings with no daily loss count.
   */
  function RunConfig(p: SweepParams, base: LT.LiveConfig,
                     startHour: nat, startMinute: nat, endHour: nat, endMinute: nat): (c: LT.LiveConfig)
    ensures c.takeProfit == p.takeProfit && c.trailingStop == p.trailingStop && c.stopBuffer == p.stopBuffer
    ensures c.minDelta == p.minDelta && c.maxLvnRatio == p.maxLvnRatio
    ensures c.startHour == startHour && c.startMinute == startMinute && c.endHour == endHour && c.endMinute == endMinute
    ensures c.symbol == base.symbol && c.exchange == base.exchange && c.contracts == base.contracts
    ensures c.levelTolerance == base.levelTolerance && c.startingBalance == base.startingBalance
    ensures c.maxDailyLosses == 0 && c.dailyLossLimit == 1000.0
    ensures c.pointValue == 20.0 && c.slippage == 0.5 && c.commission == 4.0
  {
    base.(takeProfit := p.takeProfit, trailingStop := p.trailingStop, stopBuffer := p.stopBuffer,
          startHour := startHour, startMinute := startMinute, endHour := endHour, endMinute := endMinute,
          minDelta := p.minDelta, maxLvnRatio := p.maxLvnRatio,
          maxDailyLosses := 0, dailyLossLimit := 1000.0, pointValue := 20.0, slippage := 0.5, commission := 4.0)
  }

  /**
   Only the base's symbol, exchange, contracts, tolerance and balance
   reach a run: two bases that agree on those give the same configuration.
   */
  lemma RunConfigUsesAccountOnly(p: SweepParams, b1: LT.LiveConfig, b2: LT.LiveConfig,
                                 startHour: nat, startMinute: nat, endHour: nat, endMinute: nat)
    requires b1.symbol == b2.symbol && b1.exchange == b2.exchange && b1.contracts == b2.contracts
    requires b1.levelTolerance == b2.levelTolerance && b1.startingBalance == b2.startingBalance
    ensures RunConfig(p, b1, startHour, startMinute, endHour, endMinute)
         == RunConfig(p, b2, startHour, startMinute, endHour, endMinute)
  {
  }

  /** The breakout machine of one run: the grid point's threshold, impulse size and score and hunt length; impulses of at most 300 bars. */
  function MachineConfigOf(p: SweepParams): (c: BreakoutMachine.MachineConfig)
    ensures c.breakoutThreshold == p.breakoutThreshold && c.minImpulseSize == p.minImpulseSize
    ensures c.minImpulseScore == p.minImpulseScore && c.maxHuntingBars == p.maxHuntingBars
    ensures c.maxImpulseBars == 300
  {
    BreakoutMachine.MachineConfig(p.breakoutThreshold, 300, p.minImpulseSize, p.maxHuntingBars, p.minImpulseScore)
  }

  /**
   Two grid points that differ in a swept value give runs that differ in
   their trader or breakout configuration: no sweep dimension is ignored.
   */
  lemma DistinctPointsDistinctRuns(p: SweepParams, q: SweepParams, base: LT.LiveConfig,
                                   startHour: nat, startMinute: nat, endHour: nat, endMinute: nat)
    requires p != q
    ensures RunConfig(p, base, startHour, startMinute, endHour, endMinute)
              != RunConfig(q, base, startHour, startMinute, endHour, endMinute)
            || MachineConfigOf(p) != MachineConfigOf(q)
  {
  }

  // ---------------------------------------------------------------------
  // Results

  datatype SweepResult = SweepResult(params: SweepParams, summary: LT.TradingSummary)

  /**
   `run_sweep`: an error when no day is cached; otherwise one result per
   grid point, in grid order (the parallel map collects in order), each
   the summary of that point's run.
   */
  function RunSweep(dayCount: nat, combos: seq<SweepParams>, run: SweepParams -> LT.TradingSummary): (r: Result<seq<SweepResult>>)
    ensures r.Err? <==> dayCount == 0
    ensures r.Ok? ==> |r.value| == |combos|
    ensures r.Ok? ==> forall i :: 0 <= i < |combos| ==> r.value[i].params == combos[i]
    ensures r.Ok? ==> forall i :: 0 <= i < |combos| ==> r.value[i].summary == run(r.value[i].params)
  {
    if dayCount == 0 then Err("No cached data found. Run 'precompute' first.")
    else Ok(seq(|combos|, i requires 0 <= i < |combos| => SweepResult(combos[i], run(combos[i]))))
  }

  /** `rr_ratio` of the results file: the average win over the size of the average loss, or 0. */
  function RrRatio(s: LT.TradingSummary): (r: real)
    ensures s.avgLoss == 0.0 ==> r == 0.0
    ensures s.avgLoss != 0.0 ==> r * Abs(s.avgLoss) == s.avgWin
  {
    if s.avgLoss != 0.0 then s.avgWin / Abs(s.avgLoss) else 0.0
  }

  /** `expectancy` of the results file: win share times average win less loss share times the size of the average loss, or 0 without trades. */
  function Expectancy(s: LT.TradingSummary): (r: real)
    ensures s.totalTrades == 0 ==> r == 0.0
    ensures s.totalTrades > 0 ==>
              r * s.totalTrades as real == s.wins as real * s.avgWin - s.losses as real * Abs(s.avgLoss)
  {
    if s.totalTrades > 0 then
      var n := s.totalTrades as real;
      SweepScript.ExpectancyScaled(s.wins as real, s.losses as real, n, s.avgWin, Abs(s.avgLoss));
      s.wins as real / n * s.avgWin - s.losses as real / n * Abs(s.avgLoss)
    else 0.0
  }

  /**
   The Rust ratio divides by the size of the loss; the Python sweep takes
   the size of the whole quotient. They agree unless the average win is
   negative, where the Rust ratio is the Python one negated.
   */
  lemma RrRatioAgainstScript(s: LT.TradingSummary, m: SweepScript.Metrics)
    requires m.avgWin == s.avgWin && m.avgLoss == s.avgLoss
    ensures s.avgLoss == 0.0 ==> SweepScript.RrRatio(m).VInt? && SweepScript.RrRatio(m).i == 0 && RrRatio(s) == 0.0
    ensures s.avgLoss != 0.0 && s.avgWin >= 0.0 ==> SweepScript.RrRatio(m).x == RrRatio(s)
    ensures s.avgLoss != 0.0 && s.avgWin < 0.0 ==> SweepScript.RrRatio(m).x == -RrRatio(s)
  {
    if s.avgLoss != 0.0 {
      var py := SweepScript.RrRatio(m).x;
      var rs := RrRatio(s);
      var l := Abs(s.avgLoss);
      assert l > 0.0;
      assert py * l == Abs(s.avgWin);
      assert rs * l == s.avgWin;
      if s.avgWin >= 0.0 {
        assert (py - rs) * l == 0.0;
      } else {
        assert (py + rs) * l == 0.0;
      }
    }
  }

  /** Both sweeps compute the same expectancy from the same counts and averages. */
  lemma ExpectancyAgreesWithScript(s: LT.TradingSummary, m: SweepScript.Metrics)
    requires m.totalTrades == s.totalTrades && m.wins == s.wins && m.losses == s.losses
    requires m.avgWin == s.avgWin && m.avgLoss == s.avgLoss
    ensures s.totalTrades == 0 ==> SweepScript.Expectancy(m).VInt? && SweepScript.Expectancy(m).i == 0 && Expectancy(s) == 0.0
    ensures s.totalTrades > 0 ==> SweepScript.Expectancy(m).VReal? && SweepScript.Expectancy(m).x == Expectancy(s)
  {
    if s.totalTrades > 0 {
      var n := s.totalTrades as real;
      var py := SweepScript.Expectancy(m).x;
      assert py * n == Expectancy(s) * n;
      assert (py - Expectancy(s)) * n == 0.0;
    }
  }

  // ---------------------------------------------------------------------
  // The results file

  /** A field of a record: an integer, a float printed as is, or a float printed to two places (`inf` for an infinite factor). */
  datatype Cell = Whole(n: int) | Plain(x: real) | TwoPlaces(v: Ratio)

  /** The header line's 22 column names. */
  const Header: seq<string> := [
    "min_delta", "max_lvn_ratio", "min_impulse_size", "min_impulse_score", "take_profit",
    "trailing_stop", "stop_buffer", "breakout_threshold", "max_hunting_bars", "total_trades",
    "wins", "losses", "breakevens", "win_rate", "profit_factor", "sharpe_ratio", "avg_win",
    "avg_loss", "total_pnl", "max_drawdown", "rr_ratio", "expectancy"]

  /** One record: the grid point's nine values, then the run's metrics, then the two derived ones. */
  function Record(r: SweepResult): (cells: seq<Cell>)
    ensures |cells| == |Header| == 22
  {
    var p := r.params;
    var s := r.summary;
    [Whole(p.minDelta), Plain(p.maxLvnRatio), Plain(p.minImpulseSize), Whole(p.minImpulseScore),
     Plain(p.takeProfit), Plain(p.trailingStop), Plain(p.stopBuffer), Plain(p.breakoutThreshold),
     Whole(p.maxHuntingBars), Whole(s.totalTrades), Whole(s.wins), Whole(s.losses), Whole(s.breakevens),
     TwoPlaces(Finite(s.winRate)), TwoPlaces(s.profitFactor), TwoPlaces(Finite(s.sharpeRatio)),
     TwoPlaces(Finite(s.avgWin)), TwoPlaces(Finite(s.avgLoss)), TwoPlaces(Finite(s.netPnl)),
     TwoPlaces(Finite(s.maxDrawdown)), TwoPlaces(Finite(RrRatio(s))), TwoPlaces(Finite(Expectancy(s)))]
  }

  /** What a reader of the file expects under a column name. */
  function Column(r: SweepResult, name: string): Option<Cell>
  {
    var p := r.params;
    var s := r.summary;
    match name
    case "min_delta" => Some(Whole(p.minDelta))
    case "max_lvn_ratio" => Some(Plain(p.maxLvnRatio))
    case "min_impulse_size" => Some(Plain(p.minImpulseSize))
    case "min_impulse_score" => Some(Whole(p.minImpulseScore))
    case "take_profit" => Some(Plain(p.takeProfit))
    case "trailing_stop" => Some(Plain(p.trailingStop))
    case "stop_buffer" => Some(Plain(p.stopBuffer))
    case "breakout_threshold" => Some(Plain(p.breakoutThreshold))
    case "max_hunting_bars" => Some(Whole(p.maxHuntingBars))
    case "total_trades" => Some(Whole(s.totalTrades))
    case "wins" => Some(Whole(s.wins))
    case "losses" => Some(Whole(s.losses))
    case "breakevens" => Some(Whole(s.breakevens))
    case "win_rate" => Some(TwoPlaces(Finite(s.winRate)))
    case "profit_factor" => Some(TwoPlaces(s.profitFactor))
    case "sharpe_ratio" => Some(TwoPlaces(Finite(s.sharpeRatio)))
    case "avg_win" => Some(TwoPlaces(Finite(s.avgWin)))
    case "avg_loss" => Some(TwoPlaces(Finite(s.avgLoss)))
    case "total_pnl" => Some(TwoPlaces(Finite(s.netPnl)))
    case "max_drawdown" => Some(TwoPlaces(Finite(s.maxDrawdown)))
    case "rr_ratio" => Some(TwoPlaces(Finite(RrRatio(s))))
    case "expectancy" => Some(TwoPlaces(Finite(Expectancy(s))))
    case _ => None
  }

  /** Header and record line up: every field sits under the column that names it. */
  lemma RecordMatchesHeader(r: SweepResult)
    ensures forall i :: 0 <= i < |Header| ==> Column(r, Header[i]) == Some(Record(r)[i])
  {
  }

  /** No column name is used twice, so a reader that looks a column up by name finds its field. */
  lemma HeaderDistinct()
    ensures forall i, j :: 0 <= i < j < |Header| ==> Header[i] != Header[j]
  {
  }

  /** `total_pnl` is the net P&L: the column the analyser ranks by holds what the trader reports after costs. */
  lemma TotalPnlIsNet(r: SweepResult)
    ensures Record(r)[18] == TwoPlaces(Finite(r.summary.netPnl)) && Header[18] == "total_pnl"
  {
  }

  // ---------------------------------------------------------------------
  // The summary

  predicate IsProfitable(r: SweepResult)
  {
    r.summary.netPnl > 0.0 && r.summary.totalTrades >= 10
  }

  /** The profitable results: positive net P&L over at least ten trades, in sweep order. */
  function Profitable(results: seq<SweepResult>): (r: seq<SweepResult>)
    ensures |r| <= |results|
    ensures forall x :: x in r <==> x in results && IsProfitable(x)
  {
    Ranking.Filter(results, IsProfitable)
  }
}
