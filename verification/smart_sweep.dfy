/**
 The parameter sweeps of the smart LVN strategy (`run_exit_sweep` and
 `run_multi_sweep` in `pipeline/smart_lvn.rs`): every combination of the
 swept parameters is backtested over the same days, and the results are
 ranked by profit factor, then net P&L, the multi sweep first putting
 the configurations that trade at least 0.3 times a day ahead.
 */
module SmartSweep {
  import opened Base
  import opened Market
  import opened Ranking
  import opened SmartLvn

  // ---------------------------------------------------------------------
  // Ranking

  /** What a sweep result is ranked by. */
  datatype Rank = Rank(active: bool, profitFactor: Ratio, netPnl: real)

  /** Profit factor order: infinity above every finite value and equal to itself. */
  predicate FactorAbove(a: Ratio, b: Ratio)
  {
    match (a, b)
    case (Infinite, Finite(_)) => true
    case (Finite(x), Finite(y)) => x > y
    case _ => false
  }

  /**
   The comparator of the sweeps: active configurations first, then the
   higher profit factor, then the higher net P&L.
   */
  predicate Ahead(a: Rank, b: Rank)
  {
    (a.active && !b.active)
    || (a.active == b.active && (FactorAbove(a.profitFactor, b.profitFactor)
                                 || (a.profitFactor == b.profitFactor && a.netPnl > b.netPnl)))
  }

  /** Never ahead of oneself, and at most one of two ranks is ahead of the other. */
  lemma AheadAsymmetric(a: Rank, b: Rank)
    ensures !Ahead(a, a)
    ensures Ahead(a, b) ==> !Ahead(b, a)
  {
  }

  /** Not being behind is transitive, which makes `Ahead` a strict weak order. */
  lemma NotAheadTransitive(a: Rank, b: Rank, c: Rank)
    requires !Ahead(a, b) && !Ahead(b, c)
    ensures !Ahead(a, c)
  {
  }

  /** No element is ahead of one placed before it. */
  predicate Ranked<T>(s: seq<T>, rank: T -> Rank)
  {
    forall i, j :: 0 <= i < j < |s| ==> !Ahead(rank(s[j]), rank(s[i]))
  }

  /** Places `x` after every element it is not ahead of, as a stable sort does. */
  function InsertRanked<T>(x: T, s: seq<T>, rank: T -> Rank): (r: seq<T>)
    requires Ranked(s, rank)
    ensures Ranked(r, rank)
    ensures multiset(r) == multiset(s) + multiset{x}
    ensures |r| == |s| + 1
  {
    if |s| == 0 then [x]
    else
      var init := s[..|s| - 1];
      var last := s[|s| - 1];
      assert s == init + [last];
      if !Ahead(rank(x), rank(last)) then
        forall i | 0 <= i < |s| ensures !Ahead(rank(x), rank(s[i])) {
          if i < |s| - 1 {
            NotAheadTransitive(rank(x), rank(last), rank(s[i]));
          }
        }
        s + [x]
      else
        var r := InsertRanked(x, init, rank);
        forall i | 0 <= i < |r| ensures !Ahead(rank(last), rank(r[i])) {
          assert r[i] in multiset(r);
          if r[i] != x {
            assert r[i] in multiset(init);
            var k :| 0 <= k < |init| && init[k] == r[i];
            assert s[k] == r[i];
          } else {
            AheadAsymmetric(rank(x), rank(last));
          }
        }
        r + [last]
  }

  /** Rust's stable `sort_by` with the sweep comparator: ranked, with the same elements. */
  function SortRanked<T>(s: seq<T>, rank: T -> Rank): (r: seq<T>)
    ensures Ranked(r, rank)
    ensures multiset(r) == multiset(s)
    ensures |r| == |s|
  {
    if |s| == 0 then []
    else
      assert s == s[..|s| - 1] + [s[|s| - 1]];
      InsertRanked(s[|s| - 1], SortRanked(s[..|s| - 1], rank), rank)
  }

  /** Every pair of an element of `xs` with an element of `ys`, in nested-loop order. */
  function Product<A, B>(xs: seq<A>, ys: seq<B>): (r: seq<(A, B)>)
    ensures |r| == |xs| * |ys|
    ensures forall i, j :: 0 <= i < |xs| && 0 <= j < |ys| ==> (xs[i], ys[j]) in r
  {
    if |xs| == 0 then []
    else
      var row := Map(ys, (y: B) => (xs[0], y));
      var rest := Product(xs[1..], ys);
      assert |xs| * |ys| == |ys| + (|xs| - 1) * |ys|;
      forall i, j | 0 <= i < |xs| && 0 <= j < |ys| ensures (xs[i], ys[j]) in row + rest {
        if i == 0 {
          assert row[j] == (xs[0], ys[j]);
        } else {
          assert xs[i] == xs[1..][i - 1];
        }
      }
      row + rest
  }

  /** Every pair of the product is made of an element of each side. */
  lemma {:induction false} ProductFrom<A, B>(xs: seq<A>, ys: seq<B>, k: nat)
    requires k < |Product<A, B>(xs, ys)|
    ensures Product<A, B>(xs, ys)[k].0 in xs && Product<A, B>(xs, ys)[k].1 in ys
  {
    var row: seq<(A, B)> := Map(ys, (y: B) => (xs[0], y));
    var rest: seq<(A, B)> := Product(xs[1..], ys);
    assert Product(xs, ys) == row + rest;
    if k < |row| {
      assert row[k] == (xs[0], ys[k]);
    } else {
      ProductFrom(xs[1..], ys, k - |row|);
      assert (row + rest)[k] == rest[k - |row|];
      assert rest[k - |row|].0 in xs[1..];
    }
  }

  /** A sweep: `f` applied to every point of the grid, ranked. */
  function Sweep<P, R>(grid: seq<P>, f: P -> R, rank: R -> Rank): (r: seq<R>)
    ensures |r| == |grid| && Ranked(r, rank)
    ensures multiset(r) == multiset(Map(grid, f))
  {
    SortRanked(Map(grid, f), rank)
  }

  /** Every result of a sweep is the result of some point of the grid. */
  lemma SweepFrom<P, R>(grid: seq<P>, f: P -> R, rank: R -> Rank, k: nat)
    requires k < |Sweep(grid, f, rank)|
    ensures exists m :: 0 <= m < |grid| && Sweep(grid, f, rank)[k] == f(grid[m])
  {
    var r := Sweep(grid, f, rank);
    var unsorted := Map(grid, f);
    assert r[k] in multiset(unsorted);
    var m :| 0 <= m < |unsorted| && unsorted[m] == r[k];
  }

  /** The result of every point of the grid is in the sweep. */
  lemma SweepCovers<P, R>(grid: seq<P>, f: P -> R, rank: R -> Rank, m: nat)
    requires m < |grid|
    ensures f(grid[m]) in Sweep(grid, f, rank)
  {
    var unsorted := Map(grid, f);
    assert unsorted[m] in multiset(Sweep(grid, f, rank));
  }

  // ---------------------------------------------------------------------
  // The exit sweep

  datatype ExitSweepResult = ExitSweepResult(
    trailingStop: real, takeProfit: real, totalTrades: nat, wins: nat, winRate: real,
    profitFactor: Ratio, netPnl: real, avgWin: real, avgLoss: real,
    tpCount: nat, tsCount: nat, tpPnl: real, tsPnl: real)

  /** The configuration of the exit sweep: the entry held fixed, the trail and target swept. */
  function ExitConfig(minDelta: int, minImpulseSize: real, trail: real, tp: real): (c: SmartLvnConfig)
    ensures c.trailingStop == trail && c.takeProfit == tp
    ensures c.minDeltaConfirmation == minDelta && c.minImpulseSize == minImpulseSize
    ensures c.maxTradesPerDay == DefaultConfig.maxTradesPerDay && c.startHour == DefaultConfig.startHour && c.endHour == DefaultConfig.endHour
  {
    SmartLvnConfig(5, minDelta, minImpulseSize, 120, 2.0, trail, tp, 2.0, 9, 15)
  }

  function WithReason(ts: seq<SmartTrade>, why: ExitReason): (r: seq<SmartTrade>)
    ensures |r| <= |ts| && forall k :: 0 <= k < |r| ==> r[k].exitReason == why && r[k] in ts
  {
    Filter(ts, (t: SmartTrade) => t.exitReason == why)
  }

  /** Target and trailing exits never outnumber the trades. */
  lemma {:induction false} ExitCountsBounded(ts: seq<SmartTrade>)
    ensures |WithReason(ts, TakeProfit)| + |WithReason(ts, TrailingStop)| <= |ts|
  {
    if |ts| > 0 {
      var init := ts[..|ts| - 1];
      var t := ts[|ts| - 1];
      assert ts == init + [t];
      ExitCountsBounded(init);
      FilterAppend(init, [t], (t: SmartTrade) => t.exitReason == TakeProfit);
      FilterAppend(init, [t], (t: SmartTrade) => t.exitReason == TrailingStop);
    }
  }

  /** One configuration of the exit sweep: the run's figures and the count and P&L of each exit kind. */
  function ExitResultOf(et: int -> (nat, nat), days: seq<DayData>, minDelta: int, minImpulseSize: real,
                        trail: real, tp: real): (r: ExitSweepResult)
    ensures r.trailingStop == trail && r.takeProfit == tp
    ensures r.tpCount + r.tsCount <= r.totalTrades
    ensures r.wins <= r.totalTrades && (r.totalTrades == 0 ==> r.profitFactor == Infinite)
  {
    var res := Run(ExitConfig(minDelta, minImpulseSize, trail, tp), et, days);
    var tps := WithReason(res.trades, TakeProfit);
    var tss := WithReason(res.trades, TrailingStop);
    ExitCountsBounded(res.trades);
    ExitSweepResult(trail, tp, res.totalTrades, res.wins, res.winRate, res.profitFactor, res.netPnl,
                    res.avgWin, res.avgLoss, |tps|, |tss|, Sum(PnlOf(tps)), Sum(PnlOf(tss)))
  }

  function ExitRank(r: ExitSweepResult): Rank
  {
    Rank(true, r.profitFactor, r.netPnl)
  }

  /**
   `run_exit_sweep`: one result for each trailing stop and target, each
   the backtest of its own configuration, ordered by profit factor and
   then net P&L.
   */
  function ExitSweep(et: int -> (nat, nat), days: seq<DayData>, minDelta: int, minImpulseSize: real,
                     trails: seq<real>, tps: seq<real>): (r: seq<ExitSweepResult>)
    ensures |r| == |trails| * |tps|
    ensures Ranked(r, ExitRank)
    ensures forall i, j :: 0 <= i < |trails| && 0 <= j < |tps| ==>
              ExitResultOf(et, days, minDelta, minImpulseSize, trails[i], tps[j]) in r
  {
    var grid := Product(trails, tps);
    var f := (p: (real, real)) => ExitResultOf(et, days, minDelta, minImpulseSize, p.0, p.1);
    forall i, j | 0 <= i < |trails| && 0 <= j < |tps|
      ensures ExitResultOf(et, days, minDelta, minImpulseSize, trails[i], tps[j]) in Sweep(grid, f, ExitRank)
    {
      var m :| 0 <= m < |grid| && grid[m] == (trails[i], tps[j]);
      SweepCovers(grid, f, ExitRank, m);
    }
    Sweep(grid, f, ExitRank)
  }

  /** Every result of the exit sweep is the backtest of one of the swept trailing stops and targets. */
  lemma ExitSweepFrom(et: int -> (nat, nat), days: seq<DayData>, minDelta: int, minImpulseSize: real,
                      trails: seq<real>, tps: seq<real>, k: nat)
    requires k < |ExitSweep(et, days, minDelta, minImpulseSize, trails, tps)|
    ensures var x := ExitSweep(et, days, minDelta, minImpulseSize, trails, tps)[k];
            x.trailingStop in trails && x.takeProfit in tps
            && x == ExitResultOf(et, days, minDelta, minImpulseSize, x.trailingStop, x.takeProfit)
  {
    var grid := Product(trails, tps);
    var f := (p: (real, real)) => ExitResultOf(et, days, minDelta, minImpulseSize, p.0, p.1);
    assert ExitSweep(et, days, minDelta, minImpulseSize, trails, tps) == Sweep(grid, f, ExitRank);
    SweepFrom(grid, f, ExitRank, k);
    var m :| 0 <= m < |grid| && Sweep(grid, f, ExitRank)[k] == f(grid[m]);
    ProductFrom(trails, tps, m);
  }

  /**
   A configuration that traded nowhere reports an infinite profit factor
   and so is ranked above every configuration that did trade at a loss
   or a finite profit factor: in the exit sweep, everything before a
   trade-less result also has an infinite profit factor.
   */
  lemma TradelessRankFirst(r: seq<ExitSweepResult>, i: nat, j: nat)
    requires Ranked(r, ExitRank) && i < j < |r|
    requires r[j].profitFactor == Infinite
    ensures r[i].profitFactor == Infinite
  {
    assert !Ahead(ExitRank(r[j]), ExitRank(r[i]));
  }

  // ---------------------------------------------------------------------
  // The multi-dimensional sweep

  /** A trading-hours window of the multi sweep, from its start hour (at half past) to its end hour. */
  datatype TimeWindow = TimeWindow(startHour: nat, endHour: nat, name: string)

  const AllDay := TimeWindow(9, 16, "all_day")
  const Morning := TimeWindow(9, 12, "morning")
  const Midday := TimeWindow(10, 14, "midday")
  const Afternoon := TimeWindow(12, 16, "afternoon")
  const OpenHour := TimeWindow(9, 11, "open_hour")

  datatype MultiSweepResult = MultiSweepResult(
    minDelta: int, trailingStop: real, minImpulseSize: real, timeWindow: string, startHour: nat, endHour: nat,
    totalTrades: nat, wins: nat, winRate: real, profitFactor: Ratio, netPnl: real, avgWin: real, avgLoss: real,
    tradesPerDay: real)

  /** The configuration of one combination: trailing stop only (no target), the window's hours. */
  function MultiConfig(delta: int, trail: real, impulse: real, w: TimeWindow): (c: SmartLvnConfig)
    ensures c.takeProfit == 0.0 && c.trailingStop == trail && c.minDeltaConfirmation == delta
    ensures c.minImpulseSize == impulse && c.startHour == w.startHour && c.endHour == w.endHour
  {
    SmartLvnConfig(5, delta, impulse, 120, 2.0, trail, 0.0, 2.0, w.startHour, w.endHour)
  }

  /** Trades per day, counting an empty run of days as one day. */
  function PerDay(trades: nat, days: nat): (r: real)
    ensures r >= 0.0
    ensures days == 0 ==> r == trades as real
    ensures days > 0 ==> r * days as real == trades as real
  {
    trades as real / (if days > 1 then days else 1) as real
  }

  /** The combination of the multi sweep, in the order its loops nest. */
  type Combo = (int, (real, (real, TimeWindow)))

  /** The combinations of `run_multi_sweep`: deltas outermost, then trailing stops, impulse sizes and windows. */
  function Combos(deltas: seq<int>, trails: seq<real>, impulses: seq<real>, windows: seq<TimeWindow>): (r: seq<Combo>)
    ensures |r| == |deltas| * (|trails| * (|impulses| * |windows|))
    ensures forall a, b, c, d :: 0 <= a < |deltas| && 0 <= b < |trails| && 0 <= c < |impulses| && 0 <= d < |windows| ==>
              (deltas[a], (trails[b], (impulses[c], windows[d]))) in r
  {
    var inner := Product(impulses, windows);
    var middle := Product(trails, inner);
    forall a, b, c, d | 0 <= a < |deltas| && 0 <= b < |trails| && 0 <= c < |impulses| && 0 <= d < |windows|
      ensures (deltas[a], (trails[b], (impulses[c], windows[d]))) in Product(deltas, middle)
    {
      var i :| 0 <= i < |inner| && inner[i] == (impulses[c], windows[d]);
      var j :| 0 <= j < |middle| && middle[j] == (trails[b], inner[i]);
    }
    Product(deltas, middle)
  }

  /** Every combination is made of one swept value of each parameter. */
  lemma CombosFrom(deltas: seq<int>, trails: seq<real>, impulses: seq<real>, windows: seq<TimeWindow>, k: nat)
    requires k < |Combos(deltas, trails, impulses, windows)|
    ensures var p := Combos(deltas, trails, impulses, windows)[k];
            p.0 in deltas && p.1.0 in trails && p.1.1.0 in impulses && p.1.1.1 in windows
  {
    var inner := Product(impulses, windows);
    var middle := Product(trails, inner);
    var r := Product(deltas, middle);
    assert Combos(deltas, trails, impulses, windows) == r;
    ProductFrom(deltas, middle, k);
    var j :| 0 <= j < |middle| && middle[j] == r[k].1;
    ProductFrom(trails, inner, j);
    var i :| 0 <= i < |inner| && inner[i] == middle[j].1;
    ProductFrom(impulses, windows, i);
  }

  function MultiResultOf(et: int -> (nat, nat), days: seq<DayData>, p: Combo): (r: MultiSweepResult)
    ensures r.minDelta == p.0 && r.trailingStop == p.1.0 && r.minImpulseSize == p.1.1.0
    ensures r.startHour == p.1.1.1.startHour && r.endHour == p.1.1.1.endHour && r.timeWindow == p.1.1.1.name
    ensures r.tradesPerDay >= 0.0 && (r.totalTrades == 0 ==> r.profitFactor == Infinite)
  {
    var (delta, (trail, (impulse, w))) := p;
    var res := Run(MultiConfig(delta, trail, impulse, w), et, days);
    MultiSweepResult(delta, trail, impulse, w.name, w.startHour, w.endHour, res.totalTrades, res.wins,
                     res.winRate, res.profitFactor, res.netPnl, res.avgWin, res.avgLoss, PerDay(res.totalTrades, |days|))
  }

  /** A configuration trades often enough to be ranked on its merits: at least 0.3 trades a day. */
  function MultiRank(r: MultiSweepResult): Rank
  {
    Rank(r.tradesPerDay >= 0.3, r.profitFactor, r.netPnl)
  }

  /**
   `run_multi_sweep`: one result for every delta, trailing stop, impulse
   size and window, each the backtest of its own configuration; the
   configurations trading at least 0.3 times a day come first, each group
   ordered by profit factor and then net P&L.
   */
  function MultiSweep(et: int -> (nat, nat), days: seq<DayData>, deltas: seq<int>, trails: seq<real>,
                      impulses: seq<real>, windows: seq<TimeWindow>): (r: seq<MultiSweepResult>)
    ensures |r| == |deltas| * (|trails| * (|impulses| * |windows|))
    ensures Ranked(r, MultiRank)
    ensures forall a, b, c, d :: 0 <= a < |deltas| && 0 <= b < |trails| && 0 <= c < |impulses| && 0 <= d < |windows| ==>
              MultiResultOf(et, days, (deltas[a], (trails[b], (impulses[c], windows[d])))) in r
  {
    var combos := Combos(deltas, trails, impulses, windows);
    var f := (p: Combo) => MultiResultOf(et, days, p);
    forall a, b, c, d | 0 <= a < |deltas| && 0 <= b < |trails| && 0 <= c < |impulses| && 0 <= d < |windows|
      ensures MultiResultOf(et, days, (deltas[a], (trails[b], (impulses[c], windows[d])))) in Sweep(combos, f, MultiRank)
    {
      var m :| 0 <= m < |combos| && combos[m] == (deltas[a], (trails[b], (impulses[c], windows[d])));
      SweepCovers(combos, f, MultiRank, m);
    }
    Sweep(combos, f, MultiRank)
  }

  /** Every result of the multi sweep is the backtest of one swept delta, trailing stop, impulse size and window. */
  lemma MultiSweepFrom(et: int -> (nat, nat), days: seq<DayData>, deltas: seq<int>, trails: seq<real>,
                       impulses: seq<real>, windows: seq<TimeWindow>, k: nat)
    requires k < |MultiSweep(et, days, deltas, trails, impulses, windows)|
    ensures var x := MultiSweep(et, days, deltas, trails, impulses, windows)[k];
            exists p: Combo :: p.0 in deltas && p.1.0 in trails && p.1.1.0 in impulses && p.1.1.1 in windows
                               && x == MultiResultOf(et, days, p)
  {
    var combos := Combos(deltas, trails, impulses, windows);
    var f := (p: Combo) => MultiResultOf(et, days, p);
    assert MultiSweep(et, days, deltas, trails, impulses, windows) == Sweep(combos, f, MultiRank);
    SweepFrom(combos, f, MultiRank, k);
    var m :| 0 <= m < |combos| && Sweep(combos, f, MultiRank)[k] == f(combos[m]);
    CombosFrom(deltas, trails, impulses, windows, m);
  }

  /** In the multi sweep, a configuration trading at least 0.3 times a day is never ranked below one trading less. */
  lemma ActiveRankedFirst(r: seq<MultiSweepResult>, i: nat, j: nat)
    requires Ranked(r, MultiRank) && i < j < |r|
    requires r[j].tradesPerDay >= 0.3
    ensures r[i].tradesPerDay >= 0.3
  {
    assert !Ahead(MultiRank(r[j]), MultiRank(r[i]));
  }
}
