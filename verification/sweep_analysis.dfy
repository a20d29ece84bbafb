/**
 The sweep analyser (scripts/analyze_sweep.py): it loads the result CSV,
 coerces cells to numbers, filters and ranks configurations, groups them by
 parameter value and picks "robust" configurations.

 A loaded row is a `Row`. A Python expression that indexes a missing column
 or compares a string with a number raises and ends the script; the
 operations below therefore require exactly the columns that the Python
 code reads, following its short-circuit evaluation.
 */
module SweepAnalysis {
  import opened Base
  import opened Text
  import opened Values
  import opened Ranking

  /** Columns that `load_results` always reads as floats. */
  const FloatColumns: seq<string> := ["profit_factor", "sharpe_ratio", "avg_win", "avg_loss", "total_pnl",
                                      "max_drawdown", "rr_ratio", "expectancy", "win_rate"]

  /** Parameters whose impact is reported, in report order. */
  const ImpactParams: seq<string> := ["min_delta", "max_lvn_ratio", "min_impulse_score", "take_profit",
                                      "trailing_stop", "stop_buffer", "breakout_threshold", "max_hunting_bars"]

  /**
   One CSV cell: a float when it holds a '.' or names a float column, an int
   otherwise, an empty cell reads as zero, and a cell that does not parse
   stays a string (the conversion error is swallowed).
   */
  function CoerceCell(key: string, cell: string): (v: Value)
    ensures cell == "" ==> v == (if key in FloatColumns then VReal(0.0) else VInt(0))
    ensures v.VStr? ==> v == VStr(cell) && cell != ""
    ensures v.VReal? ==> key in FloatColumns || IndexOf(cell, '.').Some?
    ensures v.VInt? ==> key !in FloatColumns && IndexOf(cell, '.').None?
    ensures cell != "" && v.VReal? ==> ParseDecimal(cell) == Some(v.x)
    ensures cell != "" && v.VInt? ==> ParseInt(cell) == Some(v.i)
    ensures cell != "" && v.VStr? ==>
              if key in FloatColumns || IndexOf(cell, '.').Some? then ParseDecimal(cell).None? else ParseInt(cell).None?
  {
    if IndexOf(cell, '.').Some? || key in FloatColumns then
      if cell == "" then VReal(0.0)
      else match ParseDecimal(cell)
        case Some(x) => VReal(x)
        case None => VStr(cell)
    else if cell == "" then VInt(0)
    else match ParseInt(cell)
      case Some(i) => VInt(i)
      case None => VStr(cell)
  }

  function LoadRow(raw: map<string, string>): (r: Row)
    ensures r.Keys == raw.Keys
    ensures forall k :: k in raw ==> r[k] == CoerceCell(k, raw[k])
  {
    map k | k in raw :: CoerceCell(k, raw[k])
  }

  function LoadResults(raws: seq<map<string, string>>): (rs: seq<Row>)
    ensures |rs| == |raws|
    ensures forall i :: 0 <= i < |raws| ==> rs[i] == LoadRow(raws[i])
  {
    seq(|raws|, i requires 0 <= i < |raws| => LoadRow(raws[i]))
  }

  lemma IntegerHasNoPoint(i: int)
    ensures IndexOf(IntToString(i), '.').None?
  {
    var s := IntToString(i);
    if i < 0 {
      assert s == "-" + NatToString(-i);
      assert forall j :: 1 <= j < |s| ==> IsDigit(s[j]) by {
        forall j | 1 <= j < |s| ensures IsDigit(s[j]) {
          assert s[j] == NatToString(-i)[j - 1];
        }
      }
    }
  }

  /** A whole number written as `str(int)` reads back as the same number: an int in an int column, a float in a float column. */
  lemma CoerceIntegerCell(key: string, i: int)
    ensures CoerceCell(key, IntToString(i)) == if key in FloatColumns then VReal(i as real) else VInt(i)
  {
    IntegerHasNoPoint(i);
    IntToStringRoundTrip(i);
    DecimalOfIntString(i);
  }

  /** A float with no fraction written as `str(float)` ("12.0") reads back as the same float, whatever the column. */
  lemma CoerceIntegralFloatCell(key: string, i: int)
    ensures CoerceCell(key, IntToString(i) + ".0") == VReal(i as real)
  {
    var s := IntToString(i) + ".0";
    assert s[|s| - 2] == '.';
    DecimalOfIntegralFloatString(i);
  }

  /** The Row -> number key `x.get(k, 0)` for a numeric or missing column. */
  function Column(k: string): Row -> real
  {
    (r: Row) => NumOr0(r, k)
  }

  /** `filter_results`: keeps rows with enough trades and a high enough profit factor, in input order. */
  predicate FilterReadable(rs: seq<Row>, minTrades: int)
  {
    forall i :: 0 <= i < |rs| ==>
      HasNum(rs[i], "total_trades") && (Get(rs[i], "total_trades") >= minTrades as real ==> HasNum(rs[i], "profit_factor"))
  }

  function KeepRow(minTrades: int, minPf: real): Row -> bool
  {
    (r: Row) => NumOr0(r, "total_trades") >= minTrades as real && NumOr0(r, "profit_factor") >= minPf
  }

  function FilterResults(rs: seq<Row>, minTrades: int, minPf: real): (r: seq<Row>)
    requires FilterReadable(rs, minTrades)
    ensures forall i :: 0 <= i < |r| ==>
              r[i] in rs && Get(r[i], "total_trades") >= minTrades as real && Get(r[i], "profit_factor") >= minPf
    ensures forall i :: 0 <= i < |rs| ==>
              (Get(rs[i], "total_trades") >= minTrades as real && Get(rs[i], "profit_factor") >= minPf ==> rs[i] in r)
    ensures multiset(r) <= multiset(rs)
  {
    Filter(rs, KeepRow(minTrades, minPf))
  }

  /** Filtering works row by row: the rows kept from a concatenation are those kept from each part, in order. */
  lemma FilterResultsAppend(xs: seq<Row>, ys: seq<Row>, minTrades: int, minPf: real)
    requires FilterReadable(xs, minTrades) && FilterReadable(ys, minTrades)
    ensures FilterReadable(xs + ys, minTrades)
    ensures FilterResults(xs + ys, minTrades, minPf) == FilterResults(xs, minTrades, minPf) + FilterResults(ys, minTrades, minPf)
  {
    assert forall i :: 0 <= i < |xs + ys| ==> (xs + ys)[i] == if i < |xs| then xs[i] else ys[i - |xs|];
    FilterAppend(xs, ys, KeepRow(minTrades, minPf));
  }

  /** Every row's sort column is a number or is missing (`x.get(sort_by, 0)` must compare). */
  predicate SortReadable(rs: seq<Row>, sortBy: string)
  {
    forall i :: 0 <= i < |rs| ==> GetOrZeroOk(rs[i], sortBy)
  }

  function Negated(k: string): Row -> real
  {
    (r: Row) => -NumOr0(r, k)
  }

  /**
   `sort_results`: Python's stable sort by `x.get(sort_by, 0)`, descending
   when `reverse` holds. An ascending stable sort is the descending stable
   sort by the negated key.
   */
  function SortResults(rs: seq<Row>, sortBy: string, reverse: bool): (r: seq<Row>)
    requires SortReadable(rs, sortBy)
    ensures |r| == |rs| && multiset(r) == multiset(rs)
    ensures reverse ==> forall i, j :: 0 <= i < j < |r| ==> NumOr0(r[i], sortBy) >= NumOr0(r[j], sortBy)
    ensures !reverse ==> forall i, j :: 0 <= i < j < |r| ==> NumOr0(r[i], sortBy) <= NumOr0(r[j], sortBy)
  {
    if reverse then SortDesc(rs, Column(sortBy))
    else
      var s := SortDesc(rs, Negated(sortBy));
      assert forall i, j :: 0 <= i < j < |s| ==> Negated(sortBy)(s[i]) >= Negated(sortBy)(s[j]);
      s
  }

  /** The rows whose negated value is `w` are those whose value is `-w`. */
  lemma {:induction false} TiesNegated(xs: seq<Row>, k: string, v: real, w: real)
    requires w == -v
    ensures Ties(xs, Negated(k), w) == Ties(xs, Column(k), v)
  {
    if |xs| > 0 {
      TiesNegated(xs[..|xs| - 1], k, v, w);
    }
  }

  /** Stability: rows with equal sort values come out in their input order, ascending or descending. */
  lemma SortResultsStable(rs: seq<Row>, sortBy: string, reverse: bool, v: real)
    requires SortReadable(rs, sortBy)
    ensures Ties(SortResults(rs, sortBy, reverse), Column(sortBy), v) == Ties(rs, Column(sortBy), v)
  {
    if reverse {
      DescendingStable(rs, sortBy, v);
    } else {
      AscendingStable(rs, sortBy, v);
    }
  }

  lemma DescendingStable(rs: seq<Row>, sortBy: string, v: real)
    ensures Ties(SortDesc(rs, Column(sortBy)), Column(sortBy), v) == Ties(rs, Column(sortBy), v)
  {
    SortDescStable(rs, Column(sortBy), v);
  }

  lemma AscendingStable(rs: seq<Row>, sortBy: string, v: real)
    ensures Ties(SortDesc(rs, Negated(sortBy)), Column(sortBy), v) == Ties(rs, Column(sortBy), v)
  {
    var w := -v;
    TiesNegated(SortDesc(rs, Negated(sortBy)), sortBy, v, w);
    TiesNegated(rs, sortBy, v, w);
    SortDescStable(rs, Negated(sortBy), w);
  }

  /** Per-value statistics of one parameter. */
  datatype GroupStats = GroupStats(value: real, count: nat, avgPf: real, avgPnl: real, avgSharpe: real, avgTrades: real)

  datatype ParamImpact = ParamImpact(param: string, groups: seq<GroupStats>)

  /** Columns the impact report reads from a valid row. */
  predicate ImpactReadable(r: Row)
  {
    HasNum(r, "profit_factor") && HasNum(r, "total_pnl") && HasNum(r, "sharpe_ratio") && HasNum(r, "total_trades")
    && forall j :: 0 <= j < |ImpactParams| ==> HasNum(r, ImpactParams[j])
  }

  /** The column total `sum(r[k] for r in g)` that an average divides by the group size. */
  function ColumnSum(g: seq<Row>, k: string): real
  {
    Sum(Map(g, Column(k)))
  }

  /**
   Count and averages of one group; a group is never empty (see `GroupsOf`).
   Each average times the group size is the group's column total.
   */
  function Summarise(g: seq<Row>, v: real): (s: GroupStats)
    ensures s.value == v && s.count == |g|
    ensures |g| > 0 ==> s.avgPf * |g| as real == ColumnSum(g, "profit_factor")
    ensures |g| > 0 ==> s.avgPnl * |g| as real == ColumnSum(g, "total_pnl")
    ensures |g| > 0 ==> s.avgSharpe * |g| as real == ColumnSum(g, "sharpe_ratio")
    ensures |g| > 0 ==> s.avgTrades * |g| as real == ColumnSum(g, "total_trades")
  {
    if |g| == 0 then GroupStats(v, 0, 0.0, 0.0, 0.0, 0.0)
    else GroupStats(v, |g|, Mean(Map(g, Column("profit_factor"))), Mean(Map(g, Column("total_pnl"))),
                    Mean(Map(g, Column("sharpe_ratio"))), Mean(Map(g, Column("total_trades"))))
  }

  function GroupValues(gs: seq<GroupStats>): (vs: seq<real>)
    ensures |vs| == |gs| && forall i :: 0 <= i < |gs| ==> vs[i] == gs[i].value
  {
    seq(|gs|, i requires 0 <= i < |gs| => gs[i].value)
  }

  lemma GroupsNonEmpty(valid: seq<Row>, key: Row -> real, values: seq<real>)
    requires forall i :: 0 <= i < |values| ==> values[i] in Map(valid, key)
    ensures forall i :: 0 <= i < |values| ==> |Ties(valid, key, values[i])| > 0
  {
    forall i | 0 <= i < |values|
      ensures |Ties(valid, key, values[i])| > 0
    {
      var j :| 0 <= j < |valid| && Map(valid, key)[j] == values[i];
      TiesMembers(valid, key, values[i]);
      assert valid[j] in Ties(valid, key, values[i]);
    }
  }

  /**
   Grouping `valid` by the value of `param`, one group per distinct value in
   ascending order; each group lists its rows in input order.
   */
  function GroupsOf(valid: seq<Row>, param: string): (gs: seq<GroupStats>)
    ensures StrictlyIncreasing(GroupValues(gs))
    ensures forall i :: 0 <= i < |gs| ==> gs[i].count == |Ties(valid, Column(param), gs[i].value)| && gs[i].count > 0
    ensures forall i :: 0 <= i < |valid| ==> NumOr0(valid[i], param) in GroupValues(gs)
    ensures forall i :: 0 <= i < |gs| ==> gs[i] == Summarise(Ties(valid, Column(param), gs[i].value), gs[i].value)
  {
    var key := Column(param);
    var values := DistinctSorted(Map(valid, key));
    GroupsNonEmpty(valid, key, values);
    var gs := seq(|values|, i requires 0 <= i < |values| => Summarise(Ties(valid, key, values[i]), values[i]));
    assert GroupValues(gs) == values;
    gs
  }

  /** Every valid row falls into exactly one group: the group counts add up to the number of rows. */
  lemma GroupCountsPartition(valid: seq<Row>, param: string)
    ensures GroupSizes(valid, Column(param), GroupValues(GroupsOf(valid, param))) == |valid|
  {
    GroupsPartition(valid, Column(param), GroupValues(GroupsOf(valid, param)));
  }

  /** A group's averages lie between the smallest and largest values in the group. */
  lemma GroupAverageBounds(g: seq<Row>, v: real, lo: real, hi: real)
    requires |g| > 0
    requires forall i :: 0 <= i < |g| ==> lo <= NumOr0(g[i], "profit_factor") <= hi
    ensures lo <= Summarise(g, v).avgPf <= hi
  {
    MeanBounds(Map(g, Column("profit_factor")), lo, hi);
  }

  predicate TradesReadable(rs: seq<Row>)
  {
    forall i :: 0 <= i < |rs| ==> HasNum(rs[i], "total_trades")
  }

  function EnoughTrades(minTrades: int): Row -> bool
  {
    (r: Row) => NumOr0(r, "total_trades") >= minTrades as real
  }

  /**
   `analyze_parameter_impact`: nothing when no row has enough trades,
   otherwise one report per parameter of `ImpactParams`, grouped over the
   rows with enough trades.
   */
  function AnalyzeParameterImpact(rs: seq<Row>, minTrades: int): (r: Option<seq<ParamImpact>>)
    requires TradesReadable(rs)
    requires forall i :: 0 <= i < |rs| && Get(rs[i], "total_trades") >= minTrades as real ==> ImpactReadable(rs[i])
    ensures r.None? <==> forall i :: 0 <= i < |rs| ==> Get(rs[i], "total_trades") < minTrades as real
    ensures r.Some? ==> |r.value| == |ImpactParams|
    ensures r.Some? ==> forall j :: 0 <= j < |ImpactParams| ==>
              r.value[j].param == ImpactParams[j] && |r.value[j].groups| > 0
    ensures r.Some? ==> forall j :: 0 <= j < |ImpactParams| ==>
              r.value[j].groups == GroupsOf(Filter(rs, EnoughTrades(minTrades)), ImpactParams[j])
  {
    var valid := Filter(rs, EnoughTrades(minTrades));
    NoValidRows(rs, minTrades);
    if |valid| == 0 then
      None
    else
      var impacts := seq(|ImpactParams|, j requires 0 <= j < |ImpactParams| => ParamImpact(ImpactParams[j], GroupsOf(valid, ImpactParams[j])));
      ImpactGroupsNonEmpty(valid, impacts);
      Some(impacts)
  }

  lemma NoValidRows(rs: seq<Row>, minTrades: int)
    requires TradesReadable(rs)
    ensures |Filter(rs, EnoughTrades(minTrades))| == 0 <==> forall i :: 0 <= i < |rs| ==> Get(rs[i], "total_trades") < minTrades as real
  {
    if i :| 0 <= i < |rs| && Get(rs[i], "total_trades") >= minTrades as real {
      assert EnoughTrades(minTrades)(rs[i]);
    }
  }

  lemma ImpactGroupsNonEmpty(valid: seq<Row>, impacts: seq<ParamImpact>)
    requires |valid| > 0 && |impacts| == |ImpactParams|
    requires forall j :: 0 <= j < |ImpactParams| ==> impacts[j].groups == GroupsOf(valid, ImpactParams[j])
    ensures forall j :: 0 <= j < |ImpactParams| ==> |impacts[j].groups| > 0
  {
    forall j | 0 <= j < |ImpactParams|
      ensures |impacts[j].groups| > 0
    {
      assert NumOr0(valid[0], ImpactParams[j]) in GroupValues(GroupsOf(valid, ImpactParams[j]));
    }
  }

  /**
   Every row with enough trades is counted in exactly one group of each
   reported parameter, the group of its own value; rows with too few trades
   are in none.
   */
  lemma ImpactPartitionsRows(rs: seq<Row>, minTrades: int, j: nat)
    requires TradesReadable(rs)
    requires forall i :: 0 <= i < |rs| && Get(rs[i], "total_trades") >= minTrades as real ==> ImpactReadable(rs[i])
    requires AnalyzeParameterImpact(rs, minTrades).Some? && j < |ImpactParams|
    ensures var gs := AnalyzeParameterImpact(rs, minTrades).value[j].groups;
            GroupSizes(Filter(rs, EnoughTrades(minTrades)), Column(ImpactParams[j]), GroupValues(gs))
              == |Filter(rs, EnoughTrades(minTrades))|
    ensures var gs := AnalyzeParameterImpact(rs, minTrades).value[j].groups;
            forall i :: 0 <= i < |rs| && Get(rs[i], "total_trades") >= minTrades as real ==>
              NumOr0(rs[i], ImpactParams[j]) in GroupValues(gs)
  {
    var valid := Filter(rs, EnoughTrades(minTrades));
    GroupCountsPartition(valid, ImpactParams[j]);
    forall i | 0 <= i < |rs| && Get(rs[i], "total_trades") >= minTrades as real
      ensures NumOr0(rs[i], ImpactParams[j]) in GroupValues(GroupsOf(valid, ImpactParams[j]))
    {
      assert EnoughTrades(minTrades)(rs[i]);
      var q :| 0 <= q < |valid| && valid[q] == rs[i];
    }
  }

  /** The strict robustness test, evaluated left to right as Python does. */
  predicate Robust(r: Row, minTrades: int)
  {
    NumOr0(r, "total_trades") >= minTrades as real && NumOr0(r, "profit_factor") > 1.5 && NumOr0(r, "sharpe_ratio") > 1.0
  }

  /** The looser fallback test. */
  predicate Looser(r: Row)
  {
    NumOr0(r, "total_trades") >= 10.0 && NumOr0(r, "profit_factor") > 1.2 && NumOr0(r, "total_pnl") > 0.0
  }

  predicate RobustReadable(r: Row, minTrades: int)
  {
    HasNum(r, "total_trades")
    && (Get(r, "total_trades") >= minTrades as real ==>
          HasNum(r, "profit_factor") && (Get(r, "profit_factor") > 1.5 ==> HasNum(r, "sharpe_ratio")))
  }

  predicate LooserReadable(r: Row)
  {
    HasNum(r, "total_trades")
    && (Get(r, "total_trades") >= 10.0 ==>
          HasNum(r, "profit_factor") && (Get(r, "profit_factor") > 1.2 ==> HasNum(r, "total_pnl")))
    && GetOrZeroOk(r, "sharpe_ratio")
  }

  function StrictTest(minTrades: int): Row -> bool
  {
    (x: Row) => Robust(x, minTrades)
  }

  function LooserTest(): Row -> bool
  {
    (x: Row) => Looser(x)
  }

  /** The rows `find_robust_configs` ranks: the strict ones, or the looser ones when there is no strict one. */
  function Candidates(rs: seq<Row>, minTrades: int): seq<Row>
  {
    var strict := Filter(rs, StrictTest(minTrades));
    if |strict| > 0 then strict else Filter(rs, LooserTest())
  }

  /**
   `find_robust_configs`: the (at most) ten best rows by Sharpe ratio among
   those passing the strict test, or among those passing the looser test
   when no row passes the strict one.
   */
  function FindRobustConfigs(rs: seq<Row>, minTrades: int): (r: seq<Row>)
    requires forall i :: 0 <= i < |rs| ==> RobustReadable(rs[i], minTrades)
    requires (forall i :: 0 <= i < |rs| ==> !Robust(rs[i], minTrades)) ==> forall i :: 0 <= i < |rs| ==> LooserReadable(rs[i])
    ensures |r| == MinNat(10, |Candidates(rs, minTrades)|)
    ensures multiset(r) <= multiset(rs)
    ensures RobustPick(rs, minTrades, r)
    ensures forall i, j :: 0 <= i < j < |r| ==> NumOr0(r[i], "sharpe_ratio") >= NumOr0(r[j], "sharpe_ratio")
  {
    RobustTop(rs, minTrades);
    TopN(Candidates(rs, minTrades), Column("sharpe_ratio"), 10)
  }

  /**
   `r` is drawn from the right pool: only strict rows when some row of `rs`
   is strict, otherwise only looser rows, and it is empty exactly when no
   row passes either test.
   */
  predicate RobustPick(rs: seq<Row>, minTrades: int, r: seq<Row>)
  {
    ((exists i :: 0 <= i < |rs| && Robust(rs[i], minTrades)) ==> forall i :: 0 <= i < |r| ==> Robust(r[i], minTrades))
    && ((forall i :: 0 <= i < |rs| ==> !Robust(rs[i], minTrades)) ==> forall i :: 0 <= i < |r| ==> Looser(r[i]))
    && (|r| == 0 <==> forall i :: 0 <= i < |rs| ==> !Robust(rs[i], minTrades) && !Looser(rs[i]))
  }

  lemma RobustTop(rs: seq<Row>, minTrades: int)
    ensures var r := TopN(Candidates(rs, minTrades), Column("sharpe_ratio"), 10);
            multiset(r) <= multiset(rs) && RobustPick(rs, minTrades, r)
            && forall i, j :: 0 <= i < j < |r| ==> NumOr0(r[i], "sharpe_ratio") >= NumOr0(r[j], "sharpe_ratio")
  {
    var chosen := Candidates(rs, minTrades);
    var top := TopN(chosen, Column("sharpe_ratio"), 10);
    RobustSelection(rs, minTrades, top);
    SharpeOrder(chosen, top);
  }

  lemma RobustSelection(rs: seq<Row>, minTrades: int, top: seq<Row>)
    requires multiset(top) <= multiset(Candidates(rs, minTrades))
    requires |top| == 0 ==> |Candidates(rs, minTrades)| == 0
    ensures multiset(top) <= multiset(rs)
    ensures (exists i :: 0 <= i < |rs| && Robust(rs[i], minTrades)) ==> forall i :: 0 <= i < |top| ==> Robust(top[i], minTrades)
    ensures (forall i :: 0 <= i < |rs| ==> !Robust(rs[i], minTrades)) ==> forall i :: 0 <= i < |top| ==> Looser(top[i])
    ensures |top| == 0 <==> forall i :: 0 <= i < |rs| ==> !Robust(rs[i], minTrades) && !Looser(rs[i])
  {
    CandidatesMeetTest(rs, minTrades);
    TopNFrom(Candidates(rs, minTrades), top);
  }

  lemma SharpeOrder(chosen: seq<Row>, top: seq<Row>)
    requires NonIncreasing(top, Column("sharpe_ratio"))
    ensures forall i, j :: 0 <= i < j < |top| ==> NumOr0(top[i], "sharpe_ratio") >= NumOr0(top[j], "sharpe_ratio")
  {
  }

  /** A candidate row left out of the robust list is no better by Sharpe ratio than any row shown. */
  lemma RobustConfigsAreBest(rs: seq<Row>, minTrades: int, x: Row)
    requires forall i :: 0 <= i < |rs| ==> RobustReadable(rs[i], minTrades)
    requires (forall i :: 0 <= i < |rs| ==> !Robust(rs[i], minTrades)) ==> forall i :: 0 <= i < |rs| ==> LooserReadable(rs[i])
    requires x in multiset(Candidates(rs, minTrades)) - multiset(FindRobustConfigs(rs, minTrades))
    ensures forall i :: 0 <= i < |FindRobustConfigs(rs, minTrades)| ==>
              NumOr0(x, "sharpe_ratio") <= NumOr0(FindRobustConfigs(rs, minTrades)[i], "sharpe_ratio")
  {
    var top := FindRobustConfigs(rs, minTrades);
    assert top == TopN(Candidates(rs, minTrades), Column("sharpe_ratio"), 10);
    assert forall i :: 0 <= i < |top| ==> Column("sharpe_ratio")(x) <= Column("sharpe_ratio")(top[i]);
  }

  lemma CandidatesMeetTest(rs: seq<Row>, minTrades: int)
    ensures multiset(Candidates(rs, minTrades)) <= multiset(rs)
    ensures (exists i :: 0 <= i < |rs| && Robust(rs[i], minTrades)) ==>
              forall i :: 0 <= i < |Candidates(rs, minTrades)| ==> Robust(Candidates(rs, minTrades)[i], minTrades)
    ensures (forall i :: 0 <= i < |rs| ==> !Robust(rs[i], minTrades)) ==>
              forall i :: 0 <= i < |Candidates(rs, minTrades)| ==> Looser(Candidates(rs, minTrades)[i])
    ensures |Candidates(rs, minTrades)| == 0 <==> forall i :: 0 <= i < |rs| ==> !Robust(rs[i], minTrades) && !Looser(rs[i])
  {
    if i :| 0 <= i < |rs| && Robust(rs[i], minTrades) {
      StrictCandidates(rs, minTrades, i);
    } else {
      LooserCandidates(rs, minTrades);
    }
  }

  /** With a strict row present, the candidates are exactly the strict rows. */
  lemma StrictCandidates(rs: seq<Row>, minTrades: int, i: nat)
    requires i < |rs| && Robust(rs[i], minTrades)
    ensures multiset(Candidates(rs, minTrades)) <= multiset(rs)
    ensures |Candidates(rs, minTrades)| > 0
    ensures forall j :: 0 <= j < |Candidates(rs, minTrades)| ==> Robust(Candidates(rs, minTrades)[j], minTrades)
  {
    var strict := Filter(rs, StrictTest(minTrades));
    assert StrictTest(minTrades)(rs[i]);
    assert rs[i] in strict;
  }

  /** With no strict row, the candidates are the looser rows. */
  lemma LooserCandidates(rs: seq<Row>, minTrades: int)
    requires forall i :: 0 <= i < |rs| ==> !Robust(rs[i], minTrades)
    ensures multiset(Candidates(rs, minTrades)) <= multiset(rs)
    ensures |Candidates(rs, minTrades)| == 0 <==> forall i :: 0 <= i < |rs| ==> !Looser(rs[i])
    ensures forall j :: 0 <= j < |Candidates(rs, minTrades)| ==> Looser(Candidates(rs, minTrades)[j])
  {
    var loose := Filter(rs, LooserTest());
    assert forall k :: 0 <= k < |rs| ==> !StrictTest(minTrades)(rs[k]);
    FilterNone(rs, StrictTest(minTrades));
    assert Candidates(rs, minTrades) == loose;
    forall j | 0 <= j < |loose|
      ensures Looser(loose[j])
    {
      assert LooserTest()(loose[j]);
    }
    if i :| 0 <= i < |rs| && Looser(rs[i]) {
      assert LooserTest()(rs[i]);
      assert rs[i] in loose;
    }
  }

  /** Elements of a sub-multiset are elements of the whole, so they keep every per-element property. */
  lemma TopNFrom(chosen: seq<Row>, top: seq<Row>)
    requires multiset(top) <= multiset(chosen)
    ensures forall i :: 0 <= i < |top| ==> top[i] in chosen
    ensures |top| == 0 || |chosen| > 0
  {
    forall i | 0 <= i < |top|
      ensures top[i] in chosen
    {
      assert top[i] in multiset(top);
    }
  }

  datatype SummaryStats = SummaryStats(
    total: nat,
    profitable: nat,
    profitablePct: real,
    withTrades: nat,
    withTradesPct: real,
    bestByPnl: Option<Row>,
    bestByPf: Option<Row>,
    bestBySharpe: Option<Row>)

  predicate SummaryReadable(rs: seq<Row>)
  {
    forall i :: 0 <= i < |rs| ==>
      HasNum(rs[i], "total_pnl") && HasNum(rs[i], "total_trades")
      && (Get(rs[i], "total_pnl") > 0.0 && Get(rs[i], "total_trades") >= 10.0 ==>
            HasNum(rs[i], "profit_factor") && HasNum(rs[i], "sharpe_ratio"))
  }

  function Profitable(): Row -> bool
  {
    (r: Row) => NumOr0(r, "total_pnl") > 0.0
  }

  function Seasoned(): Row -> bool
  {
    (r: Row) => NumOr0(r, "total_trades") >= 10.0
  }

  function HasTrades(): Row -> bool
  {
    (r: Row) => NumOr0(r, "total_trades") > 0.0
  }

  /** The rows `print_summary_stats` ranks by profit factor and by Sharpe ratio. */
  function SeasonedProfitable(rs: seq<Row>): seq<Row>
  {
    Filter(Filter(rs, Profitable()), Seasoned())
  }

  /** `max(xs, key=..., default=None)`: the first row of maximal key, if any. */
  function BestBy(xs: seq<Row>, k: string): (r: Option<Row>)
    ensures r.None? <==> |xs| == 0
    ensures r.Some? ==> r.value in xs && forall i :: 0 <= i < |xs| ==> NumOr0(xs[i], k) <= NumOr0(r.value, k)
    ensures r.Some? ==> exists m :: 0 <= m < |xs| && xs[m] == r.value && forall j :: 0 <= j < m ==> NumOr0(xs[j], k) < NumOr0(xs[m], k)
  {
    if |xs| == 0 then None
    else
      var m := MaxFirst(xs, Column(k));
      Some(xs[m])
  }

  /**
   `print_summary_stats`: an empty result list divides by zero, which ends
   the script. Otherwise counts of profitable rows and of rows with trades,
   the best row by P&L and, among profitable rows with at least ten trades,
   the best by profit factor and by Sharpe ratio.
   */
  function SummaryStatsOf(rs: seq<Row>): (r: Result<SummaryStats>)
    requires SummaryReadable(rs)
    ensures r.Err? <==> |rs| == 0
    ensures r.Ok? ==> r.value.total == |rs| && r.value.profitable <= |rs| && r.value.withTrades <= |rs|
    ensures r.Ok? ==> r.value.profitable == |Filter(rs, Profitable())| && r.value.withTrades == |Filter(rs, HasTrades())|
    ensures r.Ok? ==> r.value.profitablePct == r.value.profitable as real / |rs| as real * 100.0
    ensures r.Ok? ==> r.value.withTradesPct == r.value.withTrades as real / |rs| as real * 100.0
    ensures r.Ok? ==> (r.value.bestByPnl.Some? <==> exists i :: 0 <= i < |rs| && Get(rs[i], "total_pnl") > 0.0)
    ensures r.Ok? && r.value.bestByPnl.Some? ==>
              r.value.bestByPnl.value in rs && Get(r.value.bestByPnl.value, "total_pnl") > 0.0
              && forall i :: 0 <= i < |rs| ==> Get(rs[i], "total_pnl") <= Get(r.value.bestByPnl.value, "total_pnl")
    ensures r.Ok? ==> (r.value.bestByPf.Some? <==> exists i :: 0 <= i < |rs| && Get(rs[i], "total_pnl") > 0.0 && Get(rs[i], "total_trades") >= 10.0)
    ensures r.Ok? ==> r.value.bestBySharpe.Some? == r.value.bestByPf.Some?
    ensures r.Ok? ==> r.value.bestByPf == BestBy(SeasonedProfitable(rs), "profit_factor")
    ensures r.Ok? ==> r.value.bestBySharpe == BestBy(SeasonedProfitable(rs), "sharpe_ratio")
  {
    if |rs| == 0 then Err("division by zero")
    else
      var profitable := Filter(rs, Profitable());
      var withTrades := Filter(rs, HasTrades());
      var seasoned := Filter(profitable, Seasoned());
      var best := BestBy(profitable, "total_pnl");
      BestByPnl(rs);
      SeasonedExists(rs);
      var n := |rs| as real;
      Ok(SummaryStats(|rs|, |profitable|, |profitable| as real / n * 100.0, |withTrades|, |withTrades| as real / n * 100.0,
                      best, if |profitable| > 0 then BestBy(seasoned, "profit_factor") else None,
                      if |profitable| > 0 then BestBy(seasoned, "sharpe_ratio") else None))
  }

  lemma BestByPnl(rs: seq<Row>)
    requires SummaryReadable(rs)
    ensures BestBy(Filter(rs, Profitable()), "total_pnl").Some? <==> exists i :: 0 <= i < |rs| && Get(rs[i], "total_pnl") > 0.0
    ensures BestBy(Filter(rs, Profitable()), "total_pnl").Some? ==>
              var b := BestBy(Filter(rs, Profitable()), "total_pnl").value;
              b in rs && Get(b, "total_pnl") > 0.0 && forall i :: 0 <= i < |rs| ==> Get(rs[i], "total_pnl") <= Get(b, "total_pnl")
  {
    var profitable := Filter(rs, Profitable());
    var best := BestBy(profitable, "total_pnl");
    if i :| 0 <= i < |rs| && Get(rs[i], "total_pnl") > 0.0 {
      assert Profitable()(rs[i]);
      assert rs[i] in profitable;
    }
    if best.Some? {
      var b := best.value;
      var k :| 0 <= k < |profitable| && profitable[k] == b;
      assert Profitable()(profitable[k]);
      forall i | 0 <= i < |rs|
        ensures Get(rs[i], "total_pnl") <= Get(b, "total_pnl")
      {
        if Get(rs[i], "total_pnl") > 0.0 {
          assert Profitable()(rs[i]);
          assert rs[i] in profitable;
        }
      }
    }
  }

  lemma SeasonedExists(rs: seq<Row>)
    requires SummaryReadable(rs)
    ensures |Filter(Filter(rs, Profitable()), Seasoned())| > 0 <==>
              exists i :: 0 <= i < |rs| && Get(rs[i], "total_pnl") > 0.0 && Get(rs[i], "total_trades") >= 10.0
  {
    var profitable := Filter(rs, Profitable());
    var seasoned := Filter(profitable, Seasoned());
    if i :| 0 <= i < |rs| && Get(rs[i], "total_pnl") > 0.0 && Get(rs[i], "total_trades") >= 10.0 {
      assert Profitable()(rs[i]);
      assert rs[i] in profitable;
      var k :| 0 <= k < |profitable| && profitable[k] == rs[i];
      assert Seasoned()(profitable[k]);
    }
    if |seasoned| > 0 {
      var x := seasoned[0];
      assert x in profitable && Seasoned()(x);
      var k :| 0 <= k < |profitable| && profitable[k] == x;
      assert x in rs && Profitable()(x);
      var i :| 0 <= i < |rs| && rs[i] == x;
      assert Get(rs[i], "total_pnl") > 0.0 && Get(rs[i], "total_trades") >= 10.0;
    }
  }

  /**
   The profit-factor and Sharpe winners of the summary are rows of the file
   with a positive P&L and at least ten trades, and no such row beats them.
   */
  lemma {:induction false} SummaryBestSeasoned(rs: seq<Row>, k: string)
    requires SummaryReadable(rs) && |rs| > 0
    ensures var b := BestBy(SeasonedProfitable(rs), k);
            b.Some? ==>
              b.value in rs && Get(b.value, "total_pnl") > 0.0 && Get(b.value, "total_trades") >= 10.0
              && forall i :: 0 <= i < |rs| && Get(rs[i], "total_pnl") > 0.0 && Get(rs[i], "total_trades") >= 10.0 ==>
                   NumOr0(rs[i], k) <= NumOr0(b.value, k)
  {
    var profitable := Filter(rs, Profitable());
    var seasoned := Filter(profitable, Seasoned());
    var b := BestBy(seasoned, k);
    if b.Some? {
      assert b.value in profitable && Seasoned()(b.value) by {
        var m :| 0 <= m < |seasoned| && seasoned[m] == b.value;
      }
      var p :| 0 <= p < |profitable| && profitable[p] == b.value;
      assert Profitable()(profitable[p]);
      forall i | 0 <= i < |rs| && Get(rs[i], "total_pnl") > 0.0 && Get(rs[i], "total_trades") >= 10.0
        ensures NumOr0(rs[i], k) <= NumOr0(b.value, k)
      {
        assert Profitable()(rs[i]);
        var q :| 0 <= q < |profitable| && profitable[q] == rs[i];
        assert Seasoned()(profitable[q]);
        assert rs[i] in seasoned;
      }
    }
  }

  datatype Report = Report(summary: SummaryStats, top: seq<Row>, impact: Option<seq<ParamImpact>>, robust: seq<Row>)

  /** Everything `main` reads, in the order it reads it. */
  predicate Analysable(rs: seq<Row>, minTrades: int, sortBy: string)
  {
    SummaryReadable(rs)
    && FilterReadable(rs, minTrades)
    && SortReadable(Filter(rs, KeepRow(minTrades, 0.0)), sortBy)
    && (forall i :: 0 <= i < |rs| && Get(rs[i], "total_trades") >= minTrades as real ==> ImpactReadable(rs[i]))
    && (forall i :: 0 <= i < |rs| ==> RobustReadable(rs[i], minTrades))
    && ((forall i :: 0 <= i < |rs| ==> !Robust(rs[i], minTrades)) ==> forall i :: 0 <= i < |rs| ==> LooserReadable(rs[i]))
  }

  /**
   `main`: the summary first (which fails on an empty file), then the
   `top` best rows with enough trades by the chosen column, the parameter
   impact and the robust configurations, all with the same trade minimum.
   */
  function Analyze(rs: seq<Row>, minTrades: int, sortBy: string, top: int): (r: Result<Report>)
    requires Analysable(rs, minTrades, sortBy)
    ensures r.Err? <==> |rs| == 0
    ensures r.Ok? ==> top >= 0 ==> |r.value.top| == MinNat(top, |FilterResults(rs, minTrades, 0.0)|)
    ensures r.Ok? ==> forall i :: 0 <= i < |r.value.top| ==>
              r.value.top[i] in rs && Get(r.value.top[i], "total_trades") >= minTrades as real
    ensures r.Ok? ==> forall i, j :: 0 <= i < j < |r.value.top| ==> NumOr0(r.value.top[i], sortBy) >= NumOr0(r.value.top[j], sortBy)
    ensures r.Ok? ==> |r.value.robust| <= 10
    ensures r.Ok? ==> r.value.summary == SummaryStatsOf(rs).value && r.value.top == TopRows(rs, minTrades, sortBy, top)
    ensures r.Ok? ==> r.value.impact == AnalyzeParameterImpact(rs, minTrades) && r.value.robust == FindRobustConfigs(rs, minTrades)
  {
    match SummaryStatsOf(rs)
    case Err(e) => Err(e)
    case Ok(s) =>
      var shown := TopRows(rs, minTrades, sortBy, top);
      Ok(Report(s, shown, AnalyzeParameterImpact(rs, minTrades), FindRobustConfigs(rs, minTrades)))
  }

  /** `sort_results(filter_results(...))[:top]`: the rows `main` lists first. */
  function TopRows(rs: seq<Row>, minTrades: int, sortBy: string, top: int): (r: seq<Row>)
    requires FilterReadable(rs, minTrades)
    requires SortReadable(Filter(rs, KeepRow(minTrades, 0.0)), sortBy)
    ensures top >= 0 ==> |r| == MinNat(top, |FilterResults(rs, minTrades, 0.0)|)
    ensures forall i :: 0 <= i < |r| ==> r[i] in rs && Get(r[i], "total_trades") >= minTrades as real
    ensures forall i, j :: 0 <= i < j < |r| ==> NumOr0(r[i], sortBy) >= NumOr0(r[j], sortBy)
    ensures multiset(r) <= multiset(FilterResults(rs, minTrades, 0.0))
    ensures forall x :: x in multiset(FilterResults(rs, minTrades, 0.0)) - multiset(r) ==>
              forall i :: 0 <= i < |r| ==> NumOr0(x, sortBy) <= NumOr0(r[i], sortBy)
  {
    var filtered := FilterResults(rs, minTrades, 0.0);
    var shown := SliceTo(SortResults(filtered, sortBy, true), top);
    SortedPrefix(filtered, sortBy, top);
    shown
  }

  lemma SortedPrefix(filtered: seq<Row>, sortBy: string, top: int)
    requires SortReadable(filtered, sortBy)
    ensures var shown := SliceTo(SortResults(filtered, sortBy, true), top);
            (forall i :: 0 <= i < |shown| ==> shown[i] in filtered)
            && (forall i, j :: 0 <= i < j < |shown| ==> NumOr0(shown[i], sortBy) >= NumOr0(shown[j], sortBy))
            && multiset(shown) <= multiset(filtered)
            && forall x :: x in multiset(filtered) - multiset(shown) ==>
                 forall i :: 0 <= i < |shown| ==> NumOr0(x, sortBy) <= NumOr0(shown[i], sortBy)
  {
    var sorted := SortResults(filtered, sortBy, true);
    var shown := SliceTo(sorted, top);
    PrefixFrom(filtered, sorted, shown);
    ShownAreBest(filtered, sorted, shown, sortBy);
  }

  /** A prefix of the descending sort holds the best rows: every row left out is no better than any row shown. */
  lemma ShownAreBest(filtered: seq<Row>, sorted: seq<Row>, shown: seq<Row>, sortBy: string)
    requires multiset(sorted) == multiset(filtered)
    requires forall i, j :: 0 <= i < j < |sorted| ==> NumOr0(sorted[i], sortBy) >= NumOr0(sorted[j], sortBy)
    requires |shown| <= |sorted| && shown == sorted[..|shown|]
    ensures multiset(shown) <= multiset(filtered)
    ensures forall x :: x in multiset(filtered) - multiset(shown) ==>
              forall i :: 0 <= i < |shown| ==> NumOr0(x, sortBy) <= NumOr0(shown[i], sortBy)
  {
    assert NonIncreasing(sorted, Column(sortBy));
    TopNSplit(sorted, Column(sortBy), |shown|);
    forall x | x in multiset(filtered) - multiset(shown)
      ensures forall i :: 0 <= i < |shown| ==> NumOr0(x, sortBy) <= NumOr0(shown[i], sortBy)
    {
      assert forall i :: 0 <= i < |shown| ==> Column(sortBy)(x) <= Column(sortBy)(shown[i]);
    }
  }

  lemma PrefixFrom(filtered: seq<Row>, sorted: seq<Row>, shown: seq<Row>)
    requires multiset(sorted) == multiset(filtered)
    requires |shown| <= |sorted| && shown == sorted[..|shown|]
    ensures forall i :: 0 <= i < |shown| ==> shown[i] in filtered
  {
    forall i | 0 <= i < |shown|
      ensures shown[i] in filtered
    {
      assert shown[i] == sorted[i];
      assert sorted[i] in multiset(sorted);
    }
  }
}
