/**
 Statistics the backtesters compute over a run's per-trade P&L: gross
 profit and loss, the profit factor, averages of winners and losers, and
 the largest peak-to-trough fall of cumulative P&L. The same formulas
 appear in `pipeline/lvn_retest.rs`, `pipeline/three_element_backtest.rs`,
 `pipeline/smart_lvn.rs` and `trading_core/trader.rs`.
 */
module Stats {
  import opened Base

  /** The sum of the positive entries. */
  function GrossProfit(ps: seq<real>): (g: real)
    ensures g >= 0.0
  {
    if |ps| == 0 then 0.0
    else GrossProfit(ps[..|ps| - 1]) + (if ps[|ps| - 1] > 0.0 then ps[|ps| - 1] else 0.0)
  }

  /** The sum of the sizes of the negative entries. */
  function GrossLoss(ps: seq<real>): (g: real)
    ensures g >= 0.0
  {
    if |ps| == 0 then 0.0
    else GrossLoss(ps[..|ps| - 1]) + (if ps[|ps| - 1] < 0.0 then -ps[|ps| - 1] else 0.0)
  }

  /** Net P&L is gross profit less gross loss. */
  lemma {:induction false} NetIsGrossDifference(ps: seq<real>)
    ensures Sum(ps) == GrossProfit(ps) - GrossLoss(ps)
  {
    if |ps| > 0 {
      NetIsGrossDifference(ps[..|ps| - 1]);
    }
  }

  /** Without a losing trade there is no gross loss. */
  lemma {:induction false} NoLossesNoGrossLoss(ps: seq<real>)
    requires forall i :: 0 <= i < |ps| ==> ps[i] >= 0.0
    ensures GrossLoss(ps) == 0.0
  {
    if |ps| > 0 {
      NoLossesNoGrossLoss(ps[..|ps| - 1]);
    }
  }

  /**
   The profit factor: gross profit over gross loss when there is a loss,
   infinite when there is only profit, and 0 when there is neither.
   */
  function ProfitFactor(ps: seq<real>): (r: Ratio)
    ensures r == Infinite <==> GrossLoss(ps) == 0.0 && GrossProfit(ps) > 0.0
    ensures r.Finite? && GrossLoss(ps) > 0.0 ==> r.r * GrossLoss(ps) == GrossProfit(ps)
    ensures r.Finite? ==> r.r >= 0.0
    ensures GrossLoss(ps) == 0.0 && GrossProfit(ps) == 0.0 ==> r == Finite(0.0)
  {
    Factor(GrossProfit(ps), GrossLoss(ps))
  }

  /** Profit over loss when there is a loss, infinite for profit alone, 0 for neither. */
  function Factor(gp: real, gl: real): (r: Ratio)
    ensures r == Infinite <==> gl <= 0.0 && gp > 0.0
    ensures r.Finite? && gl > 0.0 ==> r.r * gl == gp
    ensures gp >= 0.0 && r.Finite? ==> r.r >= 0.0
    ensures gl <= 0.0 && gp <= 0.0 ==> r == Finite(0.0)
  {
    if gl > 0.0 then Finite(gp / gl) else if gp > 0.0 then Infinite else Finite(0.0)
  }

  /** A profit factor above 1 means the run made money. */
  lemma ProfitFactorAboveOne(ps: seq<real>)
    requires ProfitFactor(ps) == Infinite || ProfitFactor(ps).r > 1.0
    ensures Sum(ps) > 0.0
  {
    NetIsGrossDifference(ps);
    if GrossLoss(ps) > 0.0 {
      QuotientAboveOne(GrossProfit(ps), GrossLoss(ps));
    }
  }

  lemma QuotientAboveOne(p: real, l: real)
    requires l > 0.0 && p / l > 1.0
    ensures p > l
  {
    MulAboveOne(p / l, l);
  }

  lemma MulAboveOne(a: real, c: real)
    requires a > 1.0 && c > 0.0
    ensures a * c > c
  {
    assert a * c - c == (a - 1.0) * c;
  }

  function Winners(ps: seq<real>): (w: seq<real>)
    ensures |w| <= |ps|
    ensures forall i :: 0 <= i < |w| ==> w[i] > 0.0
  {
    if |ps| == 0 then []
    else Winners(ps[..|ps| - 1]) + (if ps[|ps| - 1] > 0.0 then [ps[|ps| - 1]] else [])
  }

  function Losers(ps: seq<real>): (l: seq<real>)
    ensures |l| <= |ps|
    ensures forall i :: 0 <= i < |l| ==> l[i] < 0.0
  {
    if |ps| == 0 then []
    else Losers(ps[..|ps| - 1]) + (if ps[|ps| - 1] < 0.0 then [ps[|ps| - 1]] else [])
  }

  /** The winners sum to the gross profit and the losers to minus the gross loss. */
  lemma {:induction false} WinnersLosersSums(ps: seq<real>)
    ensures Sum(Winners(ps)) == GrossProfit(ps)
    ensures Sum(Losers(ps)) == -GrossLoss(ps)
  {
    if |ps| > 0 {
      var init := ps[..|ps| - 1];
      var x := ps[|ps| - 1];
      WinnersLosersSums(init);
      SumAppend(Winners(init), if x > 0.0 then [x] else []);
      SumAppend(Losers(init), if x < 0.0 then [x] else []);
    }
  }

  /** The mean of a sequence, 0 for none. */
  function Mean(xs: seq<real>): real
  {
    if |xs| == 0 then 0.0 else Sum(xs) / |xs| as real
  }

  /** The average loss is never positive and the average win never negative. */
  lemma AverageLossNotPositive(ps: seq<real>)
    ensures Mean(Losers(ps)) <= 0.0
    ensures Mean(Winners(ps)) >= 0.0
  {
    WinnersLosersSums(ps);
    var l := Losers(ps);
    var w := Winners(ps);
    if |l| > 0 {
      QuotientSign(Sum(l), |l|);
    }
    if |w| > 0 {
      QuotientSign(Sum(w), |w|);
    }
  }

  lemma QuotientSign(s: real, n: nat)
    requires n > 0
    ensures s <= 0.0 ==> s / n as real <= 0.0
    ensures s >= 0.0 ==> s / n as real >= 0.0
  {
  }

  // ---------------------------------------------------------------------
  // Drawdown

  /** The highest cumulative P&L reached, counting the start at 0. */
  function PrefixPeak(ps: seq<real>): (p: real)
    ensures p >= 0.0 && p >= Sum(ps)
  {
    if |ps| == 0 then 0.0 else Max(PrefixPeak(ps[..|ps| - 1]), Sum(ps))
  }

  /** The largest fall from a running peak to a later cumulative P&L. */
  function MaxDrawdown(ps: seq<real>): (d: real)
    ensures d >= 0.0
    ensures d >= PrefixPeak(ps) - Sum(ps)
  {
    if |ps| == 0 then 0.0 else Max(MaxDrawdown(ps[..|ps| - 1]), PrefixPeak(ps) - Sum(ps))
  }

  /** The drawdown bounds the fall after every prefix, and it is attained after one of them. */
  lemma {:induction false} MaxDrawdownIsLargestFall(ps: seq<real>)
    ensures forall k :: 0 <= k <= |ps| ==> MaxDrawdown(ps) >= PrefixPeak(ps[..k]) - Sum(ps[..k])
    ensures exists k :: 0 <= k <= |ps| && MaxDrawdown(ps) == PrefixPeak(ps[..k]) - Sum(ps[..k])
  {
    if |ps| == 0 {
      assert ps[..0] == ps;
    } else {
      var init := ps[..|ps| - 1];
      MaxDrawdownIsLargestFall(init);
      assert ps[..|ps|] == ps;
      forall k | 0 <= k <= |ps| ensures MaxDrawdown(ps) >= PrefixPeak(ps[..k]) - Sum(ps[..k]) {
        if k < |ps| {
          assert ps[..k] == init[..k];
        }
      }
      if MaxDrawdown(ps) == PrefixPeak(ps) - Sum(ps) {
        assert MaxDrawdown(ps) == PrefixPeak(ps[..|ps|]) - Sum(ps[..|ps|]);
      } else {
        var k :| 0 <= k <= |init| && MaxDrawdown(init) == PrefixPeak(init[..k]) - Sum(init[..k]);
        assert ps[..k] == init[..k];
      }
    }
  }

  /** A run with no losing trade has no drawdown. */
  lemma {:induction false} NoLossesNoDrawdown(ps: seq<real>)
    requires forall i :: 0 <= i < |ps| ==> ps[i] >= 0.0
    ensures MaxDrawdown(ps) == 0.0 && PrefixPeak(ps) == Sum(ps)
  {
    if |ps| > 0 {
      NoLossesNoDrawdown(ps[..|ps| - 1]);
    }
  }

  /**
   The loop the backtesters run: equity accumulates each trade, the peak
   is the running maximum from 0, and the drawdown the running maximum of
   peak minus equity.
   */
  method RunningDrawdown(ps: seq<real>) returns (maxDd: real)
    ensures maxDd == MaxDrawdown(ps)
  {
    var equity := 0.0;
    var peak := 0.0;
    maxDd := 0.0;
    var i := 0;
    while i < |ps|
      invariant 0 <= i <= |ps|
      invariant equity == Sum(ps[..i]) && peak == PrefixPeak(ps[..i]) && maxDd == MaxDrawdown(ps[..i])
    {
      assert ps[..i + 1][..i] == ps[..i];
      equity := equity + ps[i];
      peak := Max(peak, equity);
      maxDd := Max(maxDd, peak - equity);
      i := i + 1;
    }
    assert ps[..|ps|] == ps;
  }

  /** The drawdown never exceeds the total of the losses. */
  lemma {:induction false} DrawdownAtMostGrossLoss(ps: seq<real>)
    ensures MaxDrawdown(ps) <= GrossLoss(ps)
    ensures PrefixPeak(ps) - Sum(ps) <= GrossLoss(ps)
  {
    if |ps| > 0 {
      var init := ps[..|ps| - 1];
      DrawdownAtMostGrossLoss(init);
    }
  }

  /** The number of entries satisfying `p`. */
  function CountIf<T>(xs: seq<T>, p: T -> bool): (n: nat)
    ensures n <= |xs|
  {
    if |xs| == 0 then 0 else CountIf(xs[..|xs| - 1], p) + (if p(xs[|xs| - 1]) then 1 else 0)
  }

  /** Win rate in percent, 0 when there are no trades. */
  function WinRatePercent(wins: nat, total: nat): (r: real)
    ensures total == 0 ==> r == 0.0
    ensures wins <= total ==> 0.0 <= r <= 100.0
  {
    if total == 0 then 0.0 else wins as real / total as real * 100.0
  }

  /** The cases of the tests' style: two winners and a loser. */
  lemma StatsExample()
    ensures GrossProfit([10.0, -4.0, 6.0]) == 16.0 && GrossLoss([10.0, -4.0, 6.0]) == 4.0
    ensures ProfitFactor([10.0, -4.0, 6.0]) == Finite(4.0)
    ensures ProfitFactor([3.0]) == Infinite && ProfitFactor([]) == Finite(0.0)
    ensures MaxDrawdown([10.0, -4.0, 6.0]) == 4.0 && MaxDrawdown([-5.0, 2.0]) == 5.0
  {
    assert [10.0, -4.0, 6.0][..2] == [10.0, -4.0];
    assert [10.0, -4.0][..1] == [10.0];
    assert [10.0][..0] == [];
    assert [-5.0, 2.0][..1] == [-5.0];
    assert [-5.0][..0] == [];
    assert [3.0][..0] == [];
  }
}
