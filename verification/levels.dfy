/**
 Key price levels (`pipeline/levels.rs`): per-day reference levels from
 one-minute bars, the price-ordered index of those levels plus the
 low-volume nodes, proximity queries on it, and Fibonacci retracements.
 Buckets here are one point wide, so a bucket's price is its key.
 */
module Levels {
  import opened Base
  import opened Market
  import opened Profile
  import opened Impulse
  import opened Lvn
  import opened Sorting
  import opened Ranking

  datatype LevelType =
    | POC | VAH | VAL | PDH | PDL | ONH | ONL | LVN
    | Fib236 | Fib382 | Fib500 | Fib618 | Fib786
    | VWAP | WeeklyHigh | WeeklyLow | MonthlyHigh | MonthlyLow | WeeklyOpen | MonthlyOpen

  datatype KeyLevel = KeyLevel(price: real, levelType: LevelType, date: int, strength: real)

  datatype DailyLevels = DailyLevels(
    date: int, symbol: string,
    pdh: real, pdl: real, pdc: real,
    onh: real, onl: real,
    poc: real, vah: real, val: real,
    sessionHigh: real, sessionLow: real, sessionOpen: real, sessionClose: real,
    totalVolume: nat)

  datatype LevelIndex = LevelIndex(levels: seq<KeyLevel>, tolerance: real)

  function KeyPrice(l: KeyLevel): real { l.price }

  /** The seven reference levels of one day, all at full strength. */
  function DayKeyLevels(dl: DailyLevels): (r: seq<KeyLevel>)
    ensures |r| == 7
    ensures forall l :: l in r ==> l.date == dl.date && l.strength == 1.0 && l.levelType != LVN
  {
    [KeyLevel(dl.poc, POC, dl.date, 1.0), KeyLevel(dl.vah, VAH, dl.date, 1.0), KeyLevel(dl.val, VAL, dl.date, 1.0),
     KeyLevel(dl.pdh, PDH, dl.date, 1.0), KeyLevel(dl.pdl, PDL, dl.date, 1.0),
     KeyLevel(dl.onh, ONH, dl.date, 1.0), KeyLevel(dl.onl, ONL, dl.date, 1.0)]
  }

  /** A node becomes a level whose strength falls as its volume ratio rises: 1 - min(ratio, 1). */
  function LvnKeyLevel(n: LvnLevel): (l: KeyLevel)
    ensures l.levelType == LVN && l.price == n.price && l.date == n.date
    ensures n.volumeRatio >= 0.0 ==> 0.0 <= l.strength <= 1.0
    ensures l.strength == 1.0 - Min(n.volumeRatio, 1.0)
  {
    KeyLevel(n.price, LVN, n.date, 1.0 - Min(n.volumeRatio, 1.0))
  }

  function UnsortedLevels(dls: seq<DailyLevels>, lvns: seq<LvnLevel>): (r: seq<KeyLevel>)
    ensures |r| == 7 * |dls| + |lvns|
    ensures forall l :: l in r && l.levelType != LVN ==> l.strength == 1.0
    ensures forall l :: l in r && l.levelType == LVN ==> exists n :: n in lvns && l == LvnKeyLevel(n)
  {
    if |dls| > 0 then
      var rest := UnsortedLevels(dls[1..], lvns);
      assert forall l :: l in DayKeyLevels(dls[0]) + rest <==> l in DayKeyLevels(dls[0]) || l in rest;
      DayKeyLevels(dls[0]) + rest
    else
      Map(lvns, LvnKeyLevel)
  }

  /**
   `LevelIndex::new`: seven levels per day and one per node, ordered by
   price; only nodes can be weaker than full strength.
   */
  function NewLevelIndex(dls: seq<DailyLevels>, lvns: seq<LvnLevel>, tolerance: real): (idx: LevelIndex)
    ensures SortedBy(idx.levels, KeyPrice)
    ensures multiset(idx.levels) == multiset(UnsortedLevels(dls, lvns))
    ensures |idx.levels| == 7 * |dls| + |lvns|
    ensures forall l :: l in idx.levels && l.levelType != LVN ==> l.strength == 1.0
    ensures idx.tolerance == tolerance
  {
    var all := UnsortedLevels(dls, lvns);
    var levels := SortBy(all, KeyPrice);
    forall l | l in levels ensures l in all {
      SortByMembers(all, KeyPrice, l);
    }
    LevelIndex(levels, tolerance)
  }

  /** `is_near_level`. */
  predicate IsNearLevel(price: real, level: real, tolerance: real)
  {
    Abs(price - level) <= tolerance
  }

  predicate Near(idx: LevelIndex, price: real, date: int, l: KeyLevel)
  {
    l.date == date && IsNearLevel(price, l.price, idx.tolerance)
  }

  /** `levels_near`: the index's levels on `date` within tolerance of `price`, in index order. */
  function LevelsNear(idx: LevelIndex, price: real, date: int): (r: seq<KeyLevel>)
    ensures forall l :: l in r <==> l in idx.levels && Near(idx, price, date, l)
  {
    Filter(idx.levels, l => Near(idx, price, date, l))
  }

  /** The near levels come out of a price-ordered index in price order. */
  lemma LevelsNearSorted(idx: LevelIndex, price: real, date: int)
    requires SortedBy(idx.levels, KeyPrice)
    ensures SortedBy(LevelsNear(idx, price, date), KeyPrice)
  {
    FilterSorted(idx.levels, l => Near(idx, price, date, l));
  }

  lemma {:induction false} FilterSorted(xs: seq<KeyLevel>, p: KeyLevel -> bool)
    requires SortedBy(xs, KeyPrice)
    ensures SortedBy(Filter(xs, p), KeyPrice)
  {
    if |xs| > 0 {
      var init := xs[..|xs| - 1];
      var last := xs[|xs| - 1];
      assert SortedBy(init, KeyPrice) by {
        forall i, j | 0 <= i < j < |init| ensures init[i].price <= init[j].price {
          assert init[i] == xs[i] && init[j] == xs[j];
        }
      }
      FilterSorted(init, p);
      var fi := Filter(init, p);
      var tail := if p(last) then [last] else [];
      assert Filter(xs, p) == fi + tail;
      forall i | 0 <= i < |fi| ensures fi[i].price <= last.price {
        var k :| 0 <= k < |init| && init[k] == fi[i];
        assert KeyPrice(xs[k]) <= KeyPrice(xs[|xs| - 1]);
      }
      var r := fi + tail;
      forall i, j | 0 <= i < j < |r| ensures KeyPrice(r[i]) <= KeyPrice(r[j]) {
        if j < |fi| {
          assert r[i] == fi[i] && r[j] == fi[j];
          assert KeyPrice(fi[i]) <= KeyPrice(fi[j]);
        } else {
          assert r[i] == fi[i] && r[j] == last;
        }
      }
    }
  }

  /** `is_at_level`: some level of that date lies within tolerance. */
  function IsAtLevel(idx: LevelIndex, price: real, date: int): (r: bool)
    ensures r <==> exists l :: l in idx.levels && Near(idx, price, date, l)
  {
    var near := LevelsNear(idx, price, date);
    assert |near| > 0 ==> near[0] in near;
    |near| > 0
  }

  function Strength(l: KeyLevel): real { l.strength }

  /**
   `strongest_level_near`: none exactly when no level is near; otherwise a
   near level of greatest strength, the last such in price order.
   */
  function StrongestLevelNear(idx: LevelIndex, price: real, date: int): (r: Option<KeyLevel>)
    ensures r.None? <==> !IsAtLevel(idx, price, date)
    ensures r.Some? ==> r.value in idx.levels && Near(idx, price, date, r.value)
    ensures r.Some? ==> forall l :: l in idx.levels && Near(idx, price, date, l) ==> l.strength <= r.value.strength
  {
    var near := LevelsNear(idx, price, date);
    if |near| == 0 then None
    else
      var i := MaxLast(near, Strength);
      assert near[i] in near;
      forall l | l in idx.levels && Near(idx, price, date, l) ensures l.strength <= near[i].strength {
        var j :| 0 <= j < |near| && near[j] == l;
      }
      Some(near[i])
  }

  // ---------------------------------------------------------------------
  // Daily levels from one-minute bars

  predicate HasDay(bars: seq<Bar>, d: int)
  {
    exists i :: 0 <= i < |bars| && DayOf(bars[i].ts) == d
  }

  /** Insert `d` into a strictly increasing list of days unless it is already there. */
  function InsertDay(d: int, ds: seq<int>): (r: seq<int>)
    requires forall i, j :: 0 <= i < j < |ds| ==> ds[i] < ds[j]
    ensures forall i, j :: 0 <= i < j < |r| ==> r[i] < r[j]
    ensures forall x :: x in r <==> x == d || x in ds
  {
    if |ds| == 0 then [d]
    else if d == ds[0] then ds
    else if d < ds[0] then [d] + ds
    else
      var rest := InsertDay(d, ds[1..]);
      assert forall x :: x in ds <==> x == ds[0] || x in ds[1..];
      assert forall k :: 0 <= k < |rest| ==> ds[0] < rest[k] by {
        forall k | 0 <= k < |rest| ensures ds[0] < rest[k] {
          assert rest[k] in rest;
          if rest[k] != d {
            var m :| 0 <= m < |ds[1..]| && ds[1..][m] == rest[k];
            assert ds[0] < ds[m + 1];
          }
        }
      }
      [ds[0]] + rest
  }

  /** The dates of the bars, ascending and without repeats (the `BTreeMap` key order). */
  function BarDays(bars: seq<Bar>): (r: seq<int>)
    ensures forall i, j :: 0 <= i < j < |r| ==> r[i] < r[j]
    ensures forall d :: d in r <==> HasDay(bars, d)
  {
    if |bars| == 0 then []
    else
      var init := bars[..|bars| - 1];
      var r := InsertDay(DayOf(bars[|bars| - 1].ts), BarDays(init));
      forall d ensures d in r <==> HasDay(bars, d) {
        if HasDay(bars, d) {
          var i :| 0 <= i < |bars| && DayOf(bars[i].ts) == d;
          if i < |bars| - 1 {
            assert DayOf(init[i].ts) == d;
          }
        }
        if d in BarDays(init) {
          var i :| 0 <= i < |init| && DayOf(init[i].ts) == d;
          assert bars[i] == init[i];
        }
      }
      r
  }

  predicate OnDay(b: Bar, d: int) { DayOf(b.ts) == d }

  /** The bars of day `d`, in their order. */
  function DayBars(bars: seq<Bar>, d: int): (r: seq<Bar>)
    ensures |r| <= |bars|
    ensures forall i :: 0 <= i < |r| ==> OnDay(r[i], d)
  {
    if |bars| == 0 then []
    else
      var init := DayBars(bars[..|bars| - 1], d);
      var last := bars[|bars| - 1];
      if OnDay(last, d) then init + [last] else init
  }

  /** A day's bars are exactly the input bars stamped on that day. */
  lemma {:induction false} DayBarsMembers(bars: seq<Bar>, d: int, b: Bar)
    ensures b in DayBars(bars, d) <==> b in bars && OnDay(b, d)
  {
    if |bars| > 0 {
      DayBarsMembers(bars[..|bars| - 1], d, b);
      assert bars == bars[..|bars| - 1] + [bars[|bars| - 1]];
    }
  }

  /** The bar mid-point `(high + low) / 2` rounded to its one-point bucket. */
  function MidKey(b: Bar): int
  {
    Round((b.high + b.low) / 2.0)
  }

  /** Each bar's whole volume placed at its mid-point bucket. */
  function MidEntries(bars: seq<Bar>): (r: seq<Bucket>)
    ensures |r| == |bars|
  {
    if |bars| == 0 then [] else MidEntries(bars[..|bars| - 1]) + [Bucket(MidKey(bars[|bars| - 1]), bars[|bars| - 1].volume)]
  }

  /** High, low, open, close and volume of a day's bars. */
  datatype Session = Session(high: real, low: real, open: real, close: real, volume: nat)

  function SessionOf(bars: seq<Bar>): (s: Session)
    requires |bars| > 0
    ensures forall i :: 0 <= i < |bars| ==> s.low <= bars[i].low && bars[i].high <= s.high
    ensures s.open == bars[0].open && s.close == bars[|bars| - 1].close
    ensures s.volume == VolumeSum(bars)
  {
    Session(WindowHigh(bars).value, WindowLow(bars).value, bars[0].open, bars[|bars| - 1].close, VolumeSum(bars))
  }

  /** One day's levels; `prev` is the bars of the previous date with data, if any. */
  function DayLevels(d: int, bars: seq<Bar>, prev: seq<Bar>): (dl: DailyLevels)
    requires |bars| > 0
    ensures dl.date == d && dl.onh == 0.0 && dl.onl == 0.0
    ensures dl.val <= dl.poc <= dl.vah
  {
    var s := SessionOf(bars);
    var p := if |prev| > 0 then SessionOf(prev) else s;
    var vp := VolumeProfile(MidEntries(bars));
    DailyLevels(d, bars[0].symbol, p.high, p.low, if |prev| > 0 then p.close else s.open,
                0.0, 0.0, vp.poc, vp.vah, vp.val, s.high, s.low, s.open, s.close, s.volume)
  }

  lemma DayHasBars(bars: seq<Bar>, d: int)
    requires HasDay(bars, d)
    ensures |DayBars(bars, d)| > 0
  {
    var j :| 0 <= j < |bars| && DayOf(bars[j].ts) == d;
    DayBarsMembers(bars, d, bars[j]);
  }

  /** A date with its bars and the bars of the previous date with data (none for the first). */
  datatype DayGroup = DayGroup(date: int, bars: seq<Bar>, prev: seq<Bar>)

  /** The group of the `k`-th day of `days`. */
  function GroupAt(bars: seq<Bar>, days: seq<int>, k: nat): (g: DayGroup)
    requires k < |days| && HasDay(bars, days[k])
    ensures g.date == days[k] && g.bars == DayBars(bars, days[k]) && |g.bars| > 0
    ensures g.prev == if k > 0 then DayBars(bars, days[k - 1]) else []
  {
    DayHasBars(bars, days[k]);
    DayGroup(days[k], DayBars(bars, days[k]), if k > 0 then DayBars(bars, days[k - 1]) else [])
  }

  /** The bars grouped by date, dates ascending (the `BTreeMap` of the source). */
  function DayGroups(bars: seq<Bar>): (r: seq<DayGroup>)
    ensures |r| == |BarDays(bars)|
    ensures forall k :: 0 <= k < |r| ==> r[k].date == BarDays(bars)[k] && |r[k].bars| > 0
    ensures forall k :: 0 <= k < |r| ==> r[k].bars == DayBars(bars, r[k].date)
    ensures forall k :: 0 < k < |r| ==> r[k].prev == r[k - 1].bars
    ensures |r| > 0 ==> r[0].prev == []
  {
    var days := BarDays(bars);
    seq(|days|, k requires 0 <= k < |days| => GroupAt(bars, days, k))
  }

  function GroupLevels(g: DayGroup): (dl: DailyLevels)
    requires |g.bars| > 0
    ensures dl.date == g.date && dl.onh == 0.0 && dl.onl == 0.0
    ensures dl.val <= dl.poc <= dl.vah
  {
    DayLevels(g.date, g.bars, g.prev)
  }

  /**
   `compute_daily_levels`: one entry per date with bars, in ascending date
   order, each with zero overnight levels and a value area around its POC.
   */
  function ComputeDailyLevels(bars: seq<Bar>): (r: seq<DailyLevels>)
    ensures |r| == |BarDays(bars)|
    ensures forall k :: 0 <= k < |r| ==> r[k].date == BarDays(bars)[k]
    ensures forall k :: 0 <= k < |r| ==> r[k].onh == 0.0 && r[k].onl == 0.0 && r[k].val <= r[k].poc <= r[k].vah
  {
    var g := DayGroups(bars);
    var r := seq(|g|, k requires 0 <= k < |g| => GroupLevels(g[k]));
    forall k | 0 <= k < |r|
      ensures r[k].date == BarDays(bars)[k] && r[k].onh == 0.0 && r[k].onl == 0.0 && r[k].val <= r[k].poc <= r[k].vah
    {
      var dl := GroupLevels(g[k]);
      assert r[k] == dl;
    }
    r
  }

  /** The entries' dates are exactly the bars' dates, strictly ascending; no bars, no entries. */
  lemma DailyLevelsDates(bars: seq<Bar>)
    ensures var r := ComputeDailyLevels(bars);
            forall d :: HasDay(bars, d) <==> exists k :: 0 <= k < |r| && r[k].date == d
    ensures var r := ComputeDailyLevels(bars);
            forall k, m :: 0 <= k < m < |r| ==> r[k].date < r[m].date
    ensures |bars| == 0 <==> ComputeDailyLevels(bars) == []
  {
    var r := ComputeDailyLevels(bars);
    var days := BarDays(bars);
    forall d | HasDay(bars, d) ensures exists k :: 0 <= k < |r| && r[k].date == d {
      var k :| 0 <= k < |days| && days[k] == d;
      assert r[k].date == d;
    }
    forall d | exists k :: 0 <= k < |r| && r[k].date == d ensures HasDay(bars, d) {
      var k :| 0 <= k < |r| && r[k].date == d;
      assert days[k] in days;
    }
    if |bars| > 0 {
      assert HasDay(bars, DayOf(bars[0].ts));
    }
  }

  /**
   Each day's prior-day high, low and close are the previous date's
   session high, low and close; the first date uses its own high, low and
   open.
   */
  lemma DailyLevelsChain(bars: seq<Bar>)
    ensures var r := ComputeDailyLevels(bars);
            |r| > 0 ==> r[0].pdh == r[0].sessionHigh && r[0].pdl == r[0].sessionLow && r[0].pdc == r[0].sessionOpen
    ensures var r := ComputeDailyLevels(bars);
            forall k :: 0 < k < |r| ==> r[k].pdh == r[k - 1].sessionHigh && r[k].pdl == r[k - 1].sessionLow && r[k].pdc == r[k - 1].sessionClose
  {
    var r := ComputeDailyLevels(bars);
    forall k | 0 < k < |r|
      ensures r[k].pdh == r[k - 1].sessionHigh && r[k].pdl == r[k - 1].sessionLow && r[k].pdc == r[k - 1].sessionClose
    {
      ChainAt(bars, k);
    }
    if |r| > 0 {
      var g := DayGroups(bars);
      assert r[0] == GroupLevels(g[0]);
      GroupSessions(g[0]);
    }
  }

  lemma ChainAt(bars: seq<Bar>, k: nat)
    requires 0 < k < |ComputeDailyLevels(bars)|
    ensures var r := ComputeDailyLevels(bars);
            r[k].pdh == r[k - 1].sessionHigh && r[k].pdl == r[k - 1].sessionLow && r[k].pdc == r[k - 1].sessionClose
  {
    var g := DayGroups(bars);
    var r := ComputeDailyLevels(bars);
    assert r[k] == GroupLevels(g[k]) && r[k - 1] == GroupLevels(g[k - 1]);
    GroupSessions(g[k]);
    GroupSessions(g[k - 1]);
  }

  lemma GroupSessions(g: DayGroup)
    requires |g.bars| > 0
    ensures var dl := GroupLevels(g);
            var s := SessionOf(g.bars);
            dl.sessionHigh == s.high && dl.sessionLow == s.low && dl.sessionOpen == s.open && dl.sessionClose == s.close
    ensures var dl := GroupLevels(g);
            |g.prev| > 0 ==> dl.pdh == SessionOf(g.prev).high && dl.pdl == SessionOf(g.prev).low && dl.pdc == SessionOf(g.prev).close
    ensures var dl := GroupLevels(g);
            |g.prev| == 0 ==> dl.pdh == dl.sessionHigh && dl.pdl == dl.sessionLow && dl.pdc == dl.sessionOpen
  {
  }

  // ---------------------------------------------------------------------
  // Fibonacci retracements

  function FibLevel(pdh: real, range: real, ratio: real, t: LevelType, date: int): KeyLevel
  {
    KeyLevel(pdh - range * ratio, t, date, if ratio == 0.618 then 1.0 else 0.8)
  }

  /**
   `compute_fibonacci_levels`: nothing unless the prior day's high is above
   its low; otherwise five retracements from the high, descending, inside
   the prior day's range, strongest at the golden ratio.
   */
  function ComputeFibonacciLevels(pdh: real, pdl: real, date: int): (r: seq<KeyLevel>)
    ensures pdh <= pdl <==> r == []
    ensures r != [] ==> |r| == 5
    ensures forall i :: 0 <= i < |r| ==> pdl <= r[i].price <= pdh && r[i].date == date
    ensures forall i, j :: 0 <= i < j < |r| ==> r[i].price > r[j].price
    ensures forall i :: 0 <= i < |r| ==> (r[i].strength == 1.0 <==> r[i].levelType == Fib618)
  {
    var range := pdh - pdl;
    if range <= 0.0 then []
    else
      [FibLevel(pdh, range, 0.236, Fib236, date), FibLevel(pdh, range, 0.382, Fib382, date),
       FibLevel(pdh, range, 0.5, Fib500, date), FibLevel(pdh, range, 0.618, Fib618, date),
       FibLevel(pdh, range, 0.786, Fib786, date)]
  }
}
