/**
 The "smart" LVN retest strategy (`pipeline/smart_lvn.rs`): a fast impulse
 out of balance leaves a thin spot; the first retest of that spot with
 delta in the impulse's direction is entered at the bar's close and
 managed with a trailing stop, an optional target and an end-of-day exit.
 `RealLvnBacktest` trades precomputed LVNs the same way.

 The New York wall clock is a parameter `et` giving a timestamp's hour and
 minute there.

 The pipeline's own `impulse` and `market_state` modules are not part of
 this model; the `trading_core` copies (modules `Impulse` and
 `MarketRegime`) stand in for them.
 */
module SmartLvn {
  import opened Base
  import opened Market
  import opened Impulse
  import opened Lvn
  import opened Profile
  import opened Ranking
  import opened Stats
  import MarketRegime

  datatype SmartLvnConfig = SmartLvnConfig(
    maxTradesPerDay: nat, minDeltaConfirmation: int, minImpulseSize: real, maxImpulseBars: nat,
    levelTolerance: real, trailingStop: real, takeProfit: real, stopBuffer: real,
    startHour: nat, endHour: nat)

  /** The defaults: 5 trades a day, 30 delta, a 25-point impulse within 120 bars, 4-point trail, 20-point target, 9:30 to 15:00. */
  const DefaultConfig := SmartLvnConfig(5, 30, 25.0, 120, 2.0, 4.0, 20.0, 2.0, 9, 15)

  datatype ValidImpulse = ValidImpulse(
    startIdx: nat, endIdx: nat, startPrice: real, endPrice: real,
    direction: ImpulseDirection, lvnPrice: real, impulseDelta: int)

  datatype ExitReason = TakeProfit | TrailingStop | EndOfDay

  /** A trade; `entryIdx` is the entry bar's index, kept beside its time. */
  datatype SmartTrade = SmartTrade(
    entryIdx: nat, entryTime: int, exitTime: int, entryPrice: real, exitPrice: real,
    direction: ImpulseDirection, pnlPoints: real, lvnPrice: real, entryDelta: int, exitReason: ExitReason)

  datatype DayData = DayData(bars: seq<Bar>, lvns: seq<LvnLevel>)

  // ---------------------------------------------------------------------
  // Impulses

  /** The highest high of bars `s` to `e`. */
  function RangeHigh(bars: seq<Bar>, s: nat, e: nat): (h: real)
    requires s <= e < |bars|
    ensures forall k :: s <= k <= e ==> bars[k].high <= h
    ensures exists k :: s <= k <= e && bars[k].high == h
    decreases e - s
  {
    if e == s then bars[s].high else Max(RangeHigh(bars, s, e - 1), bars[e].high)
  }

  /** The lowest low of bars `s` to `e`. */
  function RangeLow(bars: seq<Bar>, s: nat, e: nat): (l: real)
    requires s <= e < |bars|
    ensures forall k :: s <= k <= e ==> l <= bars[k].low
    ensures exists k :: s <= k <= e && bars[k].low == l
    decreases e - s
  {
    if e == s then bars[s].low else Min(RangeLow(bars, s, e - 1), bars[e].low)
  }

  function UpMove(bars: seq<Bar>, s: nat, e: nat): real
    requires s <= e < |bars|
  {
    RangeHigh(bars, s, e) - bars[s].open
  }

  function DownMove(bars: seq<Bar>, s: nat, e: nat): real
    requires s <= e < |bars|
  {
    bars[s].open - RangeLow(bars, s, e)
  }

  /** An up impulse: the move up is large enough and more than twice the move down. */
  predicate UpAt(c: SmartLvnConfig, bars: seq<Bar>, s: nat, e: nat)
    requires s <= e < |bars|
  {
    UpMove(bars, s, e) >= c.minImpulseSize && UpMove(bars, s, e) > DownMove(bars, s, e) * 2.0
  }

  predicate DownAt(c: SmartLvnConfig, bars: seq<Bar>, s: nat, e: nat)
    requires s <= e < |bars|
  {
    DownMove(bars, s, e) >= c.minImpulseSize && DownMove(bars, s, e) > UpMove(bars, s, e) * 2.0
  }

  /** The best LVN of the impulse, or the 38.2% retracement from the start when there is none. */
  function LvnOrFallback(bars: seq<Bar>, s: nat, e: nat, d: ImpulseDirection): real
    requires s <= e < |bars|
  {
    match FindBestLvnInImpulse(bars, s, e)
    case Some(p) => p
    case None => if d == Up then bars[s].open + UpMove(bars, s, e) * 0.382 else bars[s].open - DownMove(bars, s, e) * 0.382
  }

  function ImpulseAt(bars: seq<Bar>, s: nat, e: nat, d: ImpulseDirection): (imp: ValidImpulse)
    requires s <= e < |bars|
  {
    ValidImpulse(s, e, bars[s].open, if d == Up then RangeHigh(bars, s, e) else RangeLow(bars, s, e), d,
                 LvnOrFallback(bars, s, e, d), MarketRegime.DeltaSum(bars[s..e + 1]))
  }

  /** The scan of `find_impulse_from` over impulse lengths `len` up to `limit`: the end index and direction found. */
  function ScanImpulse(c: SmartLvnConfig, bars: seq<Bar>, s: nat, len: nat, limit: nat): (r: Option<(nat, ImpulseDirection)>)
    requires 1 <= len && s + limit <= |bars|
    ensures r.Some? ==> s + len - 1 <= r.value.0 < s + limit
                        && (r.value.1 == Up <==> UpAt(c, bars, s, r.value.0))
                        && (r.value.1 == Down ==> DownAt(c, bars, s, r.value.0))
                        && forall e :: s + len - 1 <= e < r.value.0 ==> !UpAt(c, bars, s, e) && !DownAt(c, bars, s, e)
    ensures r.None? ==> forall e :: s + len - 1 <= e < s + limit ==> !UpAt(c, bars, s, e) && !DownAt(c, bars, s, e)
    decreases limit + 1 - len
  {
    if len > limit then None
    else
      var e := s + len - 1;
      if UpAt(c, bars, s, e) then Some((e, Up))
      else if DownAt(c, bars, s, e) then Some((e, Down))
      else
        var r := ScanImpulse(c, bars, s, len + 1, limit);
        NoImpulseExtend(c, bars, s, e, if r.Some? then r.value.0 else s + limit);
        r
  }

  /** A move that is no impulse at `a` and at no end after it below `b` is no impulse at any end from `a` below `b`. */
  lemma NoImpulseExtend(c: SmartLvnConfig, bars: seq<Bar>, s: nat, a: nat, b: nat)
    requires s <= a < |bars| && b <= |bars| && !UpAt(c, bars, s, a) && !DownAt(c, bars, s, a)
    requires forall e :: a + 1 <= e < b ==> !UpAt(c, bars, s, e) && !DownAt(c, bars, s, e)
    ensures forall e :: a <= e < b ==> !UpAt(c, bars, s, e) && !DownAt(c, bars, s, e)
  {
  }

  /**
   `find_impulse_from`: the first end index, within `max_impulse_bars`
   bars of the start, at which the move is an impulse; up is tested
   first. The impulse ends at the extreme reached, its LVN is the best
   one inside it (or the 38.2% retracement) and it carries the delta of
   its bars.
   */
  function FindImpulseFrom(c: SmartLvnConfig, bars: seq<Bar>, s: nat): (r: Option<ValidImpulse>)
    requires s < |bars|
    ensures r.Some? ==> var imp := r.value;
              imp.startIdx == s && s <= imp.endIdx < s + c.maxImpulseBars && imp.endIdx < |bars|
              && imp.startPrice == bars[s].open
              && (imp.direction == Up <==> UpAt(c, bars, s, imp.endIdx))
              && (imp.direction == Up ==> imp.endPrice == RangeHigh(bars, s, imp.endIdx))
              && (imp.direction == Down ==> DownAt(c, bars, s, imp.endIdx) && imp.endPrice == RangeLow(bars, s, imp.endIdx))
              && imp.lvnPrice == LvnOrFallback(bars, s, imp.endIdx, imp.direction)
              && forall e :: s <= e < imp.endIdx ==> !UpAt(c, bars, s, e) && !DownAt(c, bars, s, e)
    ensures r.None? <==> forall e :: s <= e < s + MinNat(c.maxImpulseBars, |bars| - s) ==> !UpAt(c, bars, s, e) && !DownAt(c, bars, s, e)
  {
    match ScanImpulse(c, bars, s, 1, MinNat(c.maxImpulseBars, |bars| - s))
    case None => None
    case Some((e, d)) => Some(ImpulseAt(bars, s, e, d))
  }

  /** The session test of the impulse and retest scans: from half past the start hour to the end hour. */
  predicate InSession(c: SmartLvnConfig, hour: nat, minute: nat)
  {
    (hour > c.startHour || (hour == c.startHour && minute >= 30)) && hour < c.endHour
  }

  /**
   `detect_valid_impulses` from bar `i`: outside the session a bar is
   skipped; an impulse found from a bar is kept and the scan resumes after
   its end.
   */
  function DetectFrom(c: SmartLvnConfig, et: int -> (nat, nat), bars: seq<Bar>, i: nat): (r: seq<ValidImpulse>)
    requires c.maxImpulseBars <= |bars|
    ensures Chained(r, i, |bars|)
    decreases |bars| - i
  {
    if i >= |bars| - c.maxImpulseBars then []
    else if !InSession(c, et(bars[i].ts).0, et(bars[i].ts).1) then DetectFrom(c, et, bars, i + 1)
    else
      match FindImpulseFrom(c, bars, i)
      case None => DetectFrom(c, et, bars, i + 1)
      case Some(imp) =>
        var rest := DetectFrom(c, et, bars, imp.endIdx + 1);
        ChainCons(imp, rest, i, |bars|);
        [imp] + rest
  }

  /** Impulses in order, each inside the bars from `i` on and ending before the next starts. */
  predicate Chained(r: seq<ValidImpulse>, i: nat, n: nat)
  {
    (forall k :: 0 <= k < |r| ==> i <= r[k].startIdx <= r[k].endIdx < n)
    && forall k :: 0 <= k < |r| - 1 ==> r[k].endIdx < r[k + 1].startIdx
  }

  lemma ChainCons(imp: ValidImpulse, rest: seq<ValidImpulse>, i: nat, n: nat)
    requires i <= imp.startIdx <= imp.endIdx < n && Chained(rest, imp.endIdx + 1, n)
    ensures Chained([imp] + rest, i, n)
  {
    var r := [imp] + rest;
    forall k | 0 <= k < |r| - 1 ensures r[k].endIdx < r[k + 1].startIdx {
      assert r[k + 1] == rest[k];
      if k > 0 {
        assert r[k] == rest[k - 1];
      }
    }
  }

  /** `detect_valid_impulses`: none when there are fewer bars than the impulse window. */
  function DetectValidImpulses(c: SmartLvnConfig, et: int -> (nat, nat), bars: seq<Bar>): (r: seq<ValidImpulse>)
    ensures |bars| < c.maxImpulseBars ==> r == []
    ensures forall k :: 0 <= k < |r| ==> r[k].startIdx <= r[k].endIdx < |bars|
    ensures forall k :: 0 <= k < |r| - 1 ==> r[k].endIdx < r[k + 1].startIdx
  {
    if |bars| < c.maxImpulseBars then [] else DetectFrom(c, et, bars, 0)
  }

  /** The market state before an impulse: assumed balanced without a full lookback of history. */
  function StateBefore(bars: seq<Bar>, imp: ValidImpulse): MarketRegime.MarketState
    requires imp.startIdx <= imp.endIdx < |bars|
  {
    var ms := MarketRegime.DefaultConfig;
    if imp.startIdx >= ms.lookbackBars && imp.startIdx >= 1 then MarketRegime.DetectMarketState(bars, imp.startIdx - 1, ms).state
    else MarketRegime.Balanced
  }

  /**
   `is_state_transition_impulse`: the market is imbalanced after the
   impulse, and either it was balanced before or the impulse's delta
   exceeds 100 in size.
   */
  predicate IsStateTransition(bars: seq<Bar>, imp: ValidImpulse)
    requires imp.startIdx <= imp.endIdx < |bars|
  {
    var after := MarketRegime.DetectMarketState(bars, imp.endIdx, MarketRegime.DefaultConfig).state;
    (StateBefore(bars, imp) == MarketRegime.Balanced && after == MarketRegime.Imbalanced)
    || (after == MarketRegime.Imbalanced && IntAbs(imp.impulseDelta) > 100)
  }

  // ---------------------------------------------------------------------
  // The best LVN inside an impulse

  /** The bucket of a bar's close: two-point buckets, rounded. */
  function CloseBucket(b: Bar): Bucket
  {
    Bucket(Round(b.close / 2.0), b.volume)
  }

  /** The volume profile of bars `s` to `e` by close bucket. */
  function ImpulseProfile(bars: seq<Bar>, s: nat, e: nat): Histogram
    requires s <= e < |bars|
  {
    Build(Map(bars[s..e + 1], CloseBucket))
  }

  function BucketPrice(b: Bucket): real
  {
    b.key as real * 2.0
  }

  function AverageVolume(h: Histogram): real
  {
    if |h| == 0 then 0.0 else Total(h) as real / |h| as real
  }

  /** A heavy bucket: volume above half the average. */
  predicate Heavy(h: Histogram, b: Bucket)
  {
    b.volume as real > AverageVolume(h) * 0.5
  }

  /**
   A bucket that can be the impulse's LVN, in the profile `h` of an
   impulse ranging from `lo` to `hi`: its price lies in the middle 60% of
   the range, its volume is at most 30% of the average bucket, and there
   is a heavy bucket more than a bucket above it and another more than a
   bucket below it. (With no volume at all, the source's ratio is not a
   number; no bucket is heavy then, so none qualifies either way.)
   */
  predicate Eligible(h: Histogram, lo: real, hi: real, b: Bucket)
  {
    var range := hi - lo;
    var avg := AverageVolume(h);
    lo + range * 0.2 <= BucketPrice(b) <= hi - range * 0.2
    && avg > 0.0 && b.volume as real / avg <= 0.30
    && (exists j :: 0 <= j < |h| && BucketPrice(h[j]) > BucketPrice(b) + 2.0 && Heavy(h, h[j]))
    && (exists j :: 0 <= j < |h| && BucketPrice(h[j]) < BucketPrice(b) - 2.0 && Heavy(h, h[j]))
  }

  /** How thin a bucket is: its share of the average (lower is thinner). */
  function Thinness(h: Histogram, b: Bucket): real
  {
    var avg := AverageVolume(h);
    if avg > 0.0 then b.volume as real / avg else 0.0
  }

  /** The first of the `n` first buckets satisfying `ok` with the least `thin`. */
  function ThinnestIn(h: Histogram, ok: Bucket -> bool, thin: Bucket -> real, n: nat): (r: Option<nat>)
    requires n <= |h|
    ensures r.Some? ==> r.value < n && ok(h[r.value])
    ensures r.Some? ==> forall j :: 0 <= j < n && ok(h[j]) ==> thin(h[r.value]) <= thin(h[j])
    ensures r.Some? ==> forall j :: 0 <= j < r.value && ok(h[j]) ==> thin(h[r.value]) < thin(h[j])
    ensures r.None? <==> forall j :: 0 <= j < n ==> !ok(h[j])
  {
    if n == 0 then None
    else
      var p := ThinnestIn(h, ok, thin, n - 1);
      if !ok(h[n - 1]) then p
      else if p.None? || thin(h[n - 1]) < thin(h[p.value]) then Some(n - 1)
      else p
  }

  /** The impulse's span is wide enough to look for an LVN in: five buckets and ten points. */
  predicate Searchable(bars: seq<Bar>, s: nat, e: nat)
    requires s <= e < |bars|
  {
    |ImpulseProfile(bars, s, e)| >= 5 && RangeHigh(bars, s, e) - RangeLow(bars, s, e) >= 10.0
  }

  /**
   `find_best_lvn_in_impulse`: nothing for an empty or out-of-range span,
   fewer than five buckets or a range under 10 points; otherwise the
   price of the thinnest eligible bucket, and nothing when no bucket is
   eligible. Buckets are visited in price order, so among equally thin
   buckets the lowest is taken (the source leaves this tie to hash order).
   */
  function FindBestLvnInImpulse(bars: seq<Bar>, s: nat, e: nat): (r: Option<real>)
    ensures e <= s || e >= |bars| ==> r.None?
    ensures r.Some? ==> s < e < |bars| && Searchable(bars, s, e)
    ensures s < e < |bars| ==>
              var h := ImpulseProfile(bars, s, e);
              var lo := RangeLow(bars, s, e);
              var hi := RangeHigh(bars, s, e);
              (r.Some? ==> exists i :: 0 <= i < |h| && ThinnestAt(h, lo, hi, i) && r.value == BucketPrice(h[i]))
              && (Searchable(bars, s, e) && r.None? ==> NoneEligible(h, lo, hi))
  {
    if e <= s || e >= |bars| then None
    else if !Searchable(bars, s, e) then None
    else
      var h := ImpulseProfile(bars, s, e);
      var lo := RangeLow(bars, s, e);
      var hi := RangeHigh(bars, s, e);
      match ThinnestEligible(h, lo, hi)
      case None => None
      case Some(i) => assert ThinnestAt(h, lo, hi, i); Some(BucketPrice(h[i]))
  }

  /** Bucket `i` is eligible and no eligible bucket is thinner. */
  predicate ThinnestAt(h: Histogram, lo: real, hi: real, i: nat)
    requires i < |h|
  {
    Eligible(h, lo, hi, h[i]) && forall j :: 0 <= j < |h| && Eligible(h, lo, hi, h[j]) ==> Thinness(h, h[i]) <= Thinness(h, h[j])
  }

  predicate NoneEligible(h: Histogram, lo: real, hi: real)
  {
    forall j :: 0 <= j < |h| ==> !Eligible(h, lo, hi, h[j])
  }

  /** The index of the thinnest eligible bucket, the first among equals; none when no bucket is eligible. */
  function ThinnestEligible(h: Histogram, lo: real, hi: real): (r: Option<nat>)
    ensures r.Some? ==> r.value < |h| && ThinnestAt(h, lo, hi, r.value)
    ensures r.None? <==> NoneEligible(h, lo, hi)
  {
    ThinnestIn(h, b => Eligible(h, lo, hi, b), b => Thinness(h, b), |h|)
  }

  // ---------------------------------------------------------------------
  // Exits

  /** Where the exit walk ended, with the extreme and stop it had. */
  datatype ExitWalk = ExitWalk(idx: nat, price: real, reason: ExitReason, best: real, stop: real)

  /** A new favourable extreme for the direction. */
  predicate Beyond(d: ImpulseDirection, b: Bar, best: real)
  {
    if d == Up then b.high > best else b.low < best
  }

  function Extreme(d: ImpulseDirection, b: Bar): real
  {
    if d == Up then b.high else b.low
  }

  /** The target is in use and the bar reaches it. */
  predicate TargetReached(c: SmartLvnConfig, d: ImpulseDirection, b: Bar, entry: real)
  {
    c.takeProfit > 0.0 && (if d == Up then b.high >= entry + c.takeProfit else b.low <= entry - c.takeProfit)
  }

  predicate StopReached(d: ImpulseDirection, b: Bar, stop: real)
  {
    if d == Up then b.low <= stop else b.high >= stop
  }

  function TargetPrice(c: SmartLvnConfig, d: ImpulseDirection, entry: real): real
  {
    if d == Up then entry + c.takeProfit else entry - c.takeProfit
  }

  /**
   The loop of `simulate_exit` from bar `i`: a bar at or after 16:00 New
   York ends the day at its close; a new extreme moves the stop to the
   trailing distance from it (and only then); the target, when in use, is
   checked before the stop. With no bars left the trade ends at the last close.
   */
  function WalkExit(c: SmartLvnConfig, et: int -> (nat, nat), bars: seq<Bar>, i: nat, d: ImpulseDirection,
                    entry: real, best: real, stop: real): (r: ExitWalk)
    requires |bars| > 0
    ensures r.idx < |bars| && (r.idx >= i || r.idx == |bars| - 1)
    ensures (r.stop == stop && r.best == best) || (r.stop == (if d == Up then r.best - c.trailingStop else r.best + c.trailingStop)
                               && (if d == Up then r.best > best else r.best < best))
    ensures r.reason == TakeProfit ==> r.idx >= i && TargetReached(c, d, bars[r.idx], entry) && r.price == TargetPrice(c, d, entry)
    ensures r.reason == TrailingStop ==> r.idx >= i && r.price == r.stop && StopReached(d, bars[r.idx], r.stop)
                                         && !TargetReached(c, d, bars[r.idx], entry)
    ensures r.reason == EndOfDay ==> r.price == bars[r.idx].close && (r.idx == |bars| - 1 || et(bars[r.idx].ts).0 >= 16)
    decreases |bars| - i
  {
    if i >= |bars| then ExitWalk(|bars| - 1, bars[|bars| - 1].close, EndOfDay, best, stop)
    else
      var b := bars[i];
      if et(b.ts).0 >= 16 then ExitWalk(i, b.close, EndOfDay, best, stop)
      else
        var best2 := if Beyond(d, b, best) then Extreme(d, b) else best;
        var stop2 := if Beyond(d, b, best) then (if d == Up then best2 - c.trailingStop else best2 + c.trailingStop) else stop;
        if TargetReached(c, d, b, entry) then ExitWalk(i, TargetPrice(c, d, entry), TakeProfit, best2, stop2)
        else if StopReached(d, b, stop2) then ExitWalk(i, stop2, TrailingStop, best2, stop2)
        else WalkExit(c, et, bars, i + 1, d, entry, best2, stop2)
  }

  /** `simulate_exit`: the stop starts the buffer beyond the LVN, and the walk starts on the bar after the entry. */
  function SimulateExit(c: SmartLvnConfig, et: int -> (nat, nat), bars: seq<Bar>, entryIdx: nat, entry: real,
                        d: ImpulseDirection, lvn: real): (r: ExitWalk)
    requires entryIdx < |bars|
    ensures r.idx < |bars|
    ensures r.reason == TakeProfit ==> c.takeProfit > 0.0 && r.price == TargetPrice(c, d, entry) && r.idx > entryIdx
                                       && Points(d, entry, r.price) == c.takeProfit
    ensures r.reason == TrailingStop ==> r.idx > entryIdx && StopReached(d, bars[r.idx], r.price)
    ensures r.reason == EndOfDay ==> r.price == bars[r.idx].close
  {
    var stop := if d == Up then lvn - c.stopBuffer else lvn + c.stopBuffer;
    WalkExit(c, et, bars, entryIdx + 1, d, entry, entry, stop)
  }

  /** The P&L of a trade: exit minus entry for an up impulse, the reverse for a down one. */
  function Points(d: ImpulseDirection, entry: real, exit: real): real
  {
    if d == Up then exit - entry else entry - exit
  }

  // ---------------------------------------------------------------------
  // Retests

  /** The bar's range reaches within the tolerance of the level. */
  predicate AtLevel(c: SmartLvnConfig, b: Bar, level: real)
  {
    b.low <= level + c.levelTolerance && b.high >= level - c.levelTolerance
  }

  /** Delta of the confirming size in the impulse's direction. */
  predicate DeltaConfirms(c: SmartLvnConfig, d: ImpulseDirection, b: Bar)
  {
    if d == Up then b.delta >= c.minDeltaConfirmation else b.delta <= -c.minDeltaConfirmation
  }

  /** The trade entered at bar `i`'s close. */
  function TradeAt(c: SmartLvnConfig, et: int -> (nat, nat), bars: seq<Bar>, i: nat, d: ImpulseDirection, lvn: real): (t: SmartTrade)
    requires i < |bars|
    ensures t.entryIdx == i && t.entryPrice == bars[i].close && t.direction == d && t.lvnPrice == lvn
    ensures t.pnlPoints == Points(d, t.entryPrice, t.exitPrice)
  {
    var b := bars[i];
    var x := SimulateExit(c, et, bars, i, b.close, d, lvn);
    SmartTrade(i, b.ts, bars[x.idx].ts, b.close, x.price, d, Points(d, b.close, x.price), lvn, b.delta, x.reason)
  }

  /**
   `find_retest_trade` from bar `i` (below `maxSearch`): the search gives
   up at the end hour; otherwise the first bar at the level with
   confirming delta is entered.
   */
  function FindRetestFrom(c: SmartLvnConfig, et: int -> (nat, nat), bars: seq<Bar>, d: ImpulseDirection, lvn: real,
                          i: nat, maxSearch: nat): (r: Option<SmartTrade>)
    requires maxSearch <= |bars|
    ensures r.Some? ==> i <= r.value.entryIdx < maxSearch
                        && AtLevel(c, bars[r.value.entryIdx], lvn) && DeltaConfirms(c, d, bars[r.value.entryIdx])
                        && r.value == TradeAt(c, et, bars, r.value.entryIdx, d, lvn)
                        && forall k :: i <= k <= r.value.entryIdx ==> et(bars[k].ts).0 < c.endHour
    decreases maxSearch - i
  {
    if i >= maxSearch then None
    else
      var b := bars[i];
      if et(b.ts).0 >= c.endHour then None
      else if AtLevel(c, b, lvn) && DeltaConfirms(c, d, b) then Some(TradeAt(c, et, bars, i, d, lvn))
      else FindRetestFrom(c, et, bars, d, lvn, i + 1, maxSearch)
  }

  /** `find_retest_trade`: searches at most 3600 bars from the start. */
  function FindRetestTrade(c: SmartLvnConfig, et: int -> (nat, nat), bars: seq<Bar>, imp: ValidImpulse, start: nat): (r: Option<SmartTrade>)
    ensures r.Some? ==> start <= r.value.entryIdx < start + 3600 && r.value.entryIdx < |bars|
                        && r.value.direction == imp.direction && r.value.lvnPrice == imp.lvnPrice
  {
    FindRetestFrom(c, et, bars, imp.direction, imp.lvnPrice, start, MinNat(start + 3600, |bars|))
  }

  /** The first bar at or after a time, or the number of bars when there is none. */
  function FirstAtOrAfter(bars: seq<Bar>, t: int): (k: nat)
    ensures k <= |bars| && (k < |bars| ==> bars[k].ts >= t)
    ensures forall j :: 0 <= j < k ==> bars[j].ts < t
  {
    if |bars| == 0 then 0
    else if bars[0].ts >= t then 0
    else 1 + FirstAtOrAfter(bars[1..], t)
  }

  /** The first-touch bucket of an LVN: its price in quarter points, truncated. */
  function LvnBucket(price: real): int
  {
    Trunc(price * 4.0)
  }

  datatype DayState = DayState(used: set<int>, count: nat, inPositionUntil: nat, trades: seq<SmartTrade>)

  /**
   `trade_day` over the impulses from the `k`-th: it stops once the day's
   limit is reached, skips an impulse whose LVN bucket was already traded,
   and searches from after the impulse but not before the previous exit's
   bar plus one.
   */
  function TradeDayFrom(c: SmartLvnConfig, et: int -> (nat, nat), bars: seq<Bar>, imps: seq<ValidImpulse>, k: nat, st: DayState): (r: DayState)
    requires st.count == |st.trades|
    ensures r.count == |r.trades| && |st.trades| <= |r.trades|
    ensures r.trades[..|st.trades|] == st.trades
    ensures |st.trades| <= c.maxTradesPerDay ==> |r.trades| <= c.maxTradesPerDay
    ensures st.used <= r.used
    decreases |imps| - k
  {
    if k >= |imps| || st.count >= c.maxTradesPerDay then st
    else
      var a := AfterImpulse(c, et, bars, imps[k], st);
      var r := TradeDayFrom(c, et, bars, imps, k + 1, a);
      assert r.trades[..|st.trades|] == r.trades[..|a.trades|][..|st.trades|];
      r
  }

  /**
   One impulse of the day: skipped when its LVN bucket was already traded
   or no retest entry is found from the later of the bar after the impulse
   and the end of the current position; otherwise its trade is taken.
   */
  function AfterImpulse(c: SmartLvnConfig, et: int -> (nat, nat), bars: seq<Bar>, imp: ValidImpulse, st: DayState): (r: DayState)
    requires st.count == |st.trades|
    ensures r == st || (LvnBucket(imp.lvnPrice) !in st.used && |r.trades| == |st.trades| + 1
                        && var t := r.trades[|st.trades|];
                           t.lvnPrice == imp.lvnPrice && t.direction == imp.direction
                           && imp.endIdx < t.entryIdx && st.inPositionUntil <= t.entryIdx && r == Entered(bars, st, t))
    ensures r.count == |r.trades| && |st.trades| <= |r.trades| <= |st.trades| + 1 && st.used <= r.used
    ensures r.trades[..|st.trades|] == st.trades
  {
    var bucket := LvnBucket(imp.lvnPrice);
    if bucket in st.used then st
    else
      var start := if imp.endIdx + 1 >= st.inPositionUntil then imp.endIdx + 1 else st.inPositionUntil;
      match FindRetestTrade(c, et, bars, imp, start)
      case None => st
      case Some(t) =>
        var r := Entered(bars, st, t);
        assert r.trades[|st.trades|] == t && r.trades[..|st.trades|] == st.trades;
        r
  }

  /** The day's trades: buckets distinct, each entered after the previous exit's bar, at most the daily limit. */
  predicate DayOrdered(bars: seq<Bar>, st: DayState)
  {
    (forall i, j :: 0 <= i < j < |st.trades| ==> LvnBucket(st.trades[i].lvnPrice) != LvnBucket(st.trades[j].lvnPrice))
    && (forall i :: 0 <= i < |st.trades| ==> LvnBucket(st.trades[i].lvnPrice) in st.used)
    && (forall i :: 0 <= i < |st.trades| - 1 ==> FirstAtOrAfter(bars, st.trades[i].exitTime) + 1 <= st.trades[i + 1].entryIdx)
    && (|st.trades| > 0 ==> st.inPositionUntil == FirstAtOrAfter(bars, st.trades[|st.trades| - 1].exitTime) + 1)
  }

  /** The day's state once trade `t` is taken: its bucket is used and the position is held until the bar after its exit. */
  function Entered(bars: seq<Bar>, st: DayState, t: SmartTrade): (r: DayState)
    ensures r.count == st.count + 1 && r.trades == st.trades + [t] && LvnBucket(t.lvnPrice) in r.used
  {
    DayState(st.used + {LvnBucket(t.lvnPrice)}, st.count + 1, FirstAtOrAfter(bars, t.exitTime) + 1, st.trades + [t])
  }

  /** Taking a trade at a fresh bucket, entered no earlier than the position allows, keeps the day ordered. */
  lemma DayOrderedExtend(bars: seq<Bar>, st: DayState, t: SmartTrade)
    requires DayOrdered(bars, st) && LvnBucket(t.lvnPrice) !in st.used && st.inPositionUntil <= t.entryIdx
    ensures DayOrdered(bars, Entered(bars, st, t))
  {
    var next := Entered(bars, st, t);
    assert next.trades[|st.trades|] == t;
    forall i, j | 0 <= i < j < |next.trades|
      ensures LvnBucket(next.trades[i].lvnPrice) != LvnBucket(next.trades[j].lvnPrice)
    {
      if j == |st.trades| {
        assert next.trades[i] == st.trades[i];
      } else {
        assert next.trades[i] == st.trades[i] && next.trades[j] == st.trades[j];
      }
    }
  }

  lemma {:induction false} TradeDayOrdered(c: SmartLvnConfig, et: int -> (nat, nat), bars: seq<Bar>, imps: seq<ValidImpulse>, k: nat, st: DayState)
    requires st.count == |st.trades| && DayOrdered(bars, st)
    ensures DayOrdered(bars, TradeDayFrom(c, et, bars, imps, k, st))
    decreases |imps| - k
  {
    if k < |imps| && st.count < c.maxTradesPerDay {
      AfterImpulseOrdered(c, et, bars, imps[k], st);
      TradeDayOrdered(c, et, bars, imps, k + 1, AfterImpulse(c, et, bars, imps[k], st));
    }
  }

  /** Handling one impulse keeps the day ordered. */
  lemma AfterImpulseOrdered(c: SmartLvnConfig, et: int -> (nat, nat), bars: seq<Bar>, imp: ValidImpulse, st: DayState)
    requires st.count == |st.trades| && DayOrdered(bars, st)
    ensures DayOrdered(bars, AfterImpulse(c, et, bars, imp, st))
  {
    var r := AfterImpulse(c, et, bars, imp, st);
    if r != st {
      DayOrderedExtend(bars, st, r.trades[|st.trades|]);
    }
  }

  function TradeDay(c: SmartLvnConfig, et: int -> (nat, nat), bars: seq<Bar>, imps: seq<ValidImpulse>): (ts: seq<SmartTrade>)
    ensures |ts| <= c.maxTradesPerDay
  {
    TradeDayFrom(c, et, bars, imps, 0, DayState({}, 0, 0, [])).trades
  }

  /**
   `trade_day` trades each LVN bucket at most once, and each trade enters
   at or after the bar following the previous trade's exit.
   */
  lemma TradeDayFirstTouch(c: SmartLvnConfig, et: int -> (nat, nat), bars: seq<Bar>, imps: seq<ValidImpulse>)
    ensures var ts := TradeDay(c, et, bars, imps);
            (forall i, j :: 0 <= i < j < |ts| ==> LvnBucket(ts[i].lvnPrice) != LvnBucket(ts[j].lvnPrice))
            && forall i :: 0 <= i < |ts| - 1 ==> FirstAtOrAfter(bars, ts[i].exitTime) + 1 <= ts[i + 1].entryIdx
  {
    var st0 := DayState({}, 0, 0, []);
    assert DayOrdered(bars, st0);
    TradeDayOrdered(c, et, bars, imps, 0, st0);
    var r := TradeDayFrom(c, et, bars, imps, 0, st0);
    assert DayOrdered(bars, r);
    assert TradeDay(c, et, bars, imps) == r.trades;
  }

  // ---------------------------------------------------------------------
  // Results

  datatype BacktestResult = BacktestResult(
    totalDays: nat, totalImpulses: nat, validImpulses: nat, totalTrades: nat, wins: nat, losses: nat,
    winRate: real, profitFactor: Ratio, avgWin: real, avgLoss: real, netPnl: real,
    grossProfit: real, grossLoss: real, trades: seq<SmartTrade>)

  function PnlOf(ts: seq<SmartTrade>): (ps: seq<real>)
    ensures |ps| == |ts| && forall k :: 0 <= k < |ts| ==> ps[k] == ts[k].pnlPoints
  {
    if |ts| == 0 then [] else PnlOf(ts[..|ts| - 1]) + [ts[|ts| - 1].pnlPoints]
  }

  /** Winners and losers never outnumber the trades: a flat trade is neither. */
  lemma {:induction false} WinnersLosersCount(ps: seq<real>)
    ensures |Winners(ps)| + |Losers(ps)| <= |ps|
  {
    if |ps| > 0 {
      WinnersLosersCount(ps[..|ps| - 1]);
    }
  }

  /** A total spread over `n` trades, or 0 for none. */
  function AverageOver(total: real, n: nat): (r: real)
    ensures n == 0 ==> r == 0.0
    ensures n > 0 ==> r * n as real == total
    ensures total >= 0.0 ==> r >= 0.0
  {
    if n > 0 then total / n as real else 0.0
  }

  /** The profit factor of `compute_results`: infinite exactly when there is no gross loss. */
  function ProfitFactorOf(gp: real, gl: real): (r: Ratio)
    ensures r == Infinite <==> gl <= 0.0
    ensures r.Finite? ==> r.r * gl == gp
  {
    if gl > 0.0 then Finite(gp / gl) else Infinite
  }

  /**
   `compute_results`: wins are trades with positive P&L and losses those
   with negative P&L; the win rate is 0 for no trades; the profit factor
   is gross profit over gross loss, and infinite whenever there is no
   gross loss, so also for a run without trades; the average loss is a
   positive size.
   */
  function ComputeResults(ts: seq<SmartTrade>, impulses: nat, valid: nat, days: nat): (r: BacktestResult)
    ensures r.totalTrades == |ts| && r.wins + r.losses <= r.totalTrades
    ensures r.wins == |Winners(PnlOf(ts))| && r.losses == |Losers(PnlOf(ts))|
    ensures |ts| == 0 ==> r.winRate == 0.0 && r.profitFactor == Infinite
    ensures r.profitFactor == Infinite <==> r.grossLoss == 0.0
    ensures r.netPnl == r.grossProfit - r.grossLoss && r.grossLoss >= 0.0 && r.avgLoss >= 0.0
    ensures r.netPnl == Sum(PnlOf(ts))
  {
    var ps := PnlOf(ts);
    var w := |Winners(ps)|;
    var l := |Losers(ps)|;
    WinnersLosersCount(ps);
    NetIsGrossDifference(ps);
    var gp := GrossProfit(ps);
    var gl := GrossLoss(ps);
    BacktestResult(days, impulses, valid, |ts|, w, l, WinRatePercent(w, |ts|), ProfitFactorOf(gp, gl),
                   AverageOver(gp, w), AverageOver(gl, l), Sum(ps), gp, gl, ts)
  }

  // ---------------------------------------------------------------------
  // The runs

  /** The most trades `n` days can hold at `m` a day. */
  function Cap(m: nat, n: nat): nat
  {
    if n == 0 then 0 else m + Cap(m, n - 1)
  }

  lemma {:induction false} CapIsProduct(m: nat, n: nat)
    ensures Cap(m, n) == m * n
  {
    if n > 0 {
      CapIsProduct(m, n - 1);
      assert m * n == m + m * (n - 1);
    }
  }

  /** The impulses that move the market out of balance, in order. */
  function StateTransitions(bars: seq<Bar>, imps: seq<ValidImpulse>): (r: seq<ValidImpulse>)
    ensures |r| <= |imps|
    ensures forall k :: 0 <= k < |r| ==> r[k] in imps && r[k].startIdx <= r[k].endIdx < |bars| && IsStateTransition(bars, r[k])
  {
    if |imps| == 0 then []
    else
      var imp := imps[0];
      var rest := StateTransitions(bars, imps[1..]);
      if imp.startIdx <= imp.endIdx < |bars| && IsStateTransition(bars, imp) then [imp] + rest else rest
  }

  /** One day of `SmartLvnBacktest::run`: the impulses, the state-transition ones among them, and their trades. */
  function RunDay(c: SmartLvnConfig, et: int -> (nat, nat), bars: seq<Bar>): (r: (nat, nat, seq<SmartTrade>))
    ensures r.1 <= r.0 && |r.2| <= c.maxTradesPerDay
  {
    var imps := DetectValidImpulses(c, et, bars);
    var valid := StateTransitions(bars, imps);
    (|imps|, |valid|, TradeDay(c, et, bars, valid))
  }

  /** The impulse counts and trades of all days, in order; days without bars count nothing. */
  function RunDays(c: SmartLvnConfig, et: int -> (nat, nat), days: seq<DayData>): (r: (nat, nat, seq<SmartTrade>))
    ensures r.1 <= r.0 && |r.2| <= Cap(c.maxTradesPerDay, |days|)
  {
    SumDays(seq(|days|, i requires 0 <= i < |days| => DayTotals(c, et, days[i])), c.maxTradesPerDay)
  }

  /** The per-day totals summed, each day's trades after the earlier days'. */
  function SumDays(ds: seq<(nat, nat, seq<SmartTrade>)>, m: nat): (r: (nat, nat, seq<SmartTrade>))
    requires forall i :: 0 <= i < |ds| ==> ds[i].1 <= ds[i].0 && |ds[i].2| <= m
    ensures r.1 <= r.0 && |r.2| <= Cap(m, |ds|)
  {
    if |ds| == 0 then (0, 0, [])
    else AddDay(ds[0], SumDays(ds[1..], m), m, |ds| - 1)
  }

  /** One day's impulse count, valid-impulse count and trades; a day without bars counts nothing. */
  function DayTotals(c: SmartLvnConfig, et: int -> (nat, nat), d: DayData): (r: (nat, nat, seq<SmartTrade>))
    ensures r.1 <= r.0 && |r.2| <= c.maxTradesPerDay
    ensures |d.bars| == 0 ==> r == (0, 0, [])
  {
    if |d.bars| == 0 then (0, 0, []) else RunDay(c, et, d.bars)
  }

  /** One day's totals added to those of the `n` later days: the per-day trade bound carries over to `n + 1` days. */
  function AddDay(day: (nat, nat, seq<SmartTrade>), rest: (nat, nat, seq<SmartTrade>), m: nat, n: nat): (r: (nat, nat, seq<SmartTrade>))
    requires day.1 <= day.0 && |day.2| <= m && rest.1 <= rest.0 && |rest.2| <= Cap(m, n)
    ensures r.0 == day.0 + rest.0 && r.1 == day.1 + rest.1 && r.2 == day.2 + rest.2
    ensures r.1 <= r.0 && |r.2| <= Cap(m, n + 1)
  {
    (day.0 + rest.0, day.1 + rest.1, day.2 + rest.2)
  }

  /** `SmartLvnBacktest::run`: at most the daily limit of trades per day. */
  function Run(c: SmartLvnConfig, et: int -> (nat, nat), days: seq<DayData>): (r: BacktestResult)
    ensures r.totalDays == |days| && r.totalTrades <= c.maxTradesPerDay * |days|
    ensures r.validImpulses <= r.totalImpulses
  {
    var (imps, valid, ts) := RunDays(c, et, days);
    CapIsProduct(c.maxTradesPerDay, |days|);
    ComputeResults(ts, imps, valid, |days|)
  }

  /** The first bar later than a time, or the number of bars when there is none. */
  function FirstAfter(bars: seq<Bar>, t: int): (k: nat)
    ensures k <= |bars| && (k < |bars| ==> bars[k].ts > t)
    ensures forall j :: 0 <= j < k ==> bars[j].ts <= t
  {
    if |bars| == 0 then 0
    else if bars[0].ts > t then 0
    else 1 + FirstAfter(bars[1..], t)
  }

  /** Where `RealLvnBacktest` searches from: the first bar after the LVN's impulse, 0 when there is none. */
  function RealSearchStart(bars: seq<Bar>, t: int): (k: nat)
    ensures k < |bars| || k == 0
    ensures k > 0 ==> k == FirstAfter(bars, t)
  {
    var p := FirstAfter(bars, t);
    if p < |bars| then p else 0
  }

  /**
   `find_real_lvn_retest` from bar `i`: bars outside the session are
   passed over (the search does not end there), and the first bar at the
   level with confirming delta is entered.
   */
  function FindRealRetestFrom(c: SmartLvnConfig, et: int -> (nat, nat), bars: seq<Bar>, d: ImpulseDirection, lvn: real,
                              i: nat, maxSearch: nat): (r: Option<SmartTrade>)
    requires maxSearch <= |bars|
    ensures r.Some? ==> i <= r.value.entryIdx < maxSearch
                        && InSession(c, et(bars[r.value.entryIdx].ts).0, et(bars[r.value.entryIdx].ts).1)
                        && AtLevel(c, bars[r.value.entryIdx], lvn) && DeltaConfirms(c, d, bars[r.value.entryIdx])
                        && r.value == TradeAt(c, et, bars, r.value.entryIdx, d, lvn)
    decreases maxSearch - i
  {
    if i >= maxSearch then None
    else
      var b := bars[i];
      if InSession(c, et(b.ts).0, et(b.ts).1) && AtLevel(c, b, lvn) && DeltaConfirms(c, d, b) then Some(TradeAt(c, et, bars, i, d, lvn))
      else FindRealRetestFrom(c, et, bars, d, lvn, i + 1, maxSearch)
  }

  /** `find_real_lvn_retest`: searches at most 7200 bars from the start, in the LVN's direction. */
  function FindRealRetest(c: SmartLvnConfig, et: int -> (nat, nat), bars: seq<Bar>, lvn: LvnLevel, start: nat): (r: Option<SmartTrade>)
    ensures r.Some? ==> start <= r.value.entryIdx < start + 7200 && r.value.entryIdx < |bars|
                        && r.value.lvnPrice == lvn.price && r.value.direction == lvn.direction
  {
    FindRealRetestFrom(c, et, bars, lvn.direction, lvn.price, start, MinNat(start + 7200, |bars|))
  }

  /** The thinness cut of `RealLvnBacktest`. */
  predicate RealThin(lvn: LvnLevel)
  {
    lvn.volumeRatio <= 0.15
  }

  /** A trade at some thin LVN of the day that has a bar after its impulse's end. */
  predicate AtThinLvn(bars: seq<Bar>, lvns: seq<LvnLevel>, t: SmartTrade)
  {
    exists j :: 0 <= j < |lvns| && RealThin(lvns[j]) && t.lvnPrice == lvns[j].price && RealSearchStart(bars, lvns[j].endTime) > 0
  }

  /**
   `trade_day_real_lvns` from the `k`-th LVN: the day's limit ends the
   scan; an LVN that is not thin enough, whose bucket was traded, or with
   no bar after its impulse's end (or only from the first bar on) is
   skipped; otherwise a retest is searched for up to 7200 bars.
   */
  function TradeRealFrom(c: SmartLvnConfig, et: int -> (nat, nat), bars: seq<Bar>, lvns: seq<LvnLevel>, k: nat,
                         used: set<int>, trades: seq<SmartTrade>): (r: seq<SmartTrade>)
    requires |trades| <= c.maxTradesPerDay
    ensures |trades| <= |r| <= c.maxTradesPerDay && r[..|trades|] == trades
    decreases |lvns| - k
  {
    if k >= |lvns| || |trades| >= c.maxTradesPerDay then trades
    else
      match RealTradeAt(c, et, bars, lvns[k], used)
      case None => TradeRealFrom(c, et, bars, lvns, k + 1, used, trades)
      case Some(t) =>
        var r := TradeRealFrom(c, et, bars, lvns, k + 1, used + {LvnBucket(lvns[k].price)}, trades + [t]);
        assert r[..|trades|] == (trades + [t])[..|trades|];
        r
  }

  /**
   The trade one LVN of the day gives: none when it is not thin enough,
   its bucket was traded, or it has no bar after its impulse's end (or
   only from the first bar on); otherwise the retest searched for up to
   7200 bars from there.
   */
  function RealTradeAt(c: SmartLvnConfig, et: int -> (nat, nat), bars: seq<Bar>, lvn: LvnLevel, used: set<int>): (r: Option<SmartTrade>)
    ensures r.Some? ==> RealThin(lvn) && LvnBucket(lvn.price) !in used && RealSearchStart(bars, lvn.endTime) > 0
                        && r.value.lvnPrice == lvn.price && r.value.direction == lvn.direction
                        && RealSearchStart(bars, lvn.endTime) <= r.value.entryIdx < |bars|
  {
    var start := RealSearchStart(bars, lvn.endTime);
    if !RealThin(lvn) || LvnBucket(lvn.price) in used || start == 0 then None
    else FindRealRetest(c, et, bars, lvn, start)
  }

  /** The trades past `trades` in `r` are each at a thin LVN with a bar after its impulse, at a bucket not in `used`. */
  predicate AddedThin(bars: seq<Bar>, lvns: seq<LvnLevel>, used: set<int>, trades: seq<SmartTrade>, r: seq<SmartTrade>)
  {
    forall i :: |trades| <= i < |r| ==> AtThinLvn(bars, lvns, r[i]) && LvnBucket(r[i].lvnPrice) !in used
  }

  /** The trades `trade_day_real_lvns` adds are each at a thin LVN with a bar after its impulse, at a bucket not yet used. */
  lemma {:induction false} TradeRealThin(c: SmartLvnConfig, et: int -> (nat, nat), bars: seq<Bar>, lvns: seq<LvnLevel>, k: nat,
                                         used: set<int>, trades: seq<SmartTrade>)
    requires |trades| <= c.maxTradesPerDay
    ensures AddedThin(bars, lvns, used, trades, TradeRealFrom(c, et, bars, lvns, k, used, trades))
    decreases |lvns| - k
  {
    if k < |lvns| && |trades| < c.maxTradesPerDay {
      match RealTradeAt(c, et, bars, lvns[k], used)
      case None =>
        TradeRealThin(c, et, bars, lvns, k + 1, used, trades);
      case Some(t) =>
        var bucket := LvnBucket(lvns[k].price);
        var r := TradeRealFrom(c, et, bars, lvns, k + 1, used + {bucket}, trades + [t]);
        TradeRealThin(c, et, bars, lvns, k + 1, used + {bucket}, trades + [t]);
        assert AtThinLvn(bars, lvns, t) by { assert RealThin(lvns[k]) && t.lvnPrice == lvns[k].price; }
        AddedThinCons(bars, lvns, used, bucket, trades, t, r);
    }
  }

  /** A trade at a thin LVN and an unused bucket, followed by trades added past it, is added too. */
  lemma AddedThinCons(bars: seq<Bar>, lvns: seq<LvnLevel>, used: set<int>, bucket: int, trades: seq<SmartTrade>,
                      t: SmartTrade, r: seq<SmartTrade>)
    requires |trades| < |r| && r[..|trades| + 1] == trades + [t] && bucket == LvnBucket(t.lvnPrice)
    requires AtThinLvn(bars, lvns, t) && bucket !in used
    requires AddedThin(bars, lvns, used + {bucket}, trades + [t], r)
    ensures AddedThin(bars, lvns, used, trades, r)
  {
    assert r[|trades|] == (trades + [t])[|trades|];
  }

  /** `trade_day_real_lvns`: at most the daily limit of trades, each at a thin LVN with a bar after its impulse. */
  function TradeRealDay(c: SmartLvnConfig, et: int -> (nat, nat), bars: seq<Bar>, lvns: seq<LvnLevel>): (ts: seq<SmartTrade>)
    ensures |ts| <= c.maxTradesPerDay
    ensures forall i :: 0 <= i < |ts| ==> AtThinLvn(bars, lvns, ts[i])
  {
    var ts := TradeRealFrom(c, et, bars, lvns, 0, {}, []);
    TradeRealThin(c, et, bars, lvns, 0, {}, []);
    ts
  }


  function RealDays(c: SmartLvnConfig, et: int -> (nat, nat), days: seq<DayData>, k: nat): (r: (nat, seq<SmartTrade>))
    requires k <= |days|
    ensures |r.1| <= Cap(c.maxTradesPerDay, |days| - k)
    decreases |days| - k
  {
    if k == |days| then (0, [])
    else
      var rest := RealDays(c, et, days, k + 1);
      if |days[k].bars| == 0 || |days[k].lvns| == 0 then rest
      else
        var ts := TradeRealDay(c, et, days[k].bars, days[k].lvns);
        (|days[k].lvns| + rest.0, ts + rest.1)
  }

  /** `RealLvnBacktest::run`: the LVN count stands in the valid-impulse column and no impulses are counted. */
  function RunReal(c: SmartLvnConfig, et: int -> (nat, nat), days: seq<DayData>): (r: BacktestResult)
    ensures r.totalImpulses == 0 && r.totalDays == |days| && r.totalTrades <= c.maxTradesPerDay * |days|
  {
    var (lvnCount, ts) := RealDays(c, et, days, 0);
    CapIsProduct(c.maxTradesPerDay, |days|);
    ComputeResults(ts, 0, lvnCount, |days|)
  }
}
