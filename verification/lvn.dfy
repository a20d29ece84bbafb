/**
 Low-volume nodes (`pipeline/lvn.rs`): price buckets whose traded volume is
 far below the average bucket of a volume profile, taken either from the
 trades inside one impulse leg or from a whole session of bars.

 The pipeline's own `impulse` module is not part of this model; its leg
 and direction types are those of the `trading_core` copy (module `Impulse`).
 */
module Lvn {
  import opened Base
  import opened Market
  import opened Profile
  import opened Impulse
  import opened Sorting

  const BucketSize: real := 0.5
  /** A bucket is a node when its volume is under 15% of the average bucket. */
  const ThresholdRatio: real := 0.15
  /** The whole-session profile uses one and a half times that ratio. */
  const FullProfileThreshold: real := 0.225

  /** `price_to_bucket`: the nearest half-point step (the `i64` range is not modelled). */
  function PriceToBucket(p: real): (b: int)
    ensures Abs(BucketToPrice(b) - p) <= 0.25
  {
    Round(p / BucketSize)
  }

  function BucketToPrice(b: int): real
  {
    b as real * BucketSize
  }

  /** A bucket's own price maps back to that bucket. */
  lemma BucketRoundTrip(b: int)
    ensures PriceToBucket(BucketToPrice(b)) == b
  {
    assert BucketToPrice(b) / BucketSize == b as real;
  }

  /** Prices that land in the same bucket are less than a bucket apart. */
  lemma SameBucketClose(p: real, q: real)
    requires PriceToBucket(p) == PriceToBucket(q)
    ensures Abs(p - q) <= BucketSize
  {
    var b := PriceToBucket(p);
    assert Abs(BucketToPrice(b) - p) <= 0.25 && Abs(BucketToPrice(b) - q) <= 0.25;
  }

  datatype LvnLevel = LvnLevel(
    impulseId: nat,
    price: real, volume: nat, avgVolume: real, volumeRatio: real,
    startTime: int, endTime: int,
    direction: ImpulseDirection,
    date: int, symbol: string)

  /** What an extraction copies into each of its nodes; `id` 0 is the nil UUID. */
  datatype Origin = Origin(id: nat, startTime: int, endTime: int, direction: ImpulseDirection, date: int, symbol: string)

  function LegOrigin(leg: ImpulseLeg): Origin
  {
    Origin(leg.id, leg.startTime, leg.endTime, leg.direction, leg.date, leg.symbol)
  }

  predicate FromOrigin(l: LvnLevel, o: Origin)
  {
    l.impulseId == o.id && l.startTime == o.startTime && l.endTime == o.endTime
    && l.date == o.date && l.symbol == o.symbol
  }

  function Price(l: LvnLevel): real { l.price }

  /**
   `volume / avg < threshold`, cross-multiplied. With a zero average the
   source divides by zero and the NaN comparison is false; so is this one.
   */
  predicate IsLow(volume: nat, avg: real, threshold: real)
  {
    volume as real < threshold * avg
  }

  lemma IsLowIsRatio(volume: nat, avg: real, threshold: real)
    requires avg > 0.0
    ensures IsLow(volume, avg, threshold) <==> volume as real / avg < threshold
  {
    assert volume as real / avg * avg == volume as real;
    if volume as real / avg < threshold {
      assert volume as real / avg * avg < threshold * avg;
    }
  }

  /** The node a bucket yields; with `vwap` present the direction is taken from it. */
  function LevelOf(b: Bucket, avg: real, o: Origin, vwap: Option<real>): (l: LvnLevel)
    ensures FromOrigin(l, o) && l.price == BucketToPrice(b.key) && l.volume == b.volume && l.avgVolume == avg
  {
    var price := BucketToPrice(b.key);
    var dir := match vwap
      case None => o.direction
      case Some(v) => if price > v then Down else Up;
    LvnLevel(o.id, price, b.volume, avg, if avg > 0.0 then b.volume as real / avg else 0.0,
             o.startTime, o.endTime, dir, o.date, o.symbol)
  }

  /** The nodes of a profile's buckets, one per low bucket, in bucket order. */
  function EmitLevels(h: Histogram, avg: real, threshold: real, o: Origin, vwap: Option<real>): (r: seq<LvnLevel>)
    ensures forall l :: l in r ==> exists i :: 0 <= i < |h| && l == LevelOf(h[i], avg, o, vwap) && IsLow(h[i].volume, avg, threshold)
    ensures forall i :: 0 <= i < |h| && IsLow(h[i].volume, avg, threshold) ==> LevelOf(h[i], avg, o, vwap) in r
  {
    if |h| == 0 then []
    else
      var rest := EmitLevels(h[1..], avg, threshold, o, vwap);
      assert forall l :: l in rest ==> exists i :: 0 <= i < |h| && l == LevelOf(h[i], avg, o, vwap) && IsLow(h[i].volume, avg, threshold) by {
        forall l | l in rest ensures exists i :: 0 <= i < |h| && l == LevelOf(h[i], avg, o, vwap) && IsLow(h[i].volume, avg, threshold) {
          var j :| 0 <= j < |h[1..]| && l == LevelOf(h[1..][j], avg, o, vwap) && IsLow(h[1..][j].volume, avg, threshold);
          assert h[1..][j] == h[j + 1];
        }
      }
      assert forall i :: 1 <= i < |h| ==> h[i] == h[1..][i - 1];
      if IsLow(h[0].volume, avg, threshold) then [LevelOf(h[0], avg, o, vwap)] + rest else rest
  }

  /** Mean bucket volume of a non-empty profile. */
  function Average(h: Histogram): real
    requires |h| > 0
  {
    Total(h) as real / |h| as real
  }

  // ---------------------------------------------------------------------
  // Impulse-leg profiles

  predicate InWindow(t: Trade, start: int, end: int)
  {
    start <= t.ts <= end
  }

  /** The trades stamped inside `[start, end]`, in their order. */
  function WindowTrades(trades: seq<Trade>, start: int, end: int): (r: seq<Trade>)
    ensures forall t :: t in r <==> t in trades && InWindow(t, start, end)
  {
    if |trades| == 0 then []
    else
      var rest := WindowTrades(trades[1..], start, end);
      assert forall t :: t in trades <==> t == trades[0] || t in trades[1..];
      if InWindow(trades[0], start, end) then [trades[0]] + rest else rest
  }

  /** Each trade's size as a contribution to its price bucket. */
  function TradeEntries(trades: seq<Trade>): (r: seq<Bucket>)
    ensures |r| == |trades|
    ensures forall i :: 0 <= i < |r| ==> r[i].key == PriceToBucket(trades[i].price) && r[i].volume == trades[i].size
  {
    seq(|trades|, i requires 0 <= i < |trades| => Bucket(PriceToBucket(trades[i].price), trades[i].size))
  }

  /** Volume traded at prices that round to bucket `k`. */
  function BucketVolume(trades: seq<Trade>, k: int): nat
  {
    EntryVolume(TradeEntries(trades), k)
  }

  function TradeProfile(trades: seq<Trade>): Histogram
  {
    Build(TradeEntries(trades))
  }

  /** The nodes of one time window's trade profile, in bucket order. */
  function ForWindow(trades: seq<Trade>, o: Origin, threshold: real): (r: seq<LvnLevel>)
    ensures |WindowTrades(trades, o.startTime, o.endTime)| == 0 ==> r == []
    ensures forall l :: l in r ==> FromOrigin(l, o) && l.direction == o.direction
    ensures forall l :: l in r ==> IsLow(l.volume, l.avgVolume, threshold)
  {
    var ws := WindowTrades(trades, o.startTime, o.endTime);
    if |ws| == 0 then []
    else
      var h := TradeProfile(ws);
      EmitLevels(h, Average(h), threshold, o, None)
  }

  /**
   Every node of a window is a bucket of the window's trades holding all of
   their volume at that price, and every low bucket becomes a node.
   */
  lemma {:induction false} ForWindowBuckets(trades: seq<Trade>, o: Origin, threshold: real)
    requires |WindowTrades(trades, o.startTime, o.endTime)| > 0
    ensures var ws := WindowTrades(trades, o.startTime, o.endTime);
            forall l :: l in ForWindow(trades, o, threshold) ==>
              exists t :: t in ws && l.price == BucketToPrice(PriceToBucket(t.price)) && l.volume == BucketVolume(ws, PriceToBucket(t.price))
    ensures var ws := WindowTrades(trades, o.startTime, o.endTime);
            var avg := Average(TradeProfile(ws));
            forall t :: t in ws && IsLow(BucketVolume(ws, PriceToBucket(t.price)), avg, threshold) ==>
              exists l :: l in ForWindow(trades, o, threshold) && l.price == BucketToPrice(PriceToBucket(t.price))
  {
    var ws := WindowTrades(trades, o.startTime, o.endTime);
    var es := TradeEntries(ws);
    var h := TradeProfile(ws);
    var avg := Average(h);
    BuildVolumes(es);
    var r := ForWindow(trades, o, threshold);
    forall l | l in r
      ensures exists t :: t in ws && l.price == BucketToPrice(PriceToBucket(t.price)) && l.volume == BucketVolume(ws, PriceToBucket(t.price))
    {
      var i :| 0 <= i < |h| && l == LevelOf(h[i], avg, o, None) && IsLow(h[i].volume, avg, threshold);
      assert h[i].key in Keys(h);
      var j :| 0 <= j < |es| && es[j].key == h[i].key;
      VolumeAtIndex(h, i);
      assert ws[j] in ws;
    }
    forall t | t in ws && IsLow(BucketVolume(ws, PriceToBucket(t.price)), avg, threshold)
      ensures exists l :: l in r && l.price == BucketToPrice(PriceToBucket(t.price))
    {
      var j :| 0 <= j < |ws| && ws[j] == t;
      var k := PriceToBucket(t.price);
      assert es[j].key == k;
      assert k in Keys(h);
      var i :| 0 <= i < |h| && h[i].key == k;
      VolumeAtIndex(h, i);
      assert LevelOf(h[i], avg, o, None) in r;
    }
  }

  function ConcatLevels(trades: seq<Trade>, legs: seq<ImpulseLeg>, threshold: real): (r: seq<LvnLevel>)
    ensures forall l :: l in r ==> IsLow(l.volume, l.avgVolume, threshold)
    ensures forall l :: l in r ==> exists j :: 0 <= j < |legs| && FromOrigin(l, LegOrigin(legs[j])) && l.direction == legs[j].direction
  {
    if |legs| == 0 then []
    else
      var init := ConcatLevels(trades, legs[..|legs| - 1], threshold);
      var last := ForWindow(trades, LegOrigin(legs[|legs| - 1]), threshold);
      assert forall l :: l in init + last <==> l in init || l in last;
      assert forall j :: 0 <= j < |legs| - 1 ==> legs[..|legs| - 1][j] == legs[j];
      init + last
  }

  /**
   `extract_lvns`: the nodes of every leg's own trade profile, each carrying
   its leg's identity, ordered by price.
   */
  function ExtractLvns(trades: seq<Trade>, legs: seq<ImpulseLeg>): (r: seq<LvnLevel>)
    ensures SortedBy(r, Price)
    ensures multiset(r) == multiset(ConcatLevels(trades, legs, ThresholdRatio))
    ensures forall l :: l in r ==> IsLow(l.volume, l.avgVolume, ThresholdRatio)
    ensures forall l :: l in r ==> exists j :: 0 <= j < |legs| && FromOrigin(l, LegOrigin(legs[j])) && l.direction == legs[j].direction
  {
    var all := ConcatLevels(trades, legs, ThresholdRatio);
    var r := SortBy(all, Price);
    forall l | l in r ensures l in all {
      SortByMembers(all, Price, l);
    }
    r
  }

  /**
   `extract_lvns_realtime`: the nodes of the trades in `[start, end]`,
   dated by the window's start, ordered by price; none without trades.
   */
  function ExtractLvnsRealtime(trades: seq<Trade>, id: nat, start: int, end: int, dir: ImpulseDirection, symbol: string): (r: seq<LvnLevel>)
    ensures SortedBy(r, Price)
    ensures |WindowTrades(trades, start, end)| == 0 ==> r == []
    ensures forall l :: l in r ==> FromOrigin(l, Origin(id, start, end, dir, DayOf(start), symbol)) && l.direction == dir
    ensures forall l :: l in r ==> IsLow(l.volume, l.avgVolume, ThresholdRatio)
  {
    var o := Origin(id, start, end, dir, DayOf(start), symbol);
    var all := ForWindow(trades, o, ThresholdRatio);
    var r := SortBy(all, Price);
    forall l | l in r ensures l in all {
      SortByMembers(all, Price, l);
    }
    r
  }

  // ---------------------------------------------------------------------
  // Whole-session profile

  /** Typical price (high + low + close) / 3. */
  function TypicalPrice(b: Bar): real
  {
    (b.high + b.low + b.close) / 3.0
  }

  function PriceVolume(bars: seq<Bar>): real
  {
    if |bars| == 0 then 0.0 else PriceVolume(bars[..|bars| - 1]) + TypicalPrice(bars[|bars| - 1]) * bars[|bars| - 1].volume as real
  }

  /** `calculate_simple_vwap`: 0 without bars, the last close without volume. */
  function SimpleVwap(bars: seq<Bar>): (v: real)
    ensures |bars| == 0 ==> v == 0.0
    ensures |bars| > 0 && VolumeSum(bars) == 0 ==> v == bars[|bars| - 1].close
  {
    if |bars| == 0 then 0.0
    else if VolumeSum(bars) == 0 then bars[|bars| - 1].close
    else PriceVolume(bars) / VolumeSum(bars) as real
  }

  lemma MulMono(a: real, b: real, v: real)
    requires a <= b && v >= 0.0
    ensures a * v <= b * v
  {}

  lemma {:induction false} PriceVolumeBounds(bars: seq<Bar>, lo: real, hi: real)
    requires forall i :: 0 <= i < |bars| ==> lo <= TypicalPrice(bars[i]) <= hi
    ensures lo * VolumeSum(bars) as real <= PriceVolume(bars) <= hi * VolumeSum(bars) as real
  {
    if |bars| > 0 {
      var init := bars[..|bars| - 1];
      var b := bars[|bars| - 1];
      PriceVolumeBounds(init, lo, hi);
      assert TypicalPrice(b) == TypicalPrice(bars[|bars| - 1]);
      BoundsStep(PriceVolume(init), VolumeSum(init) as real, TypicalPrice(b), b.volume as real, lo, hi);
    }
  }

  /** One more bar keeps the price-volume sum between the bounds times the volume. */
  lemma BoundsStep(p: real, s: real, t: real, v: real, lo: real, hi: real)
    requires lo * s <= p <= hi * s && lo <= t <= hi && v >= 0.0
    ensures lo * (s + v) <= p + t * v <= hi * (s + v)
  {
    MulMono(lo, t, v);
    MulMono(t, hi, v);
  }

  lemma DivBounds(p: real, v: real, lo: real, hi: real)
    requires v > 0.0 && lo * v <= p <= hi * v
    ensures lo <= p / v <= hi
  {
    assert p / v * v == p;
    if p / v < lo {
      MulMono(p / v, lo, v);
    }
    if p / v > hi {
      MulMono(hi, p / v, v);
    }
  }

  /** With traded volume, the VWAP lies between the lowest and highest typical price. */
  lemma SimpleVwapBounds(bars: seq<Bar>, lo: real, hi: real)
    requires VolumeSum(bars) > 0
    requires forall i :: 0 <= i < |bars| ==> lo <= TypicalPrice(bars[i]) <= hi
    ensures lo <= SimpleVwap(bars) <= hi
  {
    PriceVolumeBounds(bars, lo, hi);
    DivBounds(PriceVolume(bars), VolumeSum(bars) as real, lo, hi);
  }

  /**
   Whether a bar at Eastern hour `hour` and `minute` is in the session:
   9..16 means 9:30 to 16:00, any other pair is whole hours.
   */
  predicate InSession(hour: nat, minute: nat, minHour: nat, maxHour: nat)
  {
    if minHour == 9 && maxHour == 16 then (hour > 9 || (hour == 9 && minute >= 30)) && hour < 16
    else minHour <= hour < maxHour
  }

  /** A bar's volume split over open, high, low and close; the open also gets the remainder. */
  function BarEntries(b: Bar): (r: seq<Bucket>)
    ensures |r| == 4 && EntrySum(r) == b.volume
  {
    var q := b.volume / 4;
    var r := [Bucket(PriceToBucket(b.open), q + b.volume % 4), Bucket(PriceToBucket(b.high), q),
              Bucket(PriceToBucket(b.low), q), Bucket(PriceToBucket(b.close), q)];
    assert r[..3][..2][..1] == [r[0]] && r[..3][..2] == r[..2] && r[..3] == r[..|r| - 1];
    assert EntrySum(r[..1]) == q + b.volume % 4;
    assert EntrySum(r[..2]) == 2 * q + b.volume % 4;
    assert EntrySum(r[..3]) == 3 * q + b.volume % 4;
    r
  }

  /** Contributions of the bars whose Eastern time `clock` gives is in session. */
  function SessionEntries(bars: seq<Bar>, clock: int -> (nat, nat), minHour: nat, maxHour: nat): (r: seq<Bucket>)
    ensures EntrySum(r) == SessionVolume(bars, clock, minHour, maxHour)
  {
    if |bars| == 0 then []
    else
      var init := SessionEntries(bars[..|bars| - 1], clock, minHour, maxHour);
      var b := bars[|bars| - 1];
      var (hour, minute) := clock(b.ts);
      if InSession(hour, minute, minHour, maxHour) then
        EntrySumAppend(init, BarEntries(b));
        init + BarEntries(b)
      else init
  }

  /** Volume of the in-session bars. */
  function SessionVolume(bars: seq<Bar>, clock: int -> (nat, nat), minHour: nat, maxHour: nat): nat
  {
    if |bars| == 0 then 0
    else
      var b := bars[|bars| - 1];
      SessionVolume(bars[..|bars| - 1], clock, minHour, maxHour)
      + (if InSession(clock(b.ts).0, clock(b.ts).1, minHour, maxHour) then b.volume else 0)
  }

  lemma {:induction false} EntrySumAppend(a: seq<Bucket>, b: seq<Bucket>)
    ensures EntrySum(a + b) == EntrySum(a) + EntrySum(b)
  {
    if |b| == 0 {
      assert a + b == a;
    } else {
      assert (a + b)[..|a + b| - 1] == a + b[..|b| - 1];
      EntrySumAppend(a, b[..|b| - 1]);
    }
  }

  /**
   `extract_lvns_from_full_profile`: the session's bar profile, nodes under
   22.5% of the average bucket, each pointing away from the VWAP of all
   bars (above it a node is resistance, direction down), ordered by price.
   */
  function ExtractLvnsFromFullProfile(bars: seq<Bar>, clock: int -> (nat, nat), minHour: nat, maxHour: nat): (r: seq<LvnLevel>)
    ensures |bars| == 0 ==> r == []
    ensures SortedBy(r, Price)
    ensures forall l :: l in r ==> IsLow(l.volume, l.avgVolume, FullProfileThreshold)
    ensures forall l :: l in r ==> FromOrigin(l, Origin(0, bars[0].ts, bars[|bars| - 1].ts, Up, DayOf(bars[0].ts), bars[0].symbol))
    ensures forall l :: l in r ==> (l.direction == Down <==> l.price > SimpleVwap(bars))
  {
    if |bars| == 0 then []
    else
      var es := SessionEntries(bars, clock, minHour, maxHour);
      if |es| == 0 then []
      else
        var h := Build(es);
        var o := Origin(0, bars[0].ts, bars[|bars| - 1].ts, Up, DayOf(bars[0].ts), bars[0].symbol);
        var all := EmitLevels(h, Average(h), FullProfileThreshold, o, Some(SimpleVwap(bars)));
        var r := SortBy(all, Price);
        forall l | l in r ensures l in all {
          SortByMembers(all, Price, l);
        }
        r
  }

  /** The session profile holds exactly the volume of the in-session bars. */
  lemma SessionProfileTotal(bars: seq<Bar>, clock: int -> (nat, nat), minHour: nat, maxHour: nat)
    ensures Total(Build(SessionEntries(bars, clock, minHour, maxHour))) == SessionVolume(bars, clock, minHour, maxHour)
  {
    BuildVolumes(SessionEntries(bars, clock, minHour, maxHour));
  }

  /** `extract_lvns_from_rth_profile`: the 9:30 to 16:00 session. */
  function ExtractLvnsFromRthProfile(bars: seq<Bar>, clock: int -> (nat, nat)): (r: seq<LvnLevel>)
    ensures forall l :: l in r ==> IsLow(l.volume, l.avgVolume, FullProfileThreshold)
    ensures SortedBy(r, Price)
  {
    ExtractLvnsFromFullProfile(bars, clock, 9, 16)
  }
}
