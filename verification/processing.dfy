/**
 The live order-flow processor (`processing.rs`): cumulative delta and
 side totals, the quarter-point volume profile with its POC and value
 area, the per-window buy/sell summary behind a bubble, and the
 absorption zones with their strength grades and age-based expiry.

 The profile is a `HashMap` in the source; here it is an association list
 in insertion order, with one entry per key. Wall-clock time is a
 parameter `now` (milliseconds).
 */
module Processing {
  import opened Base

  datatype TapeTrade = TapeTrade(price: real, size: nat, side: string, timestamp: nat)

  datatype Level = Level(key: int, price: real, buyVolume: nat, sellVolume: nat, totalVolume: nat)

  type Profile = seq<Level>

  datatype State = State(cvd: int, profile: Profile, totalBuy: nat, totalSell: nat,
                         windowFirst: Option<real>, windowLast: Option<real>, buffer: seq<TapeTrade>)

  const Empty := State(0, [], 0, 0, None, None, [])

  // ---------------------------------------------------------------------
  // Profile keys and lookups
  // ---------------------------------------------------------------------

  /** Quarter-point bucket: `(price * 4).round()`. */
  function PriceKey(price: real): (k: int)
    ensures Abs(k as real / 4.0 - price) <= 0.125
  {
    Round(price * 4.0)
  }

  /** A bucket's own price maps back to the bucket. */
  lemma PriceKeyOfBucket(k: int)
    ensures PriceKey(k as real / 4.0) == k
  {
    assert k as real / 4.0 * 4.0 == k as real;
  }

  predicate UniqueKeys(p: Profile)
  {
    forall i, j :: 0 <= i < j < |p| ==> p[i].key != p[j].key
  }

  /** The invariant the processor keeps: one entry per key, a bucket's price is its key over 4, and totals split into sides. */
  predicate WellFormed(p: Profile)
  {
    UniqueKeys(p)
    && forall i :: 0 <= i < |p| ==> p[i].price == p[i].key as real / 4.0 && p[i].totalVolume == p[i].buyVolume + p[i].sellVolume
  }

  function Get(p: Profile, k: int): Option<Level>
  {
    if |p| == 0 then None else if p[0].key == k then Some(p[0]) else Get(p[1..], k)
  }

  /** A lookup finds an entry with the key, and misses only when no entry has it. */
  lemma {:induction false} GetFacts(p: Profile, k: int)
    ensures Get(p, k).Some? ==> Get(p, k).value in p && Get(p, k).value.key == k
    ensures Get(p, k).None? <==> forall i :: 0 <= i < |p| ==> p[i].key != k
  {
    if |p| > 0 && p[0].key != k {
      GetFacts(p[1..], k);
      assert forall i :: 1 <= i < |p| ==> p[i] == p[1..][i - 1];
    }
  }

  /** `get(&k).map(|l| l.total_volume).unwrap_or(0)`. */
  function VolumeAtKey(p: Profile, k: int): nat
  {
    match Get(p, k) case Some(l) => l.totalVolume case None => 0
  }

  function TotalVolume(p: Profile): nat
  {
    if |p| == 0 then 0 else p[0].totalVolume + TotalVolume(p[1..])
  }

  /** Volume of the buckets with keys in [lo, hi]. */
  function RangeVolume(p: Profile, lo: int, hi: int): (v: nat)
    ensures v <= TotalVolume(p)
  {
    if |p| == 0 then 0 else (if lo <= p[0].key <= hi then p[0].totalVolume else 0) + RangeVolume(p[1..], lo, hi)
  }

  lemma {:induction false} RangeVolumeEmpty(p: Profile, lo: int, hi: int)
    requires forall i :: 0 <= i < |p| ==> !(lo <= p[i].key <= hi)
    ensures RangeVolume(p, lo, hi) == 0
  {
    if |p| > 0 {
      RangeVolumeEmpty(p[1..], lo, hi);
    }
  }

  /** Widening the range by one key on top adds exactly that bucket's volume. */
  lemma {:induction false} RangeExtendHigh(p: Profile, lo: int, hi: int)
    requires UniqueKeys(p) && lo <= hi + 1
    ensures RangeVolume(p, lo, hi + 1) == RangeVolume(p, lo, hi) + VolumeAtKey(p, hi + 1)
  {
    if |p| > 0 {
      RangeExtendHigh(p[1..], lo, hi);
      if p[0].key == hi + 1 {
        assert Get(p[1..], hi + 1).None? by {
          forall i | 0 <= i < |p[1..]| ensures p[1..][i].key != hi + 1 {
            assert p[i + 1].key != p[0].key;
          }
          GetFacts(p[1..], hi + 1);
        }
      }
    }
  }

  /** Widening the range by one key below adds exactly that bucket's volume. */
  lemma {:induction false} RangeExtendLow(p: Profile, lo: int, hi: int)
    requires UniqueKeys(p) && lo - 1 <= hi
    ensures RangeVolume(p, lo - 1, hi) == RangeVolume(p, lo, hi) + VolumeAtKey(p, lo - 1)
  {
    if |p| > 0 {
      RangeExtendLow(p[1..], lo, hi);
      if p[0].key == lo - 1 {
        assert Get(p[1..], lo - 1).None? by {
          forall i | 0 <= i < |p[1..]| ensures p[1..][i].key != lo - 1 {
            assert p[i + 1].key != p[0].key;
          }
          GetFacts(p[1..], lo - 1);
        }
      }
    }
  }

  lemma {:induction false} RangeSingle(p: Profile, k: int)
    requires UniqueKeys(p)
    ensures RangeVolume(p, k, k) == VolumeAtKey(p, k)
  {
    RangeVolumeEmpty(p, k, k - 1);
    RangeExtendHigh(p, k, k - 1);
  }

  // ---------------------------------------------------------------------
  // add_trade
  // ---------------------------------------------------------------------

  /** The delta a trade adds to CVD: its size for "buy", minus its size for anything else. */
  function SignedSize(t: TapeTrade): int
  {
    if t.side == "buy" then t.size as int else -(t.size as int)
  }

  /** Adds a trade to an existing bucket: "buy" to the buy side, everything else to the sell side. */
  function Bump(l: Level, t: TapeTrade): Level
  {
    if t.side == "buy" then l.(buyVolume := l.buyVolume + t.size, totalVolume := l.totalVolume + t.size)
    else l.(sellVolume := l.sellVolume + t.size, totalVolume := l.totalVolume + t.size)
  }

  /**
   The bucket a first trade at a new price creates, as written: the sell
   side is filled only for "sell", so a trade of any other side that opens
   a bucket is counted in the total but on neither side.
   */
  function NewLevelAsWritten(k: int, t: TapeTrade): Level
  {
    Level(k, k as real / 4.0, if t.side == "buy" then t.size else 0, if t.side == "sell" then t.size else 0, t.size)
  }

  /** The bucket a first trade creates, classifying sides the way every other branch does. */
  function NewLevel(k: int, t: TapeTrade): (l: Level)
    ensures l.totalVolume == l.buyVolume + l.sellVolume
  {
    Level(k, k as real / 4.0, if t.side == "buy" then t.size else 0, if t.side != "buy" then t.size else 0, t.size)
  }

  /** `entry(key).and_modify(..).or_insert(..)` on the association list. */
  function Upsert(p: Profile, t: TapeTrade, entry: Level): (r: Profile)
    requires UniqueKeys(p)
    ensures |r| == |p| || |r| == |p| + 1
    ensures forall i :: 0 <= i < |p| ==> r[i] == (if p[i].key == entry.key then Bump(p[i], t) else p[i])
    ensures |r| == |p| + 1 <==> Get(p, entry.key).None?
    ensures |r| == |p| + 1 ==> r[|p|] == entry
  {
    if |p| == 0 then [entry]
    else if p[0].key == entry.key then [Bump(p[0], t)] + p[1..]
    else [p[0]] + Upsert(p[1..], t, entry)
  }

  function AddTradeWith(s: State, t: TapeTrade, entry: Level): State
    requires UniqueKeys(s.profile)
  {
    var buy := t.side == "buy";
    State(s.cvd + SignedSize(t),
          Upsert(s.profile, t, entry),
          if buy then s.totalBuy + t.size else s.totalBuy,
          if buy then s.totalSell else s.totalSell + t.size,
          if s.windowFirst.None? then Some(t.price) else s.windowFirst,
          Some(t.price),
          s.buffer + [t])
  }

  /** `add_trade` exactly as written. */
  function AddTradeAsWritten(s: State, t: TapeTrade): (r: State)
    requires UniqueKeys(s.profile)
    ensures r.cvd == s.cvd + SignedSize(t)
  {
    AddTradeWith(s, t, NewLevelAsWritten(PriceKey(t.price), t))
  }

  /** A first "Sell" (capitalised) trade opens a bucket whose total is not the sum of its sides. */
  lemma AddTradeAsWrittenSplitsWrongly()
    ensures var r := AddTradeAsWritten(Empty, TapeTrade(100.0, 5, "Sell", 0));
            |r.profile| == 1 && r.profile[0].totalVolume == 5 && r.profile[0].buyVolume + r.profile[0].sellVolume == 0
            && !WellFormed(r.profile)
  {
    var r := AddTradeAsWritten(Empty, TapeTrade(100.0, 5, "Sell", 0));
    assert r.profile == [NewLevelAsWritten(PriceKey(100.0), TapeTrade(100.0, 5, "Sell", 0))];
  }

  /** For the two sides the feeds produce, the written and the corrected bucket agree. */
  lemma NewLevelAgrees(k: int, t: TapeTrade)
    requires t.side == "buy" || t.side == "sell"
    ensures NewLevelAsWritten(k, t) == NewLevel(k, t)
  {
  }

  /**
   `add_trade`: CVD moves by the signed size, the matching side total grows,
   the window's first price is set only once and its last price always.
   */
  function AddTrade(s: State, t: TapeTrade): (r: State)
    requires UniqueKeys(s.profile)
    ensures r.cvd == s.cvd + SignedSize(t)
    ensures t.side == "buy" ==> r.totalBuy == s.totalBuy + t.size && r.totalSell == s.totalSell
    ensures t.side != "buy" ==> r.totalSell == s.totalSell + t.size && r.totalBuy == s.totalBuy
    ensures r.windowFirst == if s.windowFirst.None? then Some(t.price) else s.windowFirst
    ensures r.windowLast == Some(t.price)
    ensures r.buffer == s.buffer + [t]
  {
    AddTradeWith(s, t, NewLevel(PriceKey(t.price), t))
  }

  /** The invariant CVD = buy total − sell total survives every trade. */
  lemma AddTradeKeepsCvd(s: State, t: TapeTrade)
    requires UniqueKeys(s.profile)
    requires s.cvd == s.totalBuy - s.totalSell
    ensures var r := AddTrade(s, t); r.cvd == r.totalBuy - r.totalSell
  {
  }

  /** The profile stays well formed, and the trade's bucket grows by the trade's size. */
  lemma AddTradeKeepsProfile(s: State, t: TapeTrade)
    requires WellFormed(s.profile)
    ensures var r := AddTrade(s, t);
            WellFormed(r.profile) && VolumeAtKey(r.profile, PriceKey(t.price)) == VolumeAtKey(s.profile, PriceKey(t.price)) + t.size
            && TotalVolume(r.profile) == TotalVolume(s.profile) + t.size
  {
    var entry := NewLevel(PriceKey(t.price), t);
    UpsertWellFormed(s.profile, t, entry);
    UpsertVolumeAt(s.profile, t, entry);
    UpsertTotal(s.profile, t, entry);
  }

  /** Upserting keeps keys unique, prices on their buckets, and totals split into sides. */
  lemma UpsertWellFormed(p: Profile, t: TapeTrade, entry: Level)
    requires WellFormed(p)
    requires entry.price == entry.key as real / 4.0 && entry.totalVolume == entry.buyVolume + entry.sellVolume
    ensures WellFormed(Upsert(p, t, entry))
  {
    var r := Upsert(p, t, entry);
    assert UniqueKeys(r) by {
      GetFacts(p, entry.key);
      assert forall i :: 0 <= i < |p| ==> r[i].key == p[i].key;
    }
    assert forall i :: 0 <= i < |r| ==> r[i].price == r[i].key as real / 4.0 && r[i].totalVolume == r[i].buyVolume + r[i].sellVolume;
  }

  /** The bucket upserted into grows by exactly the trade's size. */
  lemma {:induction false} UpsertVolumeAt(p: Profile, t: TapeTrade, entry: Level)
    requires UniqueKeys(p) && entry.totalVolume == t.size
    ensures VolumeAtKey(Upsert(p, t, entry), entry.key) == VolumeAtKey(p, entry.key) + t.size
  {
    if |p| > 0 && p[0].key != entry.key {
      var r := Upsert(p, t, entry);
      assert r[1..] == Upsert(p[1..], t, entry);
      UpsertVolumeAt(p[1..], t, entry);
    }
  }

  lemma {:induction false} UpsertTotal(p: Profile, t: TapeTrade, entry: Level)
    requires UniqueKeys(p) && entry.totalVolume == t.size
    ensures TotalVolume(Upsert(p, t, entry)) == TotalVolume(p) + t.size
  {
    if |p| > 0 && p[0].key != entry.key {
      UpsertTotal(p[1..], t, entry);
    }
  }

  // ---------------------------------------------------------------------
  // POC and value area
  // ---------------------------------------------------------------------

  /** `max_by_key` on the levels: the last entry of greatest total volume. */
  function Poc(p: Profile): (r: Option<Level>)
    ensures r.None? <==> |p| == 0
    ensures r.Some? ==> r.value in p && forall i :: 0 <= i < |p| ==> p[i].totalVolume <= r.value.totalVolume
  {
    if |p| == 0 then None
    else match Poc(p[..|p| - 1])
      case None => Some(p[|p| - 1])
      case Some(best) => if p[|p| - 1].totalVolume >= best.totalVolume then Some(p[|p| - 1]) else Some(best)
  }

  /** Expansion outward from the POC: the higher side on ties, stopping at the target or when both neighbours are empty. */
  function Expand(p: Profile, lo: int, hi: int, included: nat, target: nat): (r: (int, int))
    ensures r.0 <= lo && hi <= r.1
    decreases target - included
  {
    if included >= target then (lo, hi)
    else
      var above := VolumeAtKey(p, hi + 1);
      var below := VolumeAtKey(p, lo - 1);
      if above == 0 && below == 0 then (lo, hi)
      else if above >= below then Expand(p, lo, hi + 1, included + above, target)
      else Expand(p, lo - 1, hi, included + below, target)
  }

  /** Where the expansion may stop: the range holds the target volume, or both neighbouring buckets are empty. */
  predicate Enclosed(p: Profile, lo: int, hi: int, target: nat)
  {
    RangeVolume(p, lo, hi) >= target || (VolumeAtKey(p, hi + 1) == 0 && VolumeAtKey(p, lo - 1) == 0)
  }

  /** The expansion's stopping rule, and the volume it encloses. */
  lemma {:induction false} ExpandFacts(p: Profile, lo: int, hi: int, included: nat, target: nat)
    requires UniqueKeys(p) && lo <= hi && included == RangeVolume(p, lo, hi)
    ensures var r := Expand(p, lo, hi, included, target); Enclosed(p, r.0, r.1, target)
    decreases target - included
  {
    if included < target {
      var above := VolumeAtKey(p, hi + 1);
      var below := VolumeAtKey(p, lo - 1);
      if !(above == 0 && below == 0) {
        if above >= below {
          RangeExtendHigh(p, lo, hi);
          ExpandFacts(p, lo, hi + 1, included + above, target);
        } else {
          RangeExtendLow(p, lo, hi);
          ExpandFacts(p, lo - 1, hi, included + below, target);
        }
      }
    }
  }

  /** Growing from one bucket: the bucket alone holds its own volume, so the expansion ends enclosed. */
  lemma ExpandFromBucket(p: Profile, k: int, l: Level, target: nat)
    requires UniqueKeys(p) && Get(p, k) == Some(l)
    ensures var r := Expand(p, k, k, l.totalVolume, target); Enclosed(p, r.0, r.1, target)
  {
    RangeSingle(p, k);
    ExpandFacts(p, k, k, l.totalVolume, target);
  }

  /** `(total * 0.7) as u32`: 70% of the volume, rounded down. */
  function Target(p: Profile): (t: nat)
    ensures t as real <= TotalVolume(p) as real * 0.7 < t as real + 1.0
  {
    Trunc(TotalVolume(p) as real * 0.7)
  }

  /** The POC's price maps back to its own bucket, and looking that bucket up finds the POC. */
  lemma PocLookup(p: Profile)
    requires WellFormed(p) && |p| > 0
    ensures PriceKey(Poc(p).value.price) == Poc(p).value.key
    ensures Get(p, Poc(p).value.key) == Poc(p)
  {
    var poc := Poc(p).value;
    var i :| 0 <= i < |p| && p[i] == poc;
    PriceKeyOfBucket(poc.key);
    GetUnique(p, i);
  }

  /** The value area as bucket keys (low, high), grown from the POC's bucket. */
  function ValueAreaKeys(p: Profile): (r: Option<(int, int)>)
    ensures |p| == 0 ==> r.None?
    ensures r.Some? ==> r.value.0 <= PriceKey(Poc(p).value.price) <= r.value.1
  {
    if |p| == 0 then None
    else
      var k := PriceKey(Poc(p).value.price);
      match Get(p, k)
      case None => None
      case Some(l) => Some(Expand(p, k, k, l.totalVolume, Target(p)))
  }

  /**
   `get_value_area`: None for an empty profile; otherwise (VAH, VAL) as
   bucket prices, with VAL at or below the POC and VAH at or above it.
   */
  function GetValueArea(p: Profile): (r: Option<(real, real)>)
    ensures |p| == 0 ==> r.None?
    ensures WellFormed(p) && |p| > 0 ==> r.Some? && r.value.1 <= Poc(p).value.price <= r.value.0
  {
    match ValueAreaKeys(p)
    case None =>
      assert WellFormed(p) && |p| > 0 ==> false by {
        if WellFormed(p) && |p| > 0 { PocLookup(p); }
      }
      None
    case Some((lo, hi)) =>
      assert WellFormed(p) && |p| > 0 ==> lo as real / 4.0 <= Poc(p).value.price <= hi as real / 4.0 by {
        if WellFormed(p) && |p| > 0 {
          PocLookup(p);
          var poc := Poc(p).value;
          var i :| 0 <= i < |p| && p[i] == poc;
        }
      }
      Some((hi as real / 4.0, lo as real / 4.0))
  }

  /** On a well-formed profile the value area encloses at least 70% of the volume, or can grow no further. */
  lemma ValueAreaTarget(p: Profile)
    requires WellFormed(p) && |p| > 0
    ensures ValueAreaKeys(p).Some?
    ensures var r := ValueAreaKeys(p).value; Enclosed(p, r.0, r.1, Target(p))
  {
    PocLookup(p);
    var poc := Poc(p).value;
    var t := Target(p);
    ExpandFromBucket(p, poc.key, poc, t);
    assert ValueAreaKeys(p) == Some(Expand(p, poc.key, poc.key, poc.totalVolume, t));
  }

  lemma {:induction false} GetUnique(p: Profile, i: nat)
    requires UniqueKeys(p) && i < |p|
    ensures Get(p, p[i].key) == Some(p[i])
  {
    if i > 0 {
      assert p[0].key != p[i].key;
      assert p[1..][i - 1] == p[i];
      GetUnique(p[1..], i - 1);
    }
  }

  // ---------------------------------------------------------------------
  // Bubbles
  // ---------------------------------------------------------------------

  datatype Bubble = Bubble(side: string, size: nat, delta: int, significant: bool)

  function BuyVolume(buffer: seq<TapeTrade>): nat
  {
    if |buffer| == 0 then 0 else BuyVolume(buffer[..|buffer| - 1]) + (if buffer[|buffer| - 1].side == "buy" then buffer[|buffer| - 1].size else 0)
  }

  function SellVolume(buffer: seq<TapeTrade>): nat
  {
    if |buffer| == 0 then 0 else SellVolume(buffer[..|buffer| - 1]) + (if buffer[|buffer| - 1].side != "buy" then buffer[|buffer| - 1].size else 0)
  }

  /**
   The side summary of `process_buffer`: nothing for a buffer without
   volume; otherwise the dominant side ("sell" on a tie) and its volume,
   and whether the imbalance exceeds 15% of the volume.
   */
  function Summarize(buffer: seq<TapeTrade>): (r: Option<Bubble>)
    ensures BuyVolume(buffer) + SellVolume(buffer) == 0 <==> r.None?
    ensures r.Some? ==> r.value.delta == BuyVolume(buffer) - SellVolume(buffer)
    ensures r.Some? ==> 2 * r.value.size >= BuyVolume(buffer) + SellVolume(buffer)
    ensures r.Some? ==> (r.value.side == "buy" <==> r.value.delta > 0)
    ensures r.Some? ==> (r.value.significant <==> 100 * IntAbs(r.value.delta) > 15 * (BuyVolume(buffer) + SellVolume(buffer)))
  {
    var buy := BuyVolume(buffer);
    var sell := SellVolume(buffer);
    var total := buy + sell;
    if total == 0 then None
    else
      var delta := buy - sell;
      RatioAbove(IntAbs(delta) as real, total as real);
      Some(Bubble(if delta > 0 then "buy" else "sell", if delta > 0 then buy else sell, delta,
                  IntAbs(delta) as real / total as real > 0.15))
  }

  lemma RatioAbove(a: real, t: real)
    requires t > 0.0
    ensures a / t > 0.15 <==> a > 0.15 * t
  {
    var q := a / t;
    assert q * t == a;
    if q > 0.15 {
      assert (q - 0.15) * t > 0.0;
    } else {
      assert (0.15 - q) * t >= 0.0;
    }
  }

  // ---------------------------------------------------------------------
  // Absorption zones
  // ---------------------------------------------------------------------

  function StrengthName(n: nat): (s: string)
    ensures n >= 3 ==> s == "defended"
  {
    if n == 0 then "weak" else if n == 1 then "medium" else if n == 2 then "strong" else "defended"
  }

  /**
   `calculate_strength_with_num`: a base of 0/1/2/3 for 1/2/3/more events
   (a count of 0 falls in the last arm), one point each for a key level and
   for absorbing against the trend, capped at 3 ("defended").
   */
  function CalculateStrength(eventCount: nat, atKeyLevel: bool, againstTrend: bool): (r: (string, nat))
    ensures r.1 <= 3
    ensures r.0 == StrengthName(r.1)
    ensures eventCount >= 4 || eventCount == 0 ==> r.1 == 3
    ensures 1 <= eventCount <= 3 ==> r.1 == MinNat(eventCount - 1 + (if atKeyLevel then 1 else 0) + (if againstTrend then 1 else 0), 3)
  {
    var base := if eventCount == 1 then 0 else if eventCount == 2 then 1 else if eventCount == 3 then 2 else 3;
    var total := base + (if atKeyLevel then 1 else 0) + (if againstTrend then 1 else 0);
    if total == 0 then ("weak", 0)
    else if total == 1 then ("medium", 1)
    else if total == 2 then ("strong", 2)
    else ("defended", 3)
  }

  /** More events never weaken a zone, and neither does more context. */
  lemma StrengthMonotone(c1: nat, c2: nat, k1: bool, k2: bool, a1: bool, a2: bool)
    requires 1 <= c1 <= c2
    requires k1 ==> k2
    requires a1 ==> a2
    ensures CalculateStrength(c1, k1, a1).1 <= CalculateStrength(c2, k2, a2).1
  {
  }

  datatype Zone = Zone(price: real, absorptionType: string, totalAbsorbed: int, eventCount: nat,
                       firstSeen: nat, lastSeen: nat, peakStrength: nat)

  /** Age limit for a zone by its peak strength: 5 minutes for weak or medium, 15 for strong, 30 for defended. */
  function MaxAgeMs(peak: nat): (ms: nat)
    ensures peak <= 1 ==> ms == 300000
    ensures peak == 2 ==> ms == 900000
    ensures peak >= 3 ==> ms == 1800000
  {
    if peak <= 1 then 5 * 60 * 1000 else if peak == 2 then 15 * 60 * 1000 else 30 * 60 * 1000
  }

  predicate Fresh(z: Zone, now: nat)
  {
    z.lastSeen >= SaturatingSub(now, MaxAgeMs(z.peakStrength))
  }

  /** `cleanup_old_zones`: a zone stays iff it was seen within its age limit; kept zones are unchanged. */
  function CleanupOldZones(zones: map<int, Zone>, now: nat): (r: map<int, Zone>)
    ensures forall k :: k in r <==> k in zones && Fresh(zones[k], now)
    ensures forall k :: k in r ==> r[k] == zones[k]
  {
    map k | k in zones && Fresh(zones[k], now) :: zones[k]
  }

  /** A stronger peak only lengthens a zone's life. */
  lemma StrongerZonesLiveLonger(z: Zone, now: nat, peak: nat)
    requires peak >= z.peakStrength && Fresh(z, now)
    ensures Fresh(z.(peakStrength := peak), now)
  {
  }

  /**
   One absorption event at a bucket: the zone (created empty if new) gains
   the absorbed delta and one event, is marked seen now, takes the event's
   type, and its peak strength rises to the current strength if that is
   higher. Returns the zones, the current strength and whether the event
   is reported (medium or better, or a first event at a key level).
   */
  function Absorb(zones: map<int, Zone>, key: int, price: real, kind: string, absDelta: nat, now: nat,
                  atKeyLevel: bool, againstTrend: bool): (r: (map<int, Zone>, string, bool))
    ensures key in r.0 && r.0.Keys == zones.Keys + {key}
    ensures forall k :: k in zones && k != key ==> r.0[k] == zones[k]
    ensures var z := r.0[key];
            var before := if key in zones then zones[key] else Zone(price, kind, 0, 0, now, now, 0);
            z.eventCount == before.eventCount + 1 && z.totalAbsorbed == before.totalAbsorbed + absDelta
            && z.lastSeen == now && z.absorptionType == kind && z.firstSeen == before.firstSeen
            && z.peakStrength >= before.peakStrength
            && z.peakStrength == Max(before.peakStrength as real, CalculateStrength(z.eventCount, atKeyLevel, againstTrend).1 as real) as int
    ensures r.2 <==> r.1 != "weak" || (r.0[key].eventCount == 1 && atKeyLevel)
  {
    var before := if key in zones then zones[key] else Zone(price, kind, 0, 0, now, now, 0);
    var z := before.(totalAbsorbed := before.totalAbsorbed + absDelta, eventCount := before.eventCount + 1,
                     lastSeen := now, absorptionType := kind);
    var (strength, num) := CalculateStrength(z.eventCount, atKeyLevel, againstTrend);
    var z2 := if num > z.peakStrength then z.(peakStrength := num) else z;
    (zones[key := z2], strength, strength != "weak" || (z2.eventCount == 1 && atKeyLevel))
  }

  /**
   Absorption is buying absorbed (positive delta, price up at most a tick)
   or selling absorbed (negative delta, price down at most a tick), and
   only when the delta reaches the dynamic threshold.
   */
  function AbsorptionKind(delta: int, priceChange: real, minDelta: int): (r: Option<string>)
    ensures r == Some("buying") <==> IntAbs(delta) >= minDelta && delta > 0 && priceChange <= 0.25
    ensures r == Some("selling") <==> IntAbs(delta) >= minDelta && delta < 0 && priceChange >= -0.25
  {
    if IntAbs(delta) < minDelta then None
    else if delta > 0 && priceChange <= 0.25 then Some("buying")
    else if delta < 0 && priceChange >= -0.25 then Some("selling")
    else None
  }

  /** `max(avg * 0.4, 20) as i64`. */
  function MinDeltaThreshold(avgVolume: real): (r: int)
    ensures r >= 20
  {
    Trunc(Max(avgVolume * 0.4, 20.0))
  }
}
