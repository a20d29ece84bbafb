/**
 Session statistics of one day's trades (`trading_core/daily_levels.rs`):
 high, low, open and close, and the one-point volume profile's POC and
 value area. The weekday and date-conversion helpers of that file are in
 the `Calendar` module.
 */
module DailyStats {
  import opened Base
  import opened Profile

  datatype SimpleTrade = SimpleTrade(price: real, size: nat)

  datatype Hloc = Hloc(high: real, low: real, open: real, close: real)

  function Prices(trades: seq<SimpleTrade>): (r: seq<real>)
    ensures |r| == |trades| && forall i :: 0 <= i < |r| ==> r[i] == trades[i].price
  {
    seq(|trades|, i requires 0 <= i < |trades| => trades[i].price)
  }

  function MaxOf(xs: seq<real>): (m: real)
    requires |xs| > 0
    ensures forall i :: 0 <= i < |xs| ==> xs[i] <= m
    ensures exists i :: 0 <= i < |xs| && xs[i] == m
  {
    if |xs| == 1 then xs[0] else Max(MaxOf(xs[..|xs| - 1]), xs[|xs| - 1])
  }

  function MinOf(xs: seq<real>): (m: real)
    requires |xs| > 0
    ensures forall i :: 0 <= i < |xs| ==> m <= xs[i]
    ensures exists i :: 0 <= i < |xs| && xs[i] == m
  {
    if |xs| == 1 then xs[0] else Min(MinOf(xs[..|xs| - 1]), xs[|xs| - 1])
  }

  /**
   `compute_high_low_open_close`: zeros without trades; otherwise the
   first and last prices, and the extreme prices traded.
   */
  function HighLowOpenClose(trades: seq<SimpleTrade>): (r: Hloc)
    ensures |trades| == 0 ==> r == Hloc(0.0, 0.0, 0.0, 0.0)
    ensures |trades| > 0 ==> r.open == trades[0].price && r.close == trades[|trades| - 1].price
    ensures forall i :: 0 <= i < |trades| ==> r.low <= trades[i].price <= r.high
    ensures |trades| > 0 ==> (exists i :: 0 <= i < |trades| && trades[i].price == r.high)
                             && (exists i :: 0 <= i < |trades| && trades[i].price == r.low)
  {
    if |trades| == 0 then Hloc(0.0, 0.0, 0.0, 0.0)
    else
      var ps := Prices(trades);
      Hloc(MaxOf(ps), MinOf(ps), trades[0].price, trades[|trades| - 1].price)
  }

  /** Each trade's size at its price rounded to a one-point bucket. */
  function TradeEntries(trades: seq<SimpleTrade>): (r: seq<Bucket>)
    ensures |r| == |trades|
    ensures forall i :: 0 <= i < |r| ==> r[i].key == Round(trades[i].price) && r[i].volume == trades[i].size
  {
    seq(|trades|, i requires 0 <= i < |trades| => Bucket(Round(trades[i].price), trades[i].size))
  }

  /**
   `compute_volume_profile`: zeros without trades; otherwise POC, VAH and
   VAL with val <= poc <= vah, each within half a point of a traded price
   (`TradeVolumeProfileNearTrades`).
   */
  function TradeVolumeProfile(trades: seq<SimpleTrade>): (r: ProfileLevels)
    ensures |trades| == 0 ==> r == ProfileLevels(0.0, 0.0, 0.0)
    ensures r.val <= r.poc <= r.vah
  {
    VolumeProfile(TradeEntries(trades))
  }

  /** The POC is a traded bucket, and no price bucket holds more volume. */
  lemma TradeVolumeProfilePoc(trades: seq<SimpleTrade>)
    requires |trades| > 0
    ensures exists i :: 0 <= i < |trades| && TradeVolumeProfile(trades).poc == Round(trades[i].price) as real
                        && forall x: int :: EntryVolume(TradeEntries(trades), x) <= EntryVolume(TradeEntries(trades), Round(trades[i].price))
  {
    var es := TradeEntries(trades);
    ValueAreaKeysFacts(es);
    var k := ValueAreaKeys(es).poc;
    assert IsEntryKey(es, k);
    var i :| 0 <= i < |es| && es[i].key == k;
    assert TradeVolumeProfile(trades).poc == Round(trades[i].price) as real;
  }

  /** VAL, POC and VAH each lie within half a point of some traded price. */
  lemma TradeVolumeProfileNearTrades(trades: seq<SimpleTrade>)
    requires |trades| > 0
    ensures exists i :: 0 <= i < |trades| && Abs(trades[i].price - TradeVolumeProfile(trades).val) <= 0.5
    ensures exists i :: 0 <= i < |trades| && Abs(trades[i].price - TradeVolumeProfile(trades).poc) <= 0.5
    ensures exists i :: 0 <= i < |trades| && Abs(trades[i].price - TradeVolumeProfile(trades).vah) <= 0.5
  {
    var es := TradeEntries(trades);
    VolumeProfileKeys(es);
    KeysNearTrades(trades);
  }

  /** Every bucket key that received volume is within half a point of a traded price. */
  lemma KeysNearTrades(trades: seq<SimpleTrade>)
    ensures forall k: int :: IsEntryKey(TradeEntries(trades), k) ==>
              exists i :: 0 <= i < |trades| && Abs(trades[i].price - k as real) <= 0.5
  {
    forall k: int | IsEntryKey(TradeEntries(trades), k)
      ensures exists i :: 0 <= i < |trades| && Abs(trades[i].price - k as real) <= 0.5
    {
      KeyNearTrade(trades, k);
    }
  }

  /** A bucket key that received volume is a traded price rounded to the point. */
  lemma KeyNearTrade(trades: seq<SimpleTrade>, k: int)
    requires IsEntryKey(TradeEntries(trades), k)
    ensures exists i :: 0 <= i < |trades| && Abs(trades[i].price - k as real) <= 0.5
  {
    var es := TradeEntries(trades);
    var i :| 0 <= i < |es| && es[i].key == k;
    assert k == Round(trades[i].price);
  }
}
