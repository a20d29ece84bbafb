/**
 Market data shared by every strategy: trades, one-second bars, the trades
 synthesised from a cached bar, and the bar aggregator that the live feeds
 (`trading_core/trader.rs`, `pipeline/rithmic_live.rs`,
 `pipeline/databento_ib_live.rs`, `streams/live.rs`) run over incoming
 trades.

 Timestamps are nanoseconds since the Unix epoch; `Second` is chrono's
 `timestamp()`, the floor of the time in whole seconds.
 */
module Market {
  import opened Base

  datatype Side = Buy | Sell

  datatype Direction = Long | Short

  datatype Trade = Trade(ts: int, price: real, size: nat, side: Side, symbol: string)

  datatype Bar = Bar(
    ts: int,
    open: real, high: real, low: real, close: real,
    volume: nat, buyVolume: nat, sellVolume: nat,
    delta: int, tradeCount: nat,
    symbol: string)

  const NanosPerSecond: nat := 1_000_000_000

  function Second(ts: int): int
  {
    ts / NanosPerSecond
  }

  function TradeVolume(ts: seq<Trade>): nat
  {
    if |ts| == 0 then 0 else TradeVolume(ts[..|ts| - 1]) + ts[|ts| - 1].size
  }

  // ---------------------------------------------------------------------
  // Trades synthesised from a bar (pipeline/sweep.rs, pipeline/replay_trading.rs)

  function SynthTrade(b: Bar, price: real, size: nat, side: Side): Trade
  {
    Trade(b.ts, price, size, side, b.symbol)
  }

  /**
   `synthesize_trades_from_bar`: nothing for a bar without volume; for a
   rising (or flat) bar, half the buying at the low and half at the close,
   and the selling at the high; for a falling bar the mirror image.
   */
  function SynthesizeTrades(b: Bar): (r: seq<Trade>)
    ensures b.volume == 0 ==> r == []
    ensures |r| <= 3
    ensures forall i :: 0 <= i < |r| ==> r[i].ts == b.ts && r[i].symbol == b.symbol
    ensures forall i :: 0 <= i < |r| ==> r[i].price in {b.low, b.close, b.high}
    ensures forall i :: 0 <= i < |r| && r[i].side == Buy ==> r[i].price == b.low || r[i].price == b.close
    ensures forall i :: 0 <= i < |r| && r[i].side == Sell ==> r[i].price == b.high || r[i].price == b.close
  {
    if b.volume == 0 then []
    else if b.close >= b.open then
      (if b.buyVolume > 0
       then [SynthTrade(b, b.low, b.buyVolume / 2, Buy), SynthTrade(b, b.close, b.buyVolume / 2, Buy)]
       else [])
      + (if b.sellVolume > 0 then [SynthTrade(b, b.high, b.sellVolume, Sell)] else [])
    else
      (if b.sellVolume > 0
       then [SynthTrade(b, b.high, b.sellVolume / 2, Sell), SynthTrade(b, b.close, b.sellVolume / 2, Sell)]
       else [])
      + (if b.buyVolume > 0 then [SynthTrade(b, b.low, b.buyVolume, Buy)] else [])
  }

  /** The synthesised size is the bar's buy plus sell volume, less at most one lost to integer halving. */
  lemma SynthesizedVolume(b: Bar)
    requires b.volume > 0
    ensures TradeVolume(SynthesizeTrades(b)) <= b.buyVolume + b.sellVolume
    ensures TradeVolume(SynthesizeTrades(b)) + 1 >= b.buyVolume + b.sellVolume
  {
    var r := SynthesizeTrades(b);
    var halved := if b.close >= b.open then b.buyVolume else b.sellVolume;
    var whole := if b.close >= b.open then b.sellVolume else b.buyVolume;
    var first := if halved > 0 then 2 else 0;
    assert |r| == first + (if whole > 0 then 1 else 0);
    if first == 2 {
      assert TradeVolume(r[..1]) == halved / 2;
      assert TradeVolume(r[..2]) == 2 * (halved / 2);
    }
    if whole > 0 {
      assert r[..|r| - 1] == r[..first];
      assert TradeVolume(r) == TradeVolume(r[..first]) + whole;
    } else {
      assert r == r[..first];
    }
  }

  // ---------------------------------------------------------------------
  // Aggressor side of a feed record

  /**
   Historical files (`pipeline/trades.rs`): side "B" is a buy, "A" a sell,
   anything else drops the row.
   */
  function HistoricalSide(s: string): (r: Option<Side>)
    ensures r == Some(Buy) <==> s == "B"
    ensures r == Some(Sell) <==> s == "A"
  {
    if s == "B" then Some(Buy) else if s == "A" then Some(Sell) else None
  }

  /**
   Live feeds (`streams/live.rs`, `pipeline/databento_ib_live.rs`) as
   written: 'A' or 'a' is a buy, 'B' or 'b' a sell, and any other byte
   defaults to a buy.
   */
  function LiveIsBuyAsWritten(c: char): (buy: bool)
    ensures !buy <==> c == 'B' || c == 'b'
  {
    match c
    case 'A' | 'a' => true
    case 'B' | 'b' => false
    case _ => true
  }

  /** The two readings of the same record disagree on both sides. */
  lemma AggressorMappingsDisagree()
    ensures HistoricalSide("A") == Some(Sell) && LiveIsBuyAsWritten('A')
    ensures HistoricalSide("B") == Some(Buy) && !LiveIsBuyAsWritten('B')
  {
  }

  /** The live reading made to agree with the historical one, keeping the buy default for other bytes. */
  function LiveIsBuy(c: char): (buy: bool)
    ensures !buy <==> c == 'A' || c == 'a'
  {
    match c
    case 'A' | 'a' => false
    case 'B' | 'b' => true
    case _ => true
  }

  lemma LiveAgreesWithHistorical(c: char)
    requires c == 'A' || c == 'B'
    ensures HistoricalSide([c]) == Some(if LiveIsBuy(c) then Buy else Sell)
  {
  }

  // ---------------------------------------------------------------------
  // One-second bar aggregation

  /** A bar under construction. */
  datatype Builder = Builder(
    ts: int,
    open: real, high: real, low: real, close: real,
    volume: nat, buyVolume: nat, sellVolume: nat,
    tradeCount: nat,
    symbol: string)
  {
    /** Prices stay inside [low, high], volume splits into buy and sell, and there is at least one trade. */
    ghost predicate Valid()
    {
      low <= open <= high && low <= close <= high
      && volume == buyVolume + sellVolume
      && tradeCount >= 1
    }
  }

  /** An incoming trade as the aggregators see it. */
  datatype Tick = Tick(ts: int, price: real, size: nat, isBuy: bool, symbol: string)

  function Signed(t: Tick): int
  {
    if t.isBuy then t.size as int else -(t.size as int)
  }

  function Start(t: Tick): (b: Builder)
    ensures b.Valid()
    ensures b.ts == t.ts && b.open == t.price && b.close == t.price
    ensures b.volume == t.size && b.buyVolume - b.sellVolume == Signed(t)
  {
    Builder(t.ts, t.price, t.price, t.price, t.price, t.size,
            if t.isBuy then t.size else 0, if t.isBuy then 0 else t.size, 1, t.symbol)
  }

  /** `add_trade`: extend the range, move the close, add the size to the total and to its side. */
  function AddTrade(b: Builder, t: Tick): (r: Builder)
    requires b.Valid()
    ensures r.Valid()
    ensures r.ts == b.ts && r.open == b.open && r.symbol == b.symbol
    ensures r.low <= t.price <= r.high && r.low <= b.low && b.high <= r.high
    ensures r.high == b.high || r.high == t.price
    ensures r.low == b.low || r.low == t.price
    ensures r.close == t.price
    ensures r.volume == b.volume + t.size
    ensures r.buyVolume - r.sellVolume == b.buyVolume - b.sellVolume + Signed(t)
    ensures r.tradeCount == b.tradeCount + 1
  {
    b.(high := Max(b.high, t.price), low := Min(b.low, t.price), close := t.price,
       volume := b.volume + t.size,
       buyVolume := if t.isBuy then b.buyVolume + t.size else b.buyVolume,
       sellVolume := if t.isBuy then b.sellVolume else b.sellVolume + t.size,
       tradeCount := b.tradeCount + 1)
  }

  /** `to_bar`: the delta is buy volume minus sell volume. */
  function ToBar(b: Builder): (r: Bar)
    ensures r.delta == r.buyVolume - r.sellVolume
    ensures r.volume == b.volume && r.delta == b.buyVolume - b.sellVolume
    ensures r.ts == b.ts && r.symbol == b.symbol
  {
    Bar(b.ts, b.open, b.high, b.low, b.close, b.volume, b.buyVolume, b.sellVolume,
        b.buyVolume - b.sellVolume, b.tradeCount, b.symbol)
  }

  /**
   `process_trade`: the first trade opens a bar; a trade in the same (or
   an earlier) second merges into it; a trade in a later second completes
   it and opens the next one.
   */
  function Step(cur: Option<Builder>, t: Tick): (r: (Builder, Option<Bar>))
    requires cur.Some? ==> cur.value.Valid()
    ensures r.0.Valid()
    ensures cur.None? ==> r.1.None?
    ensures r.1.Some? <==> cur.Some? && Second(t.ts) > Second(cur.value.ts)
    ensures r.1.Some? ==> r.1 == Some(ToBar(cur.value)) && r.0 == Start(t)
    ensures r.1.None? && cur.Some? ==>
              r.0.high == Max(cur.value.high, t.price) && r.0.low == Min(cur.value.low, t.price)
              && r.0.close == t.price && r.0.ts == cur.value.ts
    ensures cur.Some? ==> Second(cur.value.ts) <= Second(r.0.ts)
    ensures r.0.volume + (if r.1.Some? then r.1.value.volume else 0)
            == (if cur.Some? then cur.value.volume else 0) + t.size
  {
    match cur
    case None => (Start(t), None)
    case Some(b) =>
      if Second(t.ts) > Second(b.ts) then (Start(t), Some(ToBar(b)))
      else (AddTrade(b, t), None)
  }

  /** `flush` (pipeline/databento_ib_live.rs): the bar in progress, if any, and an empty aggregator. */
  function Flush(cur: Option<Builder>): (r: (Option<Builder>, Option<Bar>))
    ensures r.0.None?
    ensures r.1.Some? <==> cur.Some?
    ensures cur.Some? ==> r.1.value.volume == cur.value.volume
  {
    (None, if cur.Some? then Some(ToBar(cur.value)) else None)
  }

  /** The aggregator after a stream of trades, with the bars it completed in order (`completed_bars`). */
  function Aggregate(ticks: seq<Tick>): (r: (Option<Builder>, seq<Bar>))
    ensures r.0.Some? ==> r.0.value.Valid()
    ensures r.0.None? <==> |ticks| == 0
    ensures |r.1| <= |ticks|
  {
    if |ticks| == 0 then (None, [])
    else
      var (cur, bars) := Aggregate(ticks[..|ticks| - 1]);
      var (next, out) := Step(cur, ticks[|ticks| - 1]);
      (Some(next), bars + (if out.Some? then [out.value] else []))
  }

  function BarVolume(bars: seq<Bar>): nat
  {
    if |bars| == 0 then 0 else BarVolume(bars[..|bars| - 1]) + bars[|bars| - 1].volume
  }

  function BarDelta(bars: seq<Bar>): int
  {
    if |bars| == 0 then 0 else BarDelta(bars[..|bars| - 1]) + bars[|bars| - 1].delta
  }

  function TickVolume(ticks: seq<Tick>): nat
  {
    if |ticks| == 0 then 0 else TickVolume(ticks[..|ticks| - 1]) + ticks[|ticks| - 1].size
  }

  function TickDelta(ticks: seq<Tick>): int
  {
    if |ticks| == 0 then 0 else TickDelta(ticks[..|ticks| - 1]) + Signed(ticks[|ticks| - 1])
  }

  lemma BarSumsAppend(bars: seq<Bar>, b: Bar)
    ensures BarVolume(bars + [b]) == BarVolume(bars) + b.volume
    ensures BarDelta(bars + [b]) == BarDelta(bars) + b.delta
  {
    assert (bars + [b])[..|bars|] == bars;
  }

  /**
   No trade is lost: the completed bars together with the bar in progress
   hold exactly the volume and the buy-minus-sell delta of the trades seen.
   */
  lemma {:induction false} AggregateConserves(ticks: seq<Tick>)
    ensures var (cur, bars) := Aggregate(ticks);
            BarVolume(bars) + (if cur.Some? then cur.value.volume else 0) == TickVolume(ticks)
            && BarDelta(bars) + (if cur.Some? then cur.value.buyVolume - cur.value.sellVolume else 0) == TickDelta(ticks)
  {
    if |ticks| > 0 {
      var init := ticks[..|ticks| - 1];
      AggregateConserves(init);
      var (cur, bars) := Aggregate(init);
      var (next, out) := Step(cur, ticks[|ticks| - 1]);
      if out.Some? {
        BarSumsAppend(bars, out.value);
      } else {
        assert bars + [] == bars;
      }
    }
  }

  /** After a flush, the completed bars hold all the volume and delta of the stream. */
  lemma FlushConserves(ticks: seq<Tick>)
    ensures var (cur, bars) := Aggregate(ticks);
            var all := bars + (if Flush(cur).1.Some? then [Flush(cur).1.value] else []);
            BarVolume(all) == TickVolume(ticks) && BarDelta(all) == TickDelta(ticks)
  {
    AggregateConserves(ticks);
    var (cur, bars) := Aggregate(ticks);
    if cur.Some? {
      BarSumsAppend(bars, ToBar(cur.value));
    } else {
      assert bars + [] == bars;
    }
  }

  /** The completed bars are in strictly increasing seconds, all before the bar in progress. */
  lemma {:induction false} AggregateOrdered(ticks: seq<Tick>)
    ensures var (cur, bars) := Aggregate(ticks);
            (forall i, j :: 0 <= i < j < |bars| ==> Second(bars[i].ts) < Second(bars[j].ts))
            && (cur.Some? ==> forall i :: 0 <= i < |bars| ==> Second(bars[i].ts) < Second(cur.value.ts))
  {
    if |ticks| > 0 {
      AggregateOrdered(ticks[..|ticks| - 1]);
    }
  }
}
