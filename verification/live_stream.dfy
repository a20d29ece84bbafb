/**
 The live market-data stream (`streams/live.rs`): each feed trade gets a
 side from its aggressor byte, goes to the live trader's bar aggregator
 (`Market.Step`), and, when large enough, to the order-flow processing
 buffer (`Processing`). A trader action on a completed bar is broadcast
 as a trading signal.
 */
module LiveStream {
  import opened Base
  import opened Market
  import LT = LiveTrading
  import Processing

  /** The signal broadcast to web clients. */
  datatype TradingSignal = TradingSignal(
    timestamp: nat, signalType: string, direction: string, price: real,
    stop: Option<real>, target: Option<real>, pnlPoints: Option<real>,
    reason: Option<string>, x: real)

  function DirectionName(d: Direction): (s: string)
    ensures s == "long" <==> d == Long
    ensures s == "short" <==> d == Short
  {
    match d
    case Long => assert "long"[0] != "short"[0]; "long"
    case Short => "short"
  }

  /** The reason text the trader gives each exit. */
  function ReasonText(r: LT.ExitReason): (s: string)
    ensures s == "STOP" <==> r == LT.StopExit
    ensures s == "TARGET" <==> r == LT.TargetExit
    ensures s == "TIMEOUT" <==> r == LT.TimeoutExit
  {
    match r
    case StopExit => "STOP"
    case TargetExit => "TARGET"
    case TimeoutExit => "TIMEOUT"
  }

  /** The only reason the trader flattens for. */
  const FlattenReason: string := "Daily loss limit"

  /**
   `trade_action_to_signal`: a pending signal is not broadcast; an entry
   carries its stop and target, an exit its points and reason, a stop
   update its new stop as both price and stop, and a flatten the current
   price. Every signal carries the time and the current price.
   */
  function TradeActionToSignal(a: LT.TradeAction, timestamp: nat, currentPrice: real): (r: Option<TradingSignal>)
    ensures r.None? <==> a == LT.SignalPending
    ensures r.Some? ==> r.value.timestamp == timestamp && r.value.x == currentPrice
    ensures a.Enter? ==>
      r == Some(TradingSignal(timestamp, "entry", DirectionName(a.direction), a.price, Some(a.stop), Some(a.target),
                              None, None, currentPrice))
    ensures a.Exit? ==>
      r.value.signalType == "exit" && r.value.direction == DirectionName(a.direction) && r.value.price == a.price
      && r.value.stop.None? && r.value.target.None?
      && r.value.pnlPoints == Some(a.pnlPoints) && r.value.reason == Some(ReasonText(a.reason))
    ensures a.UpdateStop? ==>
      r.value.signalType == "stop_update" && r.value.direction == ""
      && r.value.price == a.newStop && r.value.stop == Some(a.newStop)
    ensures a.FlattenAll? ==>
      r.value.signalType == "flatten" && r.value.price == currentPrice && r.value.reason == Some(FlattenReason)
  {
    match a
    case Enter(d, price, stop, target, _) =>
      Some(TradingSignal(timestamp, "entry", DirectionName(d), price, Some(stop), Some(target), None, None, currentPrice))
    case Exit(d, price, pnl, reason) =>
      Some(TradingSignal(timestamp, "exit", DirectionName(d), price, None, None, Some(pnl), Some(ReasonText(reason)), currentPrice))
    case UpdateStop(s) =>
      Some(TradingSignal(timestamp, "stop_update", "", s, Some(s), None, None, None, currentPrice))
    case FlattenAll =>
      Some(TradingSignal(timestamp, "flatten", "", currentPrice, None, None, None, Some(FlattenReason), currentPrice))
    case SignalPending => None
  }

  function ParseDirection(s: string): Option<Direction>
  {
    if s == "long" then Some(Long) else if s == "short" then Some(Short) else None
  }

  function ParseReason(s: string): Option<LT.ExitReason>
  {
    if s == "STOP" then Some(LT.StopExit)
    else if s == "TARGET" then Some(LT.TargetExit)
    else if s == "TIMEOUT" then Some(LT.TimeoutExit)
    else None
  }

  /**
   What a client can read back from a signal: the action it reports,
   given the contract count an entry signal does not carry.
   */
  function ReadSignal(s: TradingSignal, contracts: int): (r: Option<LT.TradeAction>)
    ensures r.Some? ==> r.value != LT.SignalPending
  {
    match s.signalType
    case "entry" =>
      (match ParseDirection(s.direction)
       case Some(d) =>
         if s.stop.Some? && s.target.Some? then Some(LT.Enter(d, s.price, s.stop.value, s.target.value, contracts))
         else None
       case None => None)
    case "exit" =>
      (match (ParseDirection(s.direction), s.pnlPoints, s.reason)
       case (Some(d), Some(pnl), Some(text)) =>
         (match ParseReason(text)
          case Some(reason) => Some(LT.Exit(d, s.price, pnl, reason))
          case None => None)
       case _ => None)
    case "stop_update" => Some(LT.UpdateStop(s.price))
    case "flatten" => if s.reason == Some(FlattenReason) then Some(LT.FlattenAll) else None
    case _ => None
  }

  function ContractsOf(a: LT.TradeAction): int
  {
    if a.Enter? then a.contracts else 0
  }

  /**
   A broadcast signal loses nothing but an entry's contract count: every
   action but a pending signal is read back as itself.
   */
  lemma SignalRoundTrip(a: LT.TradeAction, timestamp: nat, currentPrice: real)
    requires a != LT.SignalPending
    ensures ReadSignal(TradeActionToSignal(a, timestamp, currentPrice).value, ContractsOf(a)) == Some(a)
  {
    match a
    case Enter(d, _, _, _, _) =>
      assert ParseDirection(DirectionName(d)) == Some(d);
    case Exit(d, _, _, reason) =>
      assert ParseDirection(DirectionName(d)) == Some(d);
      assert ParseReason(ReasonText(reason)) == Some(reason);
    case UpdateStop(_) =>
    case FlattenAll =>
  }

  // ---------------------------------------------------------------------
  // Incoming trades

  /** A feed trade: fixed-point price in billionths, size, aggressor byte, time in nanoseconds. */
  datatype FeedTrade = FeedTrade(rawPrice: int, size: nat, side: char, tsNanos: nat)

  const PriceScale: real := 1_000_000_000.0

  /**
   The side by name, as both live feeds read the aggressor byte
   (`Market.LiveIsBuyAsWritten`): 'B' or 'b' is a sell and every other
   byte a buy. For 'A' and 'B' this is the opposite of the side a
   historical file gives the same trade.
   */
  function SideName(c: char): (s: string)
    ensures s == "buy" <==> LiveIsBuyAsWritten(c)
    ensures s == "buy" || s == "sell"
    ensures c == 'A' || c == 'B' ==> HistoricalSide([c]) == Some(if s == "buy" then Sell else Buy)
  {
    if LiveIsBuyAsWritten(c) then "buy" else "sell"
  }

  /** The side by name with the corrected aggressor mapping (`Market.LiveIsBuy`), which agrees with a historical file. */
  function SideNameCorrected(c: char): (s: string)
    ensures s == "sell" <==> !LiveIsBuy(c)
    ensures s == "buy" || s == "sell"
    ensures c == 'A' || c == 'B' ==> HistoricalSide([c]) == Some(if s == "buy" then Buy else Sell)
  {
    if LiveIsBuy(c) then "buy" else "sell"
  }

  /** The two readings name different sides exactly for the four aggressor bytes. */
  lemma SideNamesDiffer(c: char)
    ensures SideName(c) != SideNameCorrected(c) <==> c == 'A' || c == 'a' || c == 'B' || c == 'b'
  {
  }

  /** The trade as the processing buffer receives it: price in points, side by name, time in milliseconds. */
  function TapeOf(t: FeedTrade): (r: Processing.TapeTrade)
    ensures r.price * PriceScale == t.rawPrice as real && r.size == t.size
    ensures r.side == SideName(t.side) && r.timestamp == t.tsNanos / 1_000_000
  {
    Processing.TapeTrade(t.rawPrice as real / PriceScale, t.size, SideName(t.side), t.tsNanos / 1_000_000)
  }

  /** The trade as the trader's bar aggregator receives it: a buy unless the side byte is 'B' or 'b'. */
  function TickOf(t: FeedTrade, symbol: string): (r: Tick)
    ensures r.price == TapeOf(t).price && r.size == t.size && r.symbol == symbol && r.ts == t.tsNanos
    ensures r.isBuy <==> TapeOf(t).side == "buy"
    ensures r.isBuy <==> t.side != 'B' && t.side != 'b'
  {
    Tick(t.tsNanos, t.rawPrice as real / PriceScale, t.size, LiveIsBuyAsWritten(t.side), symbol)
  }

  /**
   The min-size filter: the trades of a stream that reach the processing
   buffer, in order: exactly those of at least `minSize`.
   */
  function Buffered(trades: seq<FeedTrade>, minSize: nat): (r: seq<Processing.TapeTrade>)
    ensures |r| <= |trades|
    ensures forall i :: 0 <= i < |r| ==> r[i].size >= minSize
    decreases |trades|
  {
    if |trades| == 0 then []
    else
      var rest := Buffered(trades[..|trades| - 1], minSize);
      var t := trades[|trades| - 1];
      if t.size >= minSize then rest + [TapeOf(t)] else rest
  }

  /** Every trade of at least the minimum size reaches the buffer. */
  lemma {:induction false} LargeTradesBuffered(trades: seq<FeedTrade>, minSize: nat, i: nat)
    requires i < |trades| && trades[i].size >= minSize
    ensures TapeOf(trades[i]) in Buffered(trades, minSize)
    decreases |trades|
  {
    var n := |trades| - 1;
    if i < n {
      LargeTradesBuffered(trades[..n], minSize, i);
      assert trades[..n][i] == trades[i];
    }
  }

  /** The positions of the trades that pass the filter. */
  function Passing(trades: seq<FeedTrade>, minSize: nat): set<nat>
  {
    set i: nat | i < |trades| && trades[i].size >= minSize
  }

  lemma PassingSnoc(trades: seq<FeedTrade>, minSize: nat)
    requires |trades| > 0
    ensures var n := |trades| - 1;
      Passing(trades, minSize) == Passing(trades[..n], minSize) + (if trades[n].size >= minSize then {n} else {})
  {
    var n := |trades| - 1;
    forall i: nat | i < n
      ensures trades[..n][i] == trades[i]
    {
    }
  }

  /** The buffer holds exactly one entry per trade that passes the filter. */
  lemma {:induction false} BufferedCount(trades: seq<FeedTrade>, minSize: nat)
    ensures |Buffered(trades, minSize)| == |Passing(trades, minSize)|
    decreases |trades|
  {
    if |trades| > 0 {
      var n := |trades| - 1;
      BufferedCount(trades[..n], minSize);
      PassingSnoc(trades, minSize);
      assert n !in Passing(trades[..n], minSize);
    }
  }
}
