/**
 The signal generator behind the web frontend (`trading.rs`): a delta
 flip opens a position with a fixed stop and target, and price updates
 close it. Signals that the source broadcasts are returned instead.
 */
module Observer {
  import opened Base
  import opened Market

  datatype Position = Position(direction: Direction, entryPrice: real, stop: real, target: real, entryTime: nat)

  datatype TradingConfig = TradingConfig(takeProfitPoints: real, stopLossPoints: real, minDeltaThreshold: int)

  const DefaultTradingConfig := TradingConfig(20.0, 10.0, 50)

  datatype State = State(config: TradingConfig, position: Option<Position>, lastSignalTime: nat, lastPrice: real, signalCount: nat)

  datatype SignalKind = Entry | Exit

  /** The message the observer would broadcast: entries carry stop and target, exits the P&L and reason. */
  datatype TradingSignal = TradingSignal(
    timestamp: nat, kind: SignalKind, direction: Direction, price: real,
    stop: Option<real>, target: Option<real>, pnlPoints: Option<real>, reason: Option<string>)

  /** The minimum gap between two entries, in milliseconds. */
  const SignalGapMs: nat := 30_000

  const U64Modulus: nat := 0x1_0000_0000_0000_0000

  /** `u64` subtraction as it runs in a release build: it wraps modulo 2^64. */
  function WrappingSub(a: nat, b: nat): (r: nat)
    requires a < U64Modulus && b < U64Modulus
    ensures r < U64Modulus
    ensures a >= b ==> r == a - b
    ensures a < b ==> r == U64Modulus - (b - a)
  {
    (a - b) % U64Modulus
  }

  function NewObserver(config: TradingConfig): (s: State)
    ensures s.position == None && s.signalCount == 0 && s.lastSignalTime == 0
  {
    State(config, None, 0, 0.0, 0)
  }

  /** `"bullish"` means long; any other word means short. */
  function FlipDirection(word: string): (d: Direction)
    ensures d == Long <==> word == "bullish"
  {
    if word == "bullish" then Long else Short
  }

  function StopFor(c: TradingConfig, d: Direction, price: real): real
  {
    if d == Long then price - c.stopLossPoints else price + c.stopLossPoints
  }

  function TargetFor(c: TradingConfig, d: Direction, price: real): real
  {
    if d == Long then price + c.takeProfitPoints else price - c.takeProfitPoints
  }

  /** `generate_entry_signal`: the stop and target sit the configured distances on either side of the price. */
  function EnterPosition(s: State, d: Direction, price: real, timestamp: nat): (r: (State, TradingSignal))
    ensures r.0.position.Some? && r.0.position.value.direction == d && r.0.position.value.entryPrice == price
    ensures d == Long ==> r.0.position.value.stop == price - s.config.stopLossPoints && r.0.position.value.target == price + s.config.takeProfitPoints
    ensures d == Short ==> r.0.position.value.stop == price + s.config.stopLossPoints && r.0.position.value.target == price - s.config.takeProfitPoints
    ensures r.0.lastSignalTime == timestamp && r.0.signalCount == s.signalCount + 1
    ensures r.1.kind == Entry && r.1.stop == Some(r.0.position.value.stop) && r.1.target == Some(r.0.position.value.target)
    ensures r.1.pnlPoints == None && r.1.reason == None
  {
    var stop := StopFor(s.config, d, price);
    var target := TargetFor(s.config, d, price);
    (s.(position := Some(Position(d, price, stop, target, timestamp)), lastSignalTime := timestamp, signalCount := s.signalCount + 1),
     TradingSignal(timestamp, Entry, d, price, Some(stop), Some(target), None, None))
  }

  /**
   `on_delta_flip`: ignored within 30 seconds of the last signal (by the
   wrapping `u64` difference) and while a position is open; otherwise an
   entry in the flip's direction.
   */
  function OnDeltaFlip(s: State, word: string, price: real, timestamp: nat): (r: (State, Option<TradingSignal>))
    requires timestamp < U64Modulus && s.lastSignalTime < U64Modulus
    ensures r.1.None? <==> WrappingSub(timestamp, s.lastSignalTime) < SignalGapMs || s.position.Some?
    ensures r.1.None? ==> r.0 == s
    ensures r.1.Some? ==> r.1.value.kind == Entry && r.1.value.direction == FlipDirection(word) && r.1.value.price == price
                          && r.0.position.Some? && r.0.signalCount == s.signalCount + 1
  {
    if WrappingSub(timestamp, s.lastSignalTime) < SignalGapMs then (s, None)
    else if s.position.Some? then (s, None)
    else
      var (s2, sig) := EnterPosition(s, FlipDirection(word), price, timestamp);
      (s2, Some(sig))
  }

  /** `generate_exit_signal`: the position is cleared in every case, and a signal goes out only if there was one. */
  function ExitPosition(s: State, price: real, timestamp: nat, pnl: real, reason: string): (r: (State, Option<TradingSignal>))
    ensures r.0.position == None
    ensures r.0 == s.(position := None)
    ensures r.1.Some? <==> s.position.Some?
    ensures r.1.Some? ==> r.1.value.kind == Exit && r.1.value.pnlPoints == Some(pnl) && r.1.value.reason == Some(reason)
                          && r.1.value.direction == s.position.value.direction && r.1.value.stop == None && r.1.value.target == None
  {
    var sig := if s.position.Some? then Some(TradingSignal(timestamp, Exit, s.position.value.direction, price, None, None, Some(pnl), Some(reason))) else None;
    (s.(position := None), sig)
  }

  /** The points a position has made at a price. */
  function PositionPnl(p: Position, price: real): (pnl: real)
    ensures p.direction == Long ==> pnl == price - p.entryPrice
    ensures p.direction == Short ==> pnl == p.entryPrice - price
  {
    match p.direction
    case Long => price - p.entryPrice
    case Short => p.entryPrice - price
  }

  /**
   `on_price_update`: the price is remembered; an open position exits at
   the target when its P&L reaches the take-profit distance (checked
   first) and at the stop when it falls to minus the stop distance.
   */
  function OnPriceUpdate(s: State, price: real, timestamp: nat): (r: (State, Option<TradingSignal>))
    ensures r.0.lastPrice == price
    ensures s.position.None? ==> r == (s.(lastPrice := price), None)
    ensures r.1.Some? <==> s.position.Some? && (PositionPnl(s.position.value, price) >= s.config.takeProfitPoints
                                              || PositionPnl(s.position.value, price) <= -s.config.stopLossPoints)
    ensures r.1.Some? ==> r.0.position == None && r.1.value.pnlPoints == Some(PositionPnl(s.position.value, price))
    ensures r.1.Some? ==> r.1.value.reason == Some(if PositionPnl(s.position.value, price) >= s.config.takeProfitPoints then "Target hit" else "Stop loss")
    ensures r.1.None? ==> r.0.position == s.position
  {
    var s1 := s.(lastPrice := price);
    match s.position
    case None => (s1, None)
    case Some(p) =>
      var pnl := PositionPnl(p, price);
      if pnl >= s.config.takeProfitPoints then ExitPosition(s1, price, timestamp, pnl, "Target hit")
      else if pnl <= -s.config.stopLossPoints then ExitPosition(s1, price, timestamp, pnl, "Stop loss")
      else (s1, None)
  }

  /**
   For a position opened by this observer with non-negative distances, the
   P&L reaches the take-profit exactly when the price reaches the target,
   and falls to minus the stop distance exactly when the price reaches the stop.
   */
  lemma ExitsAtStopOrTarget(s: State, d: Direction, entry: real, t0: nat, price: real)
    ensures var p := EnterPosition(s, d, entry, t0).0.position.value;
            (PositionPnl(p, price) >= s.config.takeProfitPoints <==> (if d == Long then price >= p.target else price <= p.target))
            && (PositionPnl(p, price) <= -s.config.stopLossPoints <==> (if d == Long then price <= p.stop else price >= p.stop))
  {
  }

  /** An entry followed by any update that exits leaves the observer flat again and free to take the next flip after the gap. */
  lemma EntryThenExit(s: State, word: string, entry: real, t0: nat, price: real, t1: nat, t2: nat)
    requires t0 < U64Modulus && t2 < U64Modulus && s.lastSignalTime < U64Modulus
    requires OnDeltaFlip(s, word, entry, t0).1.Some?
    requires OnPriceUpdate(OnDeltaFlip(s, word, entry, t0).0, price, t1).1.Some?
    requires t0 + SignalGapMs <= t2
    ensures OnDeltaFlip(OnPriceUpdate(OnDeltaFlip(s, word, entry, t0).0, price, t1).0, word, price, t2).1.Some?
  {
  }

  /** A second flip while a position is open is ignored, whatever the time. */
  lemma NoPyramiding(s: State, w1: string, w2: string, p1: real, p2: real, t0: nat, t1: nat)
    requires t0 < U64Modulus && t1 < U64Modulus && s.lastSignalTime < U64Modulus
    requires OnDeltaFlip(s, w1, p1, t0).1.Some?
    ensures OnDeltaFlip(OnDeltaFlip(s, w1, p1, t0).0, w2, p2, t1).1.None?
  {
  }

  /** A timestamp earlier than the last signal wraps to a huge difference and passes the 30-second gap. */
  lemma EarlierTimestampPassesGap()
    ensures WrappingSub(1000, 5000) >= SignalGapMs
    ensures OnDeltaFlip(NewObserver(DefaultTradingConfig).(lastSignalTime := 5000), "bullish", 21500.0, 1000).1.Some?
  {
  }

  /** A bullish flip at 21500 with the default distances: stop 21490, target 21520; 21520 hits the target, 21490 the stop. */
  lemma DefaultExample()
    ensures var r := OnDeltaFlip(NewObserver(DefaultTradingConfig), "bullish", 21500.0, 60_000);
            r.1.Some? && r.1.value.stop == Some(21490.0) && r.1.value.target == Some(21520.0)
            && OnPriceUpdate(r.0, 21520.0, 61_000).1.value.reason == Some("Target hit")
            && OnPriceUpdate(r.0, 21490.0, 61_000).1.value.reason == Some("Stop loss")
            && OnPriceUpdate(r.0, 21510.0, 61_000).1.None?
  {
  }
}
