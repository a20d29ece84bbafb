/**
 Orders and bracket orders of the execution layer (`execution/order.rs`):
 the order state machine, fills with a weighted-average price, and the
 bracket (entry, stop, target) whose trailing stop only ever tightens.

 Identifiers are UUIDs in the source; here they are numbers chosen by the
 caller. Timestamps are not modelled.
 */
module Orders {
  import opened Base

  datatype OrderSide = Buy | Sell

  /** `OrderSide::opposite`. */
  function Opposite(s: OrderSide): (r: OrderSide)
    ensures r != s
  {
    match s
    case Buy => Sell
    case Sell => Buy
  }

  lemma OppositeInvolution(s: OrderSide)
    ensures Opposite(Opposite(s)) == s
  {
  }

  datatype OrderType = Market | Limit | Stop | StopLimit

  datatype OrderState = Pending | Submitted | Working | PartiallyFilled | Filled | Cancelled | Rejected

  datatype Order = Order(
    id: nat,
    symbol: string,
    exchange: string,
    side: OrderSide,
    orderType: OrderType,
    quantity: int,
    filledQuantity: int,
    limitPrice: Option<real>,
    stopPrice: Option<real>,
    state: OrderState,
    avgFillPrice: Option<real>)

  /** `Order::market`, `Order::stop` and `Order::limit`: a pending, unfilled order. */
  function NewOrder(id: nat, symbol: string, exchange: string, side: OrderSide, orderType: OrderType, quantity: int,
                    limitPrice: Option<real>, stopPrice: Option<real>): (o: Order)
    ensures o.state == Pending && o.filledQuantity == 0 && o.avgFillPrice == None
    ensures o.side == side && o.quantity == quantity && o.orderType == orderType
  {
    Order(id, symbol, exchange, side, orderType, quantity, 0, limitPrice, stopPrice, Pending, None)
  }

  /** `is_terminal`: filled, cancelled or rejected. */
  predicate IsTerminal(o: Order)
  {
    o.state == Filled || o.state == OrderState.Cancelled || o.state == Rejected
  }

  /** `is_active`: working or partially filled. */
  predicate IsActive(o: Order)
  {
    o.state == Working || o.state == PartiallyFilled
  }

  /** No order is both terminal and active; a pending or submitted order is neither. */
  lemma TerminalExcludesActive(o: Order)
    ensures !(IsTerminal(o) && IsActive(o))
    ensures o.state == Pending || o.state == Submitted ==> !IsTerminal(o) && !IsActive(o)
  {
  }

  /**
   `record_fill`: the filled quantity grows by the fill, the average price
   is the volume-weighted mean of the previous average and the fill, and
   the order is Filled once the fill reaches the quantity. A fill that
   brings the filled quantity to zero divides by zero in the source; the
   model leaves the average unset there.
   */
  function RecordFill(o: Order, q: int, price: real): (r: Order)
    ensures r.filledQuantity == o.filledQuantity + q
    ensures r.state == (if r.filledQuantity >= o.quantity then Filled else PartiallyFilled)
    ensures r.filledQuantity != 0 ==> (r.avgFillPrice.Some?
            && r.avgFillPrice.value * r.filledQuantity as real
               == (if o.avgFillPrice.Some? then o.avgFillPrice.value else 0.0) * o.filledQuantity as real + price * q as real)
    ensures r == o.(filledQuantity := r.filledQuantity, avgFillPrice := r.avgFillPrice, state := r.state)
  {
    var prev := (if o.avgFillPrice.Some? then o.avgFillPrice.value else 0.0) * o.filledQuantity as real;
    var filled := o.filledQuantity + q;
    var avg := if filled != 0 then Some((prev + price * q as real) / filled as real) else None;
    o.(filledQuantity := filled, avgFillPrice := avg, state := if filled >= o.quantity then Filled else PartiallyFilled)
  }

  /** Applies fills in order. */
  function RecordFills(o: Order, qs: seq<nat>, price: real): Order
    decreases |qs|
  {
    if |qs| == 0 then o else RecordFills(RecordFill(o, qs[0], price), qs[1..], price)
  }

  lemma CancelFactor(a: real, p: real, c: real)
    requires c != 0.0 && a * c == p * c
    ensures a == p
  {
    assert (a - p) * c == 0.0;
  }

  /** Filling an order in any number of positive parts at one price averages to that price. */
  lemma {:induction false} FillsAtOnePrice(o: Order, qs: seq<nat>, price: real)
    requires o.filledQuantity >= 0
    requires o.filledQuantity == 0 || o.avgFillPrice == Some(price)
    requires |qs| > 0 || o.filledQuantity > 0
    requires forall i :: 0 <= i < |qs| ==> qs[i] > 0
    ensures RecordFills(o, qs, price).avgFillPrice == Some(price)
    decreases |qs|
  {
    if |qs| > 0 {
      var o1 := RecordFill(o, qs[0], price);
      var f := o.filledQuantity as real;
      var q := qs[0] as real;
      assert o1.avgFillPrice.value * (f + q) == price * (f + q) by {
        if o.filledQuantity == 0 {
          assert o1.avgFillPrice.value * (f + q) == price * q;
        } else {
          assert o1.avgFillPrice.value * (f + q) == price * f + price * q;
        }
      }
      CancelFactor(o1.avgFillPrice.value, price, f + q);
      FillsAtOnePrice(o1, qs[1..], price);
    }
  }

  datatype BracketState = PendingEntry | EntryWorking | PositionOpen | Exiting | Complete | Cancelled

  datatype Bracket = Bracket(
    id: nat,
    entry: Order,
    stopLoss: Option<Order>,
    takeProfit: Option<Order>,
    state: BracketState,
    entryPrice: Option<real>,
    exitPrice: Option<real>,
    lvnLevel: real,
    realizedPnl: Option<real>,
    highWaterMark: Option<real>,
    lowWaterMark: Option<real>)

  predicate IsLong(b: Bracket)
  {
    b.entry.side == Buy
  }

  /** `BracketOrder::new_long` / `new_short`: a market entry on the given side and nothing else yet. */
  function NewBracket(id: nat, entryId: nat, symbol: string, exchange: string, side: OrderSide, quantity: int, lvnLevel: real): (b: Bracket)
    ensures b.state == PendingEntry && b.entry.side == side && b.entry.orderType == Market
    ensures b.entry.state == Pending && b.entry.quantity == quantity
    ensures b.stopLoss == None && b.takeProfit == None && b.entryPrice == None && b.realizedPnl == None
  {
    Bracket(id, NewOrder(entryId, symbol, exchange, side, Market, quantity, None, None),
            None, None, PendingEntry, None, None, lvnLevel, None, None, None)
  }

  function NewLong(id: nat, entryId: nat, symbol: string, exchange: string, quantity: int, lvnLevel: real): (b: Bracket)
    ensures IsLong(b) && b.state == PendingEntry && b.stopLoss == None && b.takeProfit == None
  {
    NewBracket(id, entryId, symbol, exchange, Buy, quantity, lvnLevel)
  }

  function NewShort(id: nat, entryId: nat, symbol: string, exchange: string, quantity: int, lvnLevel: real): (b: Bracket)
    ensures !IsLong(b) && b.state == PendingEntry && b.stopLoss == None && b.takeProfit == None
  {
    NewBracket(id, entryId, symbol, exchange, Sell, quantity, lvnLevel)
  }

  /** The stop price of the bracket's stop order, if both exist. */
  function StopPrice(b: Bracket): Option<real>
  {
    if b.stopLoss.Some? then b.stopLoss.value.stopPrice else None
  }

  function TargetPrice(b: Bracket): Option<real>
  {
    if b.takeProfit.Some? then b.takeProfit.value.limitPrice else None
  }

  /**
   `set_exit_orders`: the stop sits the buffer beyond the LVN level and the
   target the take-profit distance from the entry, both on the opposite
   side for the entry's quantity; the position is then open.
   */
  function SetExitOrders(b: Bracket, entryPrice: real, takeProfitPts: real, stopBuffer: real, stopId: nat, targetId: nat): (r: Bracket)
    ensures r.entryPrice == Some(entryPrice) && r.state == PositionOpen
    ensures StopPrice(r) == Some(if IsLong(b) then b.lvnLevel - stopBuffer else b.lvnLevel + stopBuffer)
    ensures TargetPrice(r) == Some(if IsLong(b) then entryPrice + takeProfitPts else entryPrice - takeProfitPts)
    ensures r.stopLoss.value.side == Opposite(b.entry.side) && r.takeProfit.value.side == Opposite(b.entry.side)
    ensures r.stopLoss.value.quantity == b.entry.quantity && r.takeProfit.value.quantity == b.entry.quantity
    ensures r.stopLoss.value.orderType == Stop && r.takeProfit.value.orderType == Limit
    ensures IsLong(r) == IsLong(b) && r.entry == b.entry && r.lvnLevel == b.lvnLevel
    ensures IsLong(b) ==> r.highWaterMark == Some(entryPrice) && r.lowWaterMark == b.lowWaterMark
    ensures !IsLong(b) ==> r.lowWaterMark == Some(entryPrice) && r.highWaterMark == b.highWaterMark
  {
    var long := IsLong(b);
    var stop := if long then b.lvnLevel - stopBuffer else b.lvnLevel + stopBuffer;
    var tp := if long then entryPrice + takeProfitPts else entryPrice - takeProfitPts;
    var exitSide := Opposite(b.entry.side);
    b.(entryPrice := Some(entryPrice),
       stopLoss := Some(NewOrder(stopId, b.entry.symbol, b.entry.exchange, exitSide, Stop, b.entry.quantity, None, Some(stop))),
       takeProfit := Some(NewOrder(targetId, b.entry.symbol, b.entry.exchange, exitSide, Limit, b.entry.quantity, Some(tp), None)),
       highWaterMark := if long then Some(entryPrice) else b.highWaterMark,
       lowWaterMark := if long then b.lowWaterMark else Some(entryPrice),
       state := PositionOpen)
  }

  /** A stop moves "tighter" when it rises under a long and falls above a short. */
  predicate Tighter(long: bool, newStop: real, oldStop: real)
  {
    if long then newStop > oldStop else newStop < oldStop
  }

  predicate NoLooser(long: bool, newStop: real, oldStop: real)
  {
    newStop == oldStop || Tighter(long, newStop, oldStop)
  }

  /** The water mark after seeing a price: a higher high for longs, a lower low for shorts; unset stays unset. */
  function NextMarks(b: Bracket, price: real): (r: Bracket)
    ensures IsLong(b) && b.highWaterMark.Some? ==> r.highWaterMark == Some(Max(b.highWaterMark.value, price))
    ensures !IsLong(b) && b.lowWaterMark.Some? ==> r.lowWaterMark == Some(Min(b.lowWaterMark.value, price))
    ensures r == b.(highWaterMark := r.highWaterMark, lowWaterMark := r.lowWaterMark)
    ensures IsLong(b) ==> r.lowWaterMark == b.lowWaterMark && (r.highWaterMark.Some? <==> b.highWaterMark.Some?)
    ensures !IsLong(b) ==> r.highWaterMark == b.highWaterMark && (r.lowWaterMark.Some? <==> b.lowWaterMark.Some?)
  {
    if IsLong(b) then
      if b.highWaterMark.Some? && price > b.highWaterMark.value then b.(highWaterMark := Some(price)) else b
    else
      if b.lowWaterMark.Some? && price < b.lowWaterMark.value then b.(lowWaterMark := Some(price)) else b
  }

  /**
   `update_trailing_stop`: after moving the water mark, the stop becomes
   mark ∓ trail, and is reported, only when that strictly tightens it;
   otherwise the stop stays where it was and nothing is reported.
   */
  function UpdateTrailingStop(b: Bracket, price: real, trail: real): (r: (Bracket, Option<real>))
    ensures r.1.Some? ==> StopPrice(b).Some? && StopPrice(r.0) == r.1 && Tighter(IsLong(b), r.1.value, StopPrice(b).value)
    ensures r.1.Some? && IsLong(b) ==> r.0.highWaterMark == Some(r.1.value + trail)
    ensures r.1.Some? && !IsLong(b) ==> r.0.lowWaterMark == Some(r.1.value - trail)
    ensures r.1.None? ==> StopPrice(r.0) == StopPrice(b)
    ensures StopPrice(r.0).Some? <==> StopPrice(b).Some?
    ensures StopPrice(b).Some? ==> NoLooser(IsLong(b), StopPrice(r.0).value, StopPrice(b).value)
    ensures IsLong(r.0) == IsLong(b) && r.0.state == b.state && r.0.entryPrice == b.entryPrice && r.0.entry == b.entry
    ensures r.0.takeProfit == b.takeProfit && r.0.lvnLevel == b.lvnLevel
  {
    var m := NextMarks(b, price);
    var mark := if IsLong(b) then m.highWaterMark else m.lowWaterMark;
    if mark.Some? && b.stopLoss.Some? && b.stopLoss.value.stopPrice.Some? then
      var newStop := if IsLong(b) then mark.value - trail else mark.value + trail;
      if Tighter(IsLong(b), newStop, b.stopLoss.value.stopPrice.value) then
        (m.(stopLoss := Some(b.stopLoss.value.(stopPrice := Some(newStop)))), Some(newStop))
      else (m, None)
    else (m, None)
  }

  /** Runs the trailing stop over a sequence of prices. */
  function TrailOver(b: Bracket, prices: seq<real>, trail: real): Bracket
    decreases |prices|
  {
    if |prices| == 0 then b else TrailOver(UpdateTrailingStop(b, prices[0], trail).0, prices[1..], trail)
  }

  /** Over any price path, the stop never loosens. */
  lemma {:induction false} TrailOverNeverLoosens(b: Bracket, prices: seq<real>, trail: real)
    requires StopPrice(b).Some?
    ensures StopPrice(TrailOver(b, prices, trail)).Some?
    ensures NoLooser(IsLong(b), StopPrice(TrailOver(b, prices, trail)).value, StopPrice(b).value)
    ensures IsLong(TrailOver(b, prices, trail)) == IsLong(b)
    decreases |prices|
  {
    if |prices| > 0 {
      var b1 := UpdateTrailingStop(b, prices[0], trail).0;
      TrailOverNeverLoosens(b1, prices[1..], trail);
    }
  }

  /** `complete`: closed at the exit price, with the realized P&L of the signed move times the quantity when the entry is known. */
  function CompleteAt(b: Bracket, price: real): (r: Bracket)
    ensures r.state == BracketState.Complete && r.exitPrice == Some(price)
    ensures b.entryPrice.Some? ==> r.realizedPnl == UnrealizedPnl(b, price)
    ensures b.entryPrice.None? ==> r.realizedPnl == b.realizedPnl
    ensures r.entry == b.entry && r.entryPrice == b.entryPrice
  {
    var closed := b.(exitPrice := Some(price), state := BracketState.Complete);
    if b.entryPrice.Some? then
      var move := if IsLong(b) then price - b.entryPrice.value else b.entryPrice.value - price;
      var u := UnrealizedPnl(b, price);
      assert u.Some?;
      assert u.value == move * b.entry.quantity as real;
      closed.(realizedPnl := Some(move * b.entry.quantity as real))
    else closed
  }

  /** `unrealized_pnl`: none before the entry fill, then the signed move times the quantity. */
  function UnrealizedPnl(b: Bracket, price: real): (r: Option<real>)
    ensures r.None? <==> b.entryPrice.None?
  {
    if b.entryPrice.None? then None
    else
      var move := if IsLong(b) then price - b.entryPrice.value else b.entryPrice.value - price;
      Some(move * b.entry.quantity as real)
  }

  /** A long and a short with the same entry and size have opposite open P&L, zero at the entry price. */
  lemma UnrealizedPnlSymmetric(b: Bracket, price: real)
    requires b.entryPrice.Some?
    ensures UnrealizedPnl(b.(entry := b.entry.(side := Opposite(b.entry.side))), price).value == -UnrealizedPnl(b, price).value
    ensures UnrealizedPnl(b, b.entryPrice.value) == Some(0.0)
  {
    var q := b.entry.quantity as real;
    var d := price - b.entryPrice.value;
    assert (-d) * q == -(d * q);
  }

  /** The stop never loosens; the new-long bracket of the tests trails to 21509, 21514 and then holds. */
  lemma TrailingStopExample()
    ensures var b := SetExitOrders(NewLong(1, 2, "NQ.c.0", "CME", 1, 21500.0), 21505.0, 30.0, 1.5, 3, 4);
            StopPrice(b) == Some(21498.5) && TargetPrice(b) == Some(21535.0)
            && var u1 := UpdateTrailingStop(b, 21515.0, 6.0);
               u1.1 == Some(21509.0)
               && var u2 := UpdateTrailingStop(u1.0, 21520.0, 6.0);
                  u2.1 == Some(21514.0)
                  && UpdateTrailingStop(u2.0, 21518.0, 6.0).1 == None
  {
  }

  /** The tests' two-contract long at 21505 shows +20 at 21515 and −10 at 21500. */
  lemma UnrealizedPnlExample()
    ensures var b := SetExitOrders(NewLong(1, 2, "NQ.c.0", "CME", 2, 21500.0), 21505.0, 30.0, 1.5, 3, 4);
            UnrealizedPnl(b, 21515.0) == Some(20.0) && UnrealizedPnl(b, 21500.0) == Some(-10.0)
  {
  }
}
