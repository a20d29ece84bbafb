/**
 The Rithmic live trader (`pipeline/rithmic_live.rs`): the same LVN
 retest strategy as the broker-agnostic trader, without dates, slippage,
 commission or a breakout machine. It reads its trading hours from the
 local wall clock (a parameter `now`, as hour and minute), and its
 signal generator reads the bar's Eastern time (a parameter `et`). The
 trader shares the flat configuration, the position, the exit rules and
 the trade actions of `LiveTrading`; its bar aggregator is
 `Market.Aggregate`.

 The order manager turns actions into Rithmic bracket orders: local ids
 `LVN_1`, `LVN_2`, …, and stop and profit offsets in whole ticks.
 */
module RithmicLive {
  import opened Base
  import opened Text
  import opened Market
  import opened Lvn
  import opened RetestSignals
  import LT = LiveTrading

  datatype RithmicTrader = RithmicTrader(
    config: LT.LiveConfig, gen: Generator,
    pending: Option<LvnSignal>, position: Option<LT.OpenPosition>,
    dailyLosses: nat, dailyPnl: real,
    totalTrades: nat, wins: nat, losses: nat, runningBalance: real,
    isTradingHours: bool, dailyStopped: bool, barCount: nat)

  /** The generator runs on the trader's own strategy settings, and no trade is counted twice. */
  predicate Valid(t: RithmicTrader)
  {
    Ascending(t.gen.levels) && t.gen.config == LT.ToLvnConfig(t.config)
    && t.wins + t.losses <= t.totalTrades
  }

  /** `new`: flat, nothing pending, nothing counted, the starting balance. */
  function NewTrader(c: LT.LiveConfig): (t: RithmicTrader)
    ensures Valid(t) && t.config == c
    ensures IsFlat(t) && t.totalTrades == 0 && t.dailyLosses == 0 && !t.dailyStopped
    ensures t.runningBalance == c.startingBalance && t.gen.levels == []
  {
    RithmicTrader(c, NewGenerator(LT.ToLvnConfig(c)), None, None, 0, 0.0, 0, 0, 0,
                  c.startingBalance, false, false, 0)
  }

  /** `is_flat`: no position and no signal waiting. */
  predicate IsFlat(t: RithmicTrader)
  {
    t.position.None? && t.pending.None?
  }

  /**
   `load_lvn_levels`: every cached day's nodes handed to the generator in
   order, with the number of nodes read.
   */
  function LoadLvnLevels(t: RithmicTrader, days: seq<seq<LvnLevel>>): (r: (RithmicTrader, nat))
    requires Valid(t)
    ensures Valid(r.0) && r.0 == t.(gen := r.0.gen)
    ensures r.0.gen.config == t.gen.config
    ensures r.1 == NodeCount(days)
    ensures |days| == 0 ==> r.0 == t
    decreases |days|
  {
    if |days| == 0 then (t, 0)
    else
      var (t1, n) := LoadLvnLevels(t, days[..|days| - 1]);
      var last := days[|days| - 1];
      (t1.(gen := t1.gen.(levels := AddLevels(t1.gen.config, t1.gen.levels, last, OwnId).0)), n + |last|)
  }

  function NodeCount(days: seq<seq<LvnLevel>>): nat
  {
    if |days| == 0 then 0 else NodeCount(days[..|days| - 1]) + |days[|days| - 1]|
  }

  /** `reset_daily`: the day's losses, points and stop start over; the totals stay. */
  function ResetDaily(t: RithmicTrader): (r: RithmicTrader)
    ensures r.dailyLosses == 0 && r.dailyPnl == 0.0 && !r.dailyStopped
    ensures r.(dailyLosses := t.dailyLosses, dailyPnl := t.dailyPnl, dailyStopped := t.dailyStopped) == t
  {
    t.(dailyLosses := 0, dailyPnl := 0.0, dailyStopped := false)
  }

  // ---------------------------------------------------------------------
  // One bar

  /**
   An exit: the points in the trade's direction (no slippage), the
   dollars at the point value per contract, a win above half a point, a
   loss below minus half a point, and a loss that reaches a positive
   `max_daily_losses` stops the day.
   */
  function CloseTrade(t: RithmicTrader, p: LT.OpenPosition, exitPrice: real, reason: LT.ExitReason): (r: (RithmicTrader, LT.TradeAction))
    requires Valid(t)
    ensures Valid(r.0) && r.0.position.None?
    ensures var pnl := LT.GrossPoints(p.direction, p.entryPrice, exitPrice);
      r.1 == LT.Exit(p.direction, exitPrice, pnl, reason)
      && r.0.dailyPnl == t.dailyPnl + pnl
      && r.0.runningBalance == t.runningBalance + pnl * t.config.pointValue * t.config.contracts as real
      && r.0.totalTrades == t.totalTrades + 1
      && r.0.wins == t.wins + (if pnl > 0.5 then 1 else 0)
      && r.0.losses == t.losses + (if pnl < -0.5 then 1 else 0)
      && r.0.dailyLosses == t.dailyLosses + (if pnl < -0.5 then 1 else 0)
      && (r.0.dailyStopped <==>
            t.dailyStopped || (pnl < -0.5 && t.config.maxDailyLosses > 0 && r.0.dailyLosses >= t.config.maxDailyLosses))
    ensures r.0.(position := t.position, dailyPnl := t.dailyPnl, runningBalance := t.runningBalance,
                 totalTrades := t.totalTrades, wins := t.wins, losses := t.losses,
                 dailyLosses := t.dailyLosses, dailyStopped := t.dailyStopped) == t
  {
    var c := t.config;
    var pnl := LT.GrossPoints(p.direction, p.entryPrice, exitPrice);
    var o := LT.Classify(pnl, 0.5);
    var losses := t.dailyLosses + (if o == LT.Loss then 1 else 0);
    var stopped := t.dailyStopped || (o == LT.Loss && c.maxDailyLosses > 0 && losses >= c.maxDailyLosses);
    (t.(position := None, dailyPnl := t.dailyPnl + pnl,
        runningBalance := t.runningBalance + pnl * c.pointValue * c.contracts as real,
        totalTrades := t.totalTrades + 1,
        wins := t.wins + (if o == LT.Win then 1 else 0),
        losses := t.losses + (if o == LT.Loss then 1 else 0),
        dailyLosses := losses, dailyStopped := stopped),
     LT.Exit(p.direction, exitPrice, pnl, reason))
  }

  /**
   Step 2 of `process_bar`: the position advances (its trail only
   tightens), then exits at the stop, the target or the timeout, or
   reports its trailing stop.
   */
  function Manage(t: RithmicTrader, p: LT.OpenPosition, bar: Bar): (r: (RithmicTrader, LT.TradeAction))
    requires Valid(t)
    ensures Valid(r.0)
    ensures var q := LT.Advance(p, bar, t.gen.config.trailingStop);
      match LT.ExitOn(q, bar, t.gen.config.maxHoldBars)
      case None => r == (t.(position := Some(q)), LT.UpdateStop(q.trailingStop))
      case Some((price, reason)) => r == CloseTrade(t, q, price, reason)
  {
    var q := LT.Advance(p, bar, t.gen.config.trailingStop);
    match LT.ExitOn(q, bar, t.gen.config.maxHoldBars)
    case None => (t.(position := Some(q)), LT.UpdateStop(q.trailingStop))
    case Some((price, reason)) => CloseTrade(t, q, price, reason)
  }

  /**
   Step 3: flat, nothing pending, in hours and not stopped, the generator
   sees the bar and a signal it gives waits for the next bar; otherwise
   nothing happens and the generator does not see the bar.
   */
  function RequestSignal(t: RithmicTrader, bar: Bar, et: int -> (nat, nat)): (r: (RithmicTrader, Option<LT.TradeAction>))
    requires Valid(t)
    ensures Valid(r.0) && r.0 == t.(gen := r.0.gen, pending := r.0.pending)
    ensures r.0.gen != t.gen || r.1.Some? ==> ReadyForSignal(t)
    ensures ReadyForSignal(t) ==>
      var (g, s) := RetestSignals.ProcessBar(t.gen, bar, et);
      r.0.gen == g && r.0.pending == s && (r.1.Some? <==> s.Some?)
    ensures !ReadyForSignal(t) ==> r == (t, None)
    ensures r.1.Some? ==> r.1 == Some(LT.SignalPending)
  {
    if ReadyForSignal(t) then
      var (g, s) := RetestSignals.ProcessBar(t.gen, bar, et);
      if s.Some? then (t.(gen := g, pending := s), Some(LT.SignalPending))
      else (t.(gen := g), None)
    else (t, None)
  }

  /** The conditions under which `process_bar` asks the generator for a signal. */
  predicate ReadyForSignal(t: RithmicTrader)
  {
    t.position.None? && t.pending.None? && t.isTradingHours && !t.dailyStopped
  }

  /**
   Steps 1 to 3 on a running day: a pending signal is consumed, and
   entered at the bar's open only in hours; else an open position is
   managed; else a signal may be requested. The stopped-day test inside
   step 1 cannot fire, since a stopped day never gets this far.
   */
  function Proceed(t: RithmicTrader, bar: Bar, et: int -> (nat, nat)): (r: (RithmicTrader, Option<LT.TradeAction>))
    requires Valid(t) && !t.dailyStopped
    ensures Valid(r.0) && r.0.config == t.config && r.0.barCount == t.barCount
    ensures r.0.totalTrades >= t.totalTrades
    ensures t.pending.Some? ==>
      var s := t.pending.value;
      r.0.pending.None? && r.0.gen == t.gen && r.0.totalTrades == t.totalTrades
      && (t.isTradingHours ==>
            r.0.position == Some(LT.Open(t.config, s, bar))
            && r.1 == Some(LT.Enter(s.direction, bar.open, r.0.position.value.initialStop,
                                    r.0.position.value.takeProfit, t.config.contracts)))
      && (!t.isTradingHours ==> r == (t.(pending := None), None))
    ensures t.pending.None? && t.position.Some? ==>
      r.0.gen == t.gen && r.1 == Some(Manage(t, t.position.value, bar).1) && r.0 == Manage(t, t.position.value, bar).0
    ensures IsFlat(t) ==> r == RequestSignal(t, bar, et)
  {
    match t.pending
    case Some(s) =>
      var t1 := t.(pending := None);
      if !t1.isTradingHours then (t1, None)
      else
        var p := LT.Open(t.config, s, bar);
        (t1.(position := Some(p)), Some(LT.Enter(s.direction, bar.open, p.initialStop, p.takeProfit, t.config.contracts)))
    case None =>
      match t.position
      case Some(p) =>
        var (t1, action) := Manage(t, p, bar);
        (t1, Some(action))
      case None => RequestSignal(t, bar, et)
  }

  /** The hours check of `check_trading_hours`, on the local wall clock. */
  function CheckTradingHours(t: RithmicTrader, now: (nat, nat)): (r: RithmicTrader)
    ensures r.isTradingHours <==> InTradingHours(t.gen.config, now.0, now.1)
    ensures r == t.(isTradingHours := r.isTradingHours)
  {
    t.(isTradingHours := InTradingHours(t.gen.config, now.0, now.1))
  }

  /**
   `process_bar`: the bar is counted and the hours refreshed; a stopped
   day does nothing more; a day whose points reach minus the loss limit
   stops and flattens; otherwise steps 1 to 3.
   */
  function ProcessBar(t: RithmicTrader, bar: Bar, now: (nat, nat), et: int -> (nat, nat)): (r: (RithmicTrader, Option<LT.TradeAction>))
    requires Valid(t)
    ensures Valid(r.0) && r.0.config == t.config && r.0.barCount == t.barCount + 1
    ensures r.0.totalTrades >= t.totalTrades
    ensures t.dailyStopped ==> r == (CheckTradingHours(t, now).(barCount := t.barCount + 1), None)
    ensures !t.dailyStopped && t.dailyPnl <= -t.config.dailyLossLimit ==>
      r == (CheckTradingHours(t, now).(barCount := t.barCount + 1, dailyStopped := true), Some(LT.FlattenAll))
    ensures r.0.gen != t.gen || r.1 == Some(LT.SignalPending) ==>
      IsFlat(t) && InTradingHours(t.gen.config, now.0, now.1) && !t.dailyStopped
      && t.dailyPnl > -t.config.dailyLossLimit
  {
    var t1 := CheckTradingHours(t, now).(barCount := t.barCount + 1);
    if t1.dailyStopped then (t1, None)
    else if t1.dailyPnl <= -t1.config.dailyLossLimit then
      (t1.(dailyStopped := true), Some(LT.FlattenAll))
    else Proceed(t1, bar, et)
  }

  /** The trader after a run of bars, each with its local clock reading. */
  function Run(t: RithmicTrader, bars: seq<Bar>, clock: seq<(nat, nat)>, et: int -> (nat, nat)): (r: RithmicTrader)
    requires Valid(t) && |clock| == |bars|
    ensures Valid(r) && r.config == t.config && r.barCount == t.barCount + |bars|
    decreases |bars|
  {
    if |bars| == 0 then t
    else ProcessBar(Run(t, bars[..|bars| - 1], clock[..|bars| - 1], et), bars[|bars| - 1], clock[|bars| - 1], et).0
  }

  /**
   A stopped day stays stopped and silent: however many bars follow, no
   trade is taken, no signal requested, and the position and pending
   signal are left as they were, until `reset_daily`.
   */
  lemma {:induction false} StoppedDayStaysStopped(t: RithmicTrader, bars: seq<Bar>, clock: seq<(nat, nat)>, et: int -> (nat, nat))
    requires Valid(t) && t.dailyStopped && |clock| == |bars|
    ensures var r := Run(t, bars, clock, et);
      r.dailyStopped && r.totalTrades == t.totalTrades && r.gen == t.gen
      && r.position == t.position && r.pending == t.pending && r.runningBalance == t.runningBalance
    decreases |bars|
  {
    if |bars| > 0 {
      var n := |bars| - 1;
      StoppedDayStaysStopped(t, bars[..n], clock[..n], et);
    }
  }

  /**
   Every bar of a run is counted once, and a trade once closed is never
   uncounted: the totals only grow.
   */
  lemma {:induction false} RunTotalsGrow(t: RithmicTrader, bars: seq<Bar>, clock: seq<(nat, nat)>, et: int -> (nat, nat))
    requires Valid(t) && |clock| == |bars|
    ensures var r := Run(t, bars, clock, et);
      r.totalTrades >= t.totalTrades && r.wins + r.losses <= r.totalTrades
    decreases |bars|
  {
    if |bars| > 0 {
      var n := |bars| - 1;
      RunTotalsGrow(t, bars[..n], clock[..n], et);
    }
  }

  // ---------------------------------------------------------------------
  // Orders

  datatype OrderManager = OrderManager(
    symbol: string, exchange: string, tickSize: real,
    orderCounter: nat, bracketId: Option<string>, stopId: Option<string>)

  function NewOrderManager(symbol: string, exchange: string, tickSize: real): (m: OrderManager)
    ensures m.orderCounter == 0 && m.bracketId.None? && m.stopId.None?
    ensures m.symbol == symbol && m.exchange == exchange && m.tickSize == tickSize
  {
    OrderManager(symbol, exchange, tickSize, 0, None, None)
  }

  const OrderIdPrefix: string := "LVN_"

  /** The number inside a local order id `LVN_<n>`, if the text has that shape. */
  function OrderNumber(id: string): (r: Option<nat>)
    ensures r.Some? ==> |id| > |OrderIdPrefix| && id[..|OrderIdPrefix|] == OrderIdPrefix
  {
    if |id| > |OrderIdPrefix| && id[..|OrderIdPrefix|] == OrderIdPrefix && AllDigits(id[|OrderIdPrefix|..])
    then Some(DigitsValue(id[|OrderIdPrefix|..]))
    else None
  }

  /** `next_order_id`: the counter steps up and the id carries its new value. */
  function NextOrderId(m: OrderManager): (r: (OrderManager, string))
    ensures OrderNumber(r.1) == Some(r.0.orderCounter) && r.0.orderCounter == m.orderCounter + 1
    ensures r.0 == m.(orderCounter := r.0.orderCounter)
  {
    var n := m.orderCounter + 1;
    var id := OrderIdPrefix + NatToString(n);
    assert id[..|OrderIdPrefix|] == OrderIdPrefix && id[|OrderIdPrefix|..] == NatToString(n);
    NatToStringRoundTrip(n);
    (m.(orderCounter := n), id)
  }

  /** The ids of `k` successive calls to `next_order_id`, with the manager after them. */
  function IssueIds(m: OrderManager, k: nat): (r: (OrderManager, seq<string>))
    ensures |r.1| == k && r.0 == m.(orderCounter := m.orderCounter + k)
    decreases k
  {
    if k == 0 then (m, [])
    else
      var (m1, ids) := IssueIds(m, k - 1);
      var (m2, id) := NextOrderId(m1);
      (m2, ids + [id])
  }

  /** Local ids are `LVN_1`, `LVN_2`, …: the i-th of a run carries the counter plus i + 1, so no id repeats. */
  lemma {:induction false} IssuedIdsIncrease(m: OrderManager, k: nat)
    ensures forall i :: 0 <= i < k ==> OrderNumber(IssueIds(m, k).1[i]) == Some(m.orderCounter + i + 1)
    ensures forall i, j :: 0 <= i < j < k ==> IssueIds(m, k).1[i] != IssueIds(m, k).1[j]
    decreases k
  {
    if k > 0 {
      IssuedIdsIncrease(m, k - 1);
      var (m1, prev) := IssueIds(m, k - 1);
      var ids := IssueIds(m, k).1;
      assert ids == prev + [NextOrderId(m1).1];
      forall i | 0 <= i < k
        ensures OrderNumber(ids[i]) == Some(m.orderCounter + i + 1)
      {
        if i < k - 1 {
          assert ids[i] == prev[i];
        }
      }
      forall i, j | 0 <= i < j < k
        ensures ids[i] != ids[j]
      {
        assert OrderNumber(ids[i]) != OrderNumber(ids[j]);
      }
    }
  }

  const I32Min: int := -0x8000_0000
  const I32Max: int := 0x7FFF_FFFF

  /** Rust's float-to-`i32` cast saturates at the type's bounds. */
  function SaturateI32(x: int): (r: int)
    ensures I32Min <= r <= I32Max
    ensures I32Min <= x <= I32Max ==> r == x
    ensures x < I32Min ==> r == I32Min
    ensures x > I32Max ==> r == I32Max
  {
    if x < I32Min then I32Min else if x > I32Max then I32Max else x
  }

  /**
   `price_to_ticks`: the price over the tick size, rounded half away from
   zero and cast to `i32`. Over a zero tick the quotient is an infinity
   (saturating to a bound) or, for a zero price, not a number (cast to 0).
   */
  function PriceToTicks(price: real, tick: real): (r: int)
    ensures I32Min <= r <= I32Max
    ensures tick != 0.0 ==> r == SaturateI32(Round(price / tick))
    ensures tick == 0.0 ==> r == (if price > 0.0 then I32Max else if price < 0.0 then I32Min else 0)
    ensures (price >= 0.0 && tick >= 0.0) ==> r >= 0
  {
    if tick == 0.0 then (if price > 0.0 then I32Max else if price < 0.0 then I32Min else 0)
    else
      var q := price / tick;
      if price >= 0.0 && tick > 0.0 then
        assert q >= 0.0;
        SaturateI32(Round(q))
      else SaturateI32(Round(q))
  }

  /** A tick count inside the `i32` range is within half a tick of the price. */
  lemma TicksWithinHalfTick(price: real, tick: real)
    requires tick > 0.0 && I32Min <= Round(price / tick) <= I32Max
    ensures Abs(PriceToTicks(price, tick) as real * tick - price) <= tick / 2.0
  {
    var q := price / tick;
    var n := Round(q);
    assert price == q * tick;
    assert n as real * tick - price == (n as real - q) * tick;
    AbsScale(n as real - q, tick);
  }

  lemma AbsScale(x: real, k: real)
    requires k > 0.0 && Abs(x) <= 0.5
    ensures Abs(x * k) <= k / 2.0
  {
    if x >= 0.0 {
      assert x * k <= 0.5 * k;
    } else {
      assert -x * k <= 0.5 * k;
    }
  }

  /** The Rithmic bracket request: action 1 buys and 2 sells, a day order at market. */
  datatype BracketOrder = BracketOrder(
    action: nat, duration: nat, exchange: string, localId: string, orderType: nat,
    price: Option<real>, profitTicks: int, qty: int, stopTicks: int, symbol: string)

  /** The basket id the last bracket response carried, or the one already tracked. */
  function LastBasket(baskets: seq<Option<string>>, current: Option<string>): (r: Option<string>)
    ensures (forall i :: 0 <= i < |baskets| ==> baskets[i].None?) ==> r == current
    ensures |baskets| > 0 && baskets[|baskets| - 1].Some? ==> r == baskets[|baskets| - 1]
    ensures r == current || exists i :: 0 <= i < |baskets| && r == baskets[i]
    decreases |baskets|
  {
    if |baskets| == 0 then current
    else
      var last := baskets[|baskets| - 1];
      if last.Some? then last else LastBasket(baskets[..|baskets| - 1], current)
  }

  /**
   `submit_bracket_order`: a new local id, the stop and profit offsets as
   tick counts of the absolute distances from the entry, and the bracket
   id taken from the broker's responses (each the basket id of a bracket
   response, if any); a rejected order leaves the tracked ids as they were.
   */
  function SubmitBracket(m: OrderManager, direction: Direction, contracts: int, entry: real, stop: real, target: real,
                         reply: Result<seq<Option<string>>>): (r: (OrderManager, BracketOrder, Result<()>))
    ensures OrderNumber(r.1.localId) == Some(r.0.orderCounter) && r.0.orderCounter == m.orderCounter + 1
    ensures r.1.stopTicks == PriceToTicks(Abs(entry - stop), m.tickSize)
    ensures r.1.profitTicks == PriceToTicks(Abs(target - entry), m.tickSize)
    ensures m.tickSize >= 0.0 ==> r.1.stopTicks >= 0 && r.1.profitTicks >= 0
    ensures (r.1.action == 1 <==> direction == Long) && (r.1.action == 2 <==> direction == Short)
    ensures r.1.duration == 2 && r.1.orderType == 2 && r.1.price.None? && r.1.qty == contracts
    ensures r.1.symbol == m.symbol && r.1.exchange == m.exchange
    ensures r.2.Ok? <==> reply.Ok?
    ensures reply.Err? ==> r.0.bracketId == m.bracketId
    ensures reply.Ok? ==> r.0.bracketId == LastBasket(reply.value, m.bracketId)
    ensures r.0.stopId == m.stopId && r.0.symbol == m.symbol && r.0.tickSize == m.tickSize
  {
    var (m1, id) := NextOrderId(m);
    var order := BracketOrder(if direction == Long then 1 else 2, 2, m.exchange, id, 2, None,
                              PriceToTicks(Abs(target - entry), m.tickSize), contracts,
                              PriceToTicks(Abs(entry - stop), m.tickSize), m.symbol);
    match reply
    case Err(e) => (m1, order, Err(e))
    case Ok(baskets) => (m1.(bracketId := LastBasket(baskets, m1.bracketId)), order, Ok(()))
  }

  /** The offsets do not depend on which side of the entry the stop and target lie. */
  lemma BracketIgnoresSide(m: OrderManager, entry: real, d: real, e: real, reply: Result<seq<Option<string>>>)
    ensures var long := SubmitBracket(m, Long, 1, entry, entry - d, entry + e, reply).1;
      var short := SubmitBracket(m, Short, 1, entry, entry + d, entry - e, reply).1;
      long.stopTicks == short.stopTicks && long.profitTicks == short.profitTicks
  {
    assert Abs(entry - (entry - d)) == Abs(entry - (entry + d));
    assert Abs(entry + e - entry) == Abs(entry - e - entry);
  }

  /**
   `modify_stop`: nothing without a bracket; otherwise the request for
   the tracked bracket with the new stop's offset from the entry, counted
   toward the loss side (so a stop trailed past the entry gives a
   negative offset). A failed request is only logged; the manager never
   changes.
   */
  function ModifyStop(m: OrderManager, newStop: real, entry: real, direction: Direction): (r: Option<(string, int)>)
    ensures r.None? <==> m.bracketId.None?
    ensures r.Some? ==>
      r.value.0 == m.bracketId.value
      && r.value.1 == PriceToTicks(if direction == Long then entry - newStop else newStop - entry, m.tickSize)
  {
    if m.bracketId.None? then None
    else
      var distance := if direction == Long then entry - newStop else newStop - entry;
      Some((m.bracketId.value, PriceToTicks(distance, m.tickSize)))
  }

  /**
   A stop still on the loss side of the entry is moved to the same tick
   count a fresh bracket would give it; one trailed into profit gets a
   count of at most zero.
   */
  lemma ModifyStopAgreesWithBracket(m: OrderManager, newStop: real, entry: real, direction: Direction,
                                    reply: Result<seq<Option<string>>>)
    requires m.bracketId.Some? && m.tickSize > 0.0
    ensures var r := ModifyStop(m, newStop, entry, direction).value.1;
      var onLossSide := if direction == Long then newStop <= entry else newStop >= entry;
      (onLossSide ==> r == SubmitBracket(m, direction, 1, entry, newStop, entry, reply).1.stopTicks)
      && (!onLossSide ==> r <= 0)
  {
    var distance := if direction == Long then entry - newStop else newStop - entry;
    if distance < 0.0 {
      assert distance / m.tickSize < 0.0;
    }
  }

  /** A request `flatten_all` sends to the broker; failures are only logged. */
  datatype FlattenRequest = CancelAllOrders | ExitPosition(symbol: string, exchange: string)

  /** `clear_orders`: neither a bracket nor a stop is tracked any more. */
  function ClearOrders(m: OrderManager): (r: OrderManager)
    ensures r.bracketId.None? && r.stopId.None?
    ensures r == m.(bracketId := None, stopId := None)
  {
    m.(bracketId := None, stopId := None)
  }

  /** `flatten_all`: cancel every order, exit the position, and track nothing. */
  function FlattenAll(m: OrderManager): (r: (OrderManager, seq<FlattenRequest>))
    ensures r.0.bracketId.None? && r.0.stopId.None? && r.0.orderCounter == m.orderCounter
    ensures r.1 == [CancelAllOrders, ExitPosition(m.symbol, m.exchange)]
  {
    (m.(bracketId := None, stopId := None), [CancelAllOrders, ExitPosition(m.symbol, m.exchange)])
  }

  /** Flattening leaves the manager as clearing does, and a later stop move is a no-op. */
  lemma FlattenClears(m: OrderManager, newStop: real, entry: real, direction: Direction)
    ensures FlattenAll(m).0 == ClearOrders(m)
    ensures ModifyStop(FlattenAll(m).0, newStop, entry, direction).None?
    ensures ClearOrders(ClearOrders(m)) == ClearOrders(m)
  {
  }
}
