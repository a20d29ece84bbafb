/**
 The broker-agnostic live trader (`trading_core/trader.rs`): one-second
 bars drive the LVN retest signal generator, a signal is entered at the
 next bar's open, the position is managed with a trailing stop, a target
 and a timeout, and a day stops after a loss limit or too many losses.
 Replay runs the same trader over cached days.

 The New York wall clock is a parameter `et` giving a timestamp's hour and
 minute there; a bar's date is its UTC day (`date_naive`). A new
 impulse's UUID is a parameter `id`. The trader's own `BarAggregator` is
 `Market.Aggregate`; the breakout state machine is `BreakoutMachine`.
 */
module LiveTrading {
  import opened Base
  import opened Market
  import opened Impulse
  import opened Lvn
  import opened Stats
  import opened RetestSignals
  import BreakoutMachine

  datatype LiveConfig = LiveConfig(
    symbol: string, exchange: string, contracts: int,
    takeProfit: real, trailingStop: real, stopBuffer: real,
    startHour: nat, startMinute: nat, endHour: nat, endMinute: nat,
    minDelta: int, maxLvnRatio: real, levelTolerance: real,
    startingBalance: real, maxDailyLosses: int, dailyLossLimit: real,
    pointValue: real, slippage: real, commission: real)

  /**
   `to_lvn_config`: the flat fields carry over; the retest distance (8),
   absorption range (1.5), hold (300 bars) and cooldowns (60 and 600 bars)
   are fixed, and the stop buffer serves as both stops.
   */
  function ToLvnConfig(c: LiveConfig): (r: RetestConfig)
    ensures r.retestDistance == 8.0 && r.maxRangeForAbsorption == 1.5 && r.maxHoldBars == 300
    ensures r.cooldownBars == 60 && r.levelCooldownBars == 600
    ensures r.rthOnly && !r.sameDayOnly && r.minAbsorptionBars == 1
    ensures r.levelTolerance == c.levelTolerance && r.minDeltaForAbsorption == c.minDelta
    ensures r.stopLoss == c.stopBuffer && r.structureStopBuffer == c.stopBuffer
    ensures r.takeProfit == c.takeProfit && r.trailingStop == c.trailingStop && r.maxLvnVolumeRatio == c.maxLvnRatio
    ensures r.tradeStartHour == c.startHour && r.tradeStartMinute == c.startMinute
    ensures r.tradeEndHour == c.endHour && r.tradeEndMinute == c.endMinute
  {
    RetestConfig(c.levelTolerance, 8.0, c.minDelta, 1.5, c.stopBuffer, c.takeProfit, c.trailingStop,
                 300, true, 60, 600, c.maxLvnRatio, false, 1, c.stopBuffer,
                 c.startHour, c.startMinute, c.endHour, c.endMinute)
  }

  datatype OpenPosition = OpenPosition(
    direction: Direction, entryPrice: real, entryTime: int, levelPrice: real,
    initialStop: real, takeProfit: real, trailingStop: real,
    highestPrice: real, lowestPrice: real, barCount: nat)

  /** Running results over all days. */
  datatype Tally = Tally(
    totalTrades: nat, wins: nat, losses: nat, breakevens: nat,
    runningBalance: real, peakBalance: real, maxDrawdown: real,
    grossProfit: real, grossLoss: real, tradePnls: seq<real>,
    totalCommission: real, totalSlippage: real)

  /** The current day's counters. */
  datatype Daily = Daily(
    dailyLosses: nat, dailyPnl: real, dailyStopped: bool,
    currentDate: Option<int>, daysStoppedEarly: nat)

  datatype Trader = Trader(
    config: LiveConfig, gen: Generator,
    pending: Option<LvnSignal>, position: Option<OpenPosition>,
    machine: Option<BreakoutMachine.Machine>, useMachine: bool,
    tally: Tally, daily: Daily,
    isTradingHours: bool, barCount: nat, signalsSkipped: nat,
    tradeImpulseId: Option<nat>)

  datatype ExitReason = StopExit | TargetExit | TimeoutExit

  datatype TradeAction =
    | Enter(direction: Direction, price: real, stop: real, target: real, contracts: int)
    | Exit(direction: Direction, price: real, pnlPoints: real, reason: ExitReason)
    | UpdateStop(newStop: real)
    | SignalPending
    | FlattenAll

  /**
   The counts add up, gross profit and loss are non-negative and positive
   exactly when there is a win or a loss, and the drawdown is non-negative.
   */
  predicate TallyOk(s: Tally)
  {
    s.totalTrades == s.wins + s.losses + s.breakevens
    && s.grossProfit >= 0.0 && s.grossLoss >= 0.0 && s.maxDrawdown >= 0.0
    && (s.grossProfit > 0.0 <==> s.wins > 0)
    && (s.grossLoss > 0.0 <==> s.losses > 0)
  }

  /** What every trader built by `new` and kept by the operations satisfies. */
  predicate Valid(t: Trader)
  {
    Ascending(t.gen.levels) && t.gen.config == ToLvnConfig(t.config)
    && (t.machine.Some? ==> BreakoutMachine.Valid(t.machine.value))
    && TallyOk(t.tally)
  }

  function NewTally(balance: real): (s: Tally)
    ensures TallyOk(s) && s.totalTrades == 0 && s.runningBalance == balance && s.peakBalance == balance
  {
    Tally(0, 0, 0, 0, balance, balance, 0.0, 0.0, 0.0, [], 0.0, 0.0)
  }

  /** `new`: flat, no signal, no machine, the starting balance as balance and peak. */
  function NewTrader(c: LiveConfig): (t: Trader)
    ensures Valid(t) && t.position.None? && t.pending.None? && t.machine.None? && !t.useMachine
    ensures t.tally.runningBalance == c.startingBalance && t.tally.peakBalance == c.startingBalance
    ensures !t.daily.dailyStopped && t.daily.currentDate.None? && t.signalsSkipped == 0
  {
    Trader(c, NewGenerator(ToLvnConfig(c)), None, None, None, false, NewTally(c.startingBalance),
           Daily(0, 0.0, false, None, 0), false, 0, 0, None)
  }

  /** `new_with_state_machine`: the same trader with a fresh breakout machine switched on. */
  function NewTraderWithMachine(c: LiveConfig, mc: BreakoutMachine.MachineConfig): (t: Trader)
    ensures Valid(t) && t.useMachine && t.machine == Some(BreakoutMachine.NewMachine(mc))
    ensures t.(machine := None, useMachine := false) == NewTrader(c)
  {
    NewTrader(c).(machine := Some(BreakoutMachine.NewMachine(mc)), useMachine := true)
  }

  /** `set_daily_levels`: the levels go to the breakout machine, if there is one; nothing else changes. */
  function SetDailyLevels(t: Trader, levels: BreakoutMachine.LiveDailyLevels): (r: Trader)
    requires Valid(t)
    ensures Valid(r) && r.(machine := t.machine) == t
    ensures t.machine.None? ==> r == t
    ensures t.machine.Some? ==> r.machine.Some? && r.machine.value.dailyLevels == Some(levels)
  {
    match t.machine
    case None => t
    case Some(m) => t.(machine := Some(BreakoutMachine.SetDailyLevels(m, levels)))
  }

  /**
   `process_trade`: a trade reaches the breakout machine, if there is one,
   whose active impulse collects it; nothing else changes.
   */
  function ProcessTrade(t: Trader, trade: Trade): (r: Trader)
    requires Valid(t)
    ensures Valid(r) && r.(machine := t.machine) == t
    ensures t.machine.None? || t.machine.value.activeImpulse.None? ==> r == t
    ensures t.machine.Some? && t.machine.value.activeImpulse.Some? ==>
      r.machine.Some? && r.machine.value.activeImpulse.Some?
      && r.machine.value.activeImpulse.value.trades == t.machine.value.activeImpulse.value.trades + [trade]
  {
    match t.machine
    case None => t
    case Some(m) => t.(machine := Some(BreakoutMachine.ProcessTrade(m, trade)))
  }

  // ---------------------------------------------------------------------
  // Days and hours

  /** `check_date_change`: on a new date the day's counters restart, and a stopped day is counted. */
  function CheckDateChange(d: Daily, date: int): (r: Daily)
    ensures d.currentDate == Some(date) ==> r == d
    ensures d.currentDate != Some(date) ==>
      r.currentDate == Some(date) && r.dailyLosses == 0 && r.dailyPnl == 0.0 && !r.dailyStopped
      && r.daysStoppedEarly == d.daysStoppedEarly + (if d.dailyStopped then 1 else 0)
  {
    if d.currentDate != Some(date) then
      Daily(0, 0.0, false, Some(date), d.daysStoppedEarly + (if d.dailyStopped then 1 else 0))
    else d
  }

  /** `reset_daily`: the day's counters restart without being counted. */
  function ResetDaily(d: Daily): (r: Daily)
    ensures r.dailyLosses == 0 && r.dailyPnl == 0.0 && !r.dailyStopped
    ensures r.currentDate == d.currentDate && r.daysStoppedEarly == d.daysStoppedEarly
  {
    d.(dailyLosses := 0, dailyPnl := 0.0, dailyStopped := false)
  }

  // ---------------------------------------------------------------------
  // Entering

  /**
   A pending signal entered at the bar's open: the stop sits the buffer
   beyond the level, the target the take-profit beyond the entry, and the
   trailing stop starts at the stop.
   */
  function Open(c: LiveConfig, s: LvnSignal, bar: Bar): (p: OpenPosition)
    ensures p.direction == s.direction && p.entryPrice == bar.open && p.levelPrice == s.levelPrice
    ensures p.initialStop == (if s.direction == Long then s.levelPrice - c.stopBuffer else s.levelPrice + c.stopBuffer)
    ensures p.takeProfit == (if s.direction == Long then bar.open + c.takeProfit else bar.open - c.takeProfit)
    ensures p.trailingStop == p.initialStop && p.highestPrice == bar.open && p.lowestPrice == bar.open
    ensures p.barCount == 0
  {
    var stop := if s.direction == Long then s.levelPrice - c.stopBuffer else s.levelPrice + c.stopBuffer;
    var target := if s.direction == Long then bar.open + c.takeProfit else bar.open - c.takeProfit;
    OpenPosition(s.direction, bar.open, bar.ts, s.levelPrice, stop, target, stop, bar.open, bar.open, 0)
  }

  // ---------------------------------------------------------------------
  // Managing a position

  /** The position after a bar: one bar older, its extremes widened, the trail moved only to tighten. */
  function Advance(p: OpenPosition, bar: Bar, trail: real): (r: OpenPosition)
    ensures r.barCount == p.barCount + 1
    ensures r.highestPrice == Max(p.highestPrice, bar.high) && r.lowestPrice == Min(p.lowestPrice, bar.low)
    ensures p.direction == Long ==> r.trailingStop >= p.trailingStop
    ensures p.direction == Short ==> r.trailingStop <= p.trailingStop
    ensures r.trailingStop == p.trailingStop
            || (p.direction == Long && r.trailingStop == r.highestPrice - trail && r.highestPrice >= p.entryPrice + trail)
            || (p.direction == Short && r.trailingStop == r.lowestPrice + trail && r.lowestPrice <= p.entryPrice - trail)
    ensures r.(barCount := p.barCount, highestPrice := p.highestPrice, lowestPrice := p.lowestPrice,
               trailingStop := p.trailingStop) == p
  {
    var hi := Max(p.highestPrice, bar.high);
    var lo := Min(p.lowestPrice, bar.low);
    var ts :=
      match p.direction
      case Long => if hi >= p.entryPrice + trail && hi - trail > p.trailingStop then hi - trail else p.trailingStop
      case Short => if lo <= p.entryPrice - trail && lo + trail < p.trailingStop then lo + trail else p.trailingStop;
    p.(barCount := p.barCount + 1, highestPrice := hi, lowestPrice := lo, trailingStop := ts)
  }

  /** The bar reached the stop: its low for a long, its high for a short. */
  predicate StopTouched(p: OpenPosition, bar: Bar)
  {
    if p.direction == Long then bar.low <= p.trailingStop else bar.high >= p.trailingStop
  }

  /** The bar reached the target. */
  predicate TargetTouched(p: OpenPosition, bar: Bar)
  {
    if p.direction == Long then bar.high >= p.takeProfit else bar.low <= p.takeProfit
  }

  /**
   The exit a bar gives, if any: the stop is checked before the target,
   both fill at their own price, and otherwise the position times out at
   the close once it has been held `max_hold_bars` bars.
   */
  function ExitOn(p: OpenPosition, bar: Bar, maxHold: nat): (r: Option<(real, ExitReason)>)
    ensures StopTouched(p, bar) ==> r == Some((p.trailingStop, StopExit))
    ensures !StopTouched(p, bar) && TargetTouched(p, bar) ==> r == Some((p.takeProfit, TargetExit))
    ensures r.None? <==> !StopTouched(p, bar) && !TargetTouched(p, bar) && p.barCount < maxHold
    ensures r.Some? && r.value.1 == TimeoutExit ==> r.value.0 == bar.close
  {
    if StopTouched(p, bar) then Some((p.trailingStop, StopExit))
    else if TargetTouched(p, bar) then Some((p.takeProfit, TargetExit))
    else if p.barCount >= maxHold then Some((bar.close, TimeoutExit))
    else None
  }

  /** Points gained: the move from entry to exit, in the trade's direction. */
  function GrossPoints(d: Direction, entry: real, exit: real): real
  {
    if d == Long then exit - entry else entry - exit
  }

  /** Wins are above half a point, losses below minus half a point, the rest breakeven. */
  datatype Outcome = Win | Loss | Breakeven

  function Classify(pnl: real, band: real): (o: Outcome)
    ensures o == Win <==> pnl > band
    ensures o == Loss <==> pnl < -band && pnl <= band
    ensures o == Breakeven <==> -band <= pnl <= band
  {
    if pnl > band then Win else if pnl < -band then Loss else Breakeven
  }

  /** A closed trade counted into the tally under its outcome. */
  function Count(s: Tally, pnl: real, o: Outcome): (r: Tally)
    requires TallyOk(s)
    requires o == Win ==> pnl > 0.0
    requires o == Loss ==> pnl < 0.0
    ensures TallyOk(r)
    ensures r.totalTrades == s.totalTrades + 1
    ensures r.grossProfit == s.grossProfit + (if o == Win then pnl else 0.0)
    ensures r.grossLoss == s.grossLoss + (if o == Loss then -pnl else 0.0)
    ensures r.wins == s.wins + (if o == Win then 1 else 0) && r.losses == s.losses + (if o == Loss then 1 else 0)
    ensures r.breakevens == s.breakevens + (if o == Breakeven then 1 else 0)
    ensures r.(totalTrades := s.totalTrades, wins := s.wins, losses := s.losses, breakevens := s.breakevens,
               grossProfit := s.grossProfit, grossLoss := s.grossLoss) == s
  {
    match o
    case Win => s.(totalTrades := s.totalTrades + 1, wins := s.wins + 1, grossProfit := s.grossProfit + pnl)
    case Loss => s.(totalTrades := s.totalTrades + 1, losses := s.losses + 1, grossLoss := s.grossLoss + Abs(pnl))
    case Breakeven => s.(totalTrades := s.totalTrades + 1, breakevens := s.breakevens + 1)
  }

  /**
   The balance after a closed trade: the new balance raises the peak if
   it is higher, and the drawdown from the peak raises the maximum.
   */
  function Book(s: Tally, pnlPoints: real, pnlDollars: real, slip: real, commission: real): (r: Tally)
    requires TallyOk(s)
    ensures TallyOk(r)
    ensures r.runningBalance == s.runningBalance + pnlDollars
    ensures r.peakBalance >= r.runningBalance && r.peakBalance >= s.peakBalance
    ensures r.maxDrawdown >= s.maxDrawdown && r.maxDrawdown >= r.peakBalance - r.runningBalance
    ensures r.tradePnls == s.tradePnls + [pnlPoints]
    ensures r.totalSlippage == s.totalSlippage + slip && r.totalCommission == s.totalCommission + commission
    ensures r.(runningBalance := s.runningBalance, peakBalance := s.peakBalance, maxDrawdown := s.maxDrawdown,
               tradePnls := s.tradePnls, totalSlippage := s.totalSlippage, totalCommission := s.totalCommission) == s
  {
    var balance := s.runningBalance + pnlDollars;
    var peak := if balance > s.peakBalance then balance else s.peakBalance;
    var dd := peak - balance;
    s.(runningBalance := balance, peakBalance := peak,
       maxDrawdown := if dd > s.maxDrawdown then dd else s.maxDrawdown,
       tradePnls := s.tradePnls + [pnlPoints],
       totalSlippage := s.totalSlippage + slip, totalCommission := s.totalCommission + commission)
  }

  /** The points a trade books: the gross move less slippage on entry and on exit. */
  function NetPoints(c: LiveConfig, p: OpenPosition, exitPrice: real): (pnl: real)
    ensures pnl == GrossPoints(p.direction, p.entryPrice, exitPrice) - 2.0 * c.slippage
  {
    GrossPoints(p.direction, p.entryPrice, exitPrice) - c.slippage * 2.0
  }

  /**
   An exit: the trade is booked in points and in dollars less commission,
   counted as win, loss or breakeven by half a point, and a loss that
   reaches a positive `max_daily_losses` stops the day. In state-machine
   mode the levels of the trade's impulse are cleared and the machine
   reset.
   */
  function CloseTrade(t: Trader, p: OpenPosition, exitPrice: real, reason: ExitReason): (r: (Trader, TradeAction))
    requires Valid(t)
    ensures r.0.config == t.config
    ensures Valid(r.0) && r.0.position.None?
    ensures var pnl := NetPoints(t.config, p, exitPrice);
      r.1 == Exit(p.direction, exitPrice, pnl, reason)
      && r.0.daily.dailyPnl == t.daily.dailyPnl + pnl
      && r.0.tally.totalTrades == t.tally.totalTrades + 1
      && r.0.tally.tradePnls == t.tally.tradePnls + [pnl]
      && r.0.tally.peakBalance >= r.0.tally.runningBalance && r.0.tally.maxDrawdown >= t.tally.maxDrawdown
      && (pnl > 0.5 ==> r.0.tally.wins == t.tally.wins + 1 && r.0.daily.dailyLosses == t.daily.dailyLosses)
      && (pnl < -0.5 ==> r.0.tally.losses == t.tally.losses + 1 && r.0.daily.dailyLosses == t.daily.dailyLosses + 1)
      && (-0.5 <= pnl <= 0.5 ==> r.0.tally.breakevens == t.tally.breakevens + 1 && r.0.daily.dailyLosses == t.daily.dailyLosses)
      && (r.0.daily.dailyStopped <==>
            t.daily.dailyStopped || (pnl < -0.5 && t.config.maxDailyLosses > 0 && r.0.daily.dailyLosses >= t.config.maxDailyLosses))
    ensures r.0.pending == t.pending && r.0.signalsSkipped == t.signalsSkipped
    ensures r.0.daily.currentDate == t.daily.currentDate && r.0.daily.daysStoppedEarly == t.daily.daysStoppedEarly
  {
    var c := t.config;
    var pnl := NetPoints(c, p, exitPrice);
    var slip := c.slippage * 2.0;
    var commission := c.commission * c.contracts as real;
    var dollars := pnl * c.pointValue * c.contracts as real - commission;
    var o := Classify(pnl, 0.5);
    var tally := Count(Book(t.tally, pnl, dollars, slip, commission), pnl, o);
    var losses := t.daily.dailyLosses + (if o == Loss then 1 else 0);
    var stopped := t.daily.dailyStopped || (o == Loss && c.maxDailyLosses > 0 && losses >= c.maxDailyLosses);
    var daily := t.daily.(dailyPnl := t.daily.dailyPnl + pnl, dailyLosses := losses, dailyStopped := stopped);
    var t1 := t.(tally := tally, daily := daily, position := None);
    var t2 :=
      if t.useMachine && t.tradeImpulseId.Some? then
        t1.(gen := t1.gen.(levels := ClearImpulse(t1.gen.levels, t.tradeImpulseId.value)),
            machine := if t1.machine.Some? then Some(BreakoutMachine.Reset(t1.machine.value)) else None,
            tradeImpulseId := None)
      else t1;
    (t2, Exit(p.direction, exitPrice, pnl, reason))
  }

  /**
   Step 2 of `process_bar`, with a position open: advance it, and either
   exit or report the (possibly tightened) trailing stop.
   */
  function Manage(t: Trader, p: OpenPosition, bar: Bar): (r: (Trader, TradeAction))
    requires Valid(t)
    ensures r.0.config == t.config
    ensures Valid(r.0)
    ensures var q := Advance(p, bar, t.gen.config.trailingStop);
      match ExitOn(q, bar, t.gen.config.maxHoldBars)
      case None => r == (t.(position := Some(q)), UpdateStop(q.trailingStop))
      case Some((price, reason)) => r == CloseTrade(t, q, price, reason)
  {
    var q := Advance(p, bar, t.gen.config.trailingStop);
    match ExitOn(q, bar, t.gen.config.maxHoldBars)
    case None => (t.(position := Some(q)), UpdateStop(q.trailingStop))
    case Some((price, reason)) => CloseTrade(t, q, price, reason)
  }

  // ---------------------------------------------------------------------
  // The state machine and the signal generator

  /** The impulse tag of the tracked level under a key, if the level exists and carries one. */
  function LevelImpulseId(levels: Book, key: int): Option<nat>
  {
    match Lookup(levels, key)
    case None => None
    case Some(l) => l.impulseId
  }

  /**
   The machine's part of `process_bar`: a completed impulse hands its
   nodes to the generator tagged with its id, and a hunting timeout
   clears the nodes of the machine's impulse.
   */
  function MachineStep(t: Trader, bar: Bar, id: nat): (r: Trader)
    requires Valid(t)
    ensures Valid(r)
    ensures !t.useMachine || t.machine.None? ==> r == t
    ensures r.(gen := t.gen, machine := t.machine) == t
  {
    if !t.useMachine || t.machine.None? then t
    else
      var (m, tr) := BreakoutMachine.ProcessBar(t.machine.value, bar, id);
      var levels :=
        match tr
        case Some(ImpulseComplete(impulseId, _, _)) =>
          AddLevels(t.gen.config, t.gen.levels, m.activeLvns, (l: LvnLevel) => impulseId).0
        case Some(HuntingTimeout) =>
          if m.activeImpulse.Some? then ClearImpulse(t.gen.levels, m.activeImpulse.value.id) else t.gen.levels
        case _ => t.gen.levels;
      t.(machine := Some(m), gen := t.gen.(levels := levels))
  }

  /**
   Step 3 of `process_bar`, given what the generator made of the bar: its
   signal becomes pending when the trader is flat, has nothing pending,
   is in hours and is not stopped, and the trade remembers the impulse of
   the signal's level.
   */
  function TakeSignal(t: Trader, g: Generator, signal: Option<LvnSignal>): (r: (Trader, Option<TradeAction>))
    requires Valid(t) && Ascending(g.levels) && g.config == t.gen.config
    ensures Valid(r.0) && r.0.gen == g
    ensures r.1.Some? <==>
      signal.Some? && t.position.None? && t.pending.None? && t.isTradingHours && !t.daily.dailyStopped
    ensures r.1.Some? ==>
      r.1 == Some(SignalPending) && r.0.pending == signal
      && r.0.tradeImpulseId == LevelImpulseId(g.levels, Trunc(signal.value.levelPrice * 10.0))
    ensures r.0.(gen := t.gen, pending := t.pending, tradeImpulseId := t.tradeImpulseId) == t
    ensures r.1.None? ==> r.0 == t.(gen := g)
  {
    if signal.Some? && t.position.None? && t.pending.None? && t.isTradingHours && !t.daily.dailyStopped then
      var key := Trunc(signal.value.levelPrice * 10.0);
      (t.(gen := g, tradeImpulseId := LevelImpulseId(g.levels, key), pending := signal), Some(SignalPending))
    else (t.(gen := g), None)
  }

  // ---------------------------------------------------------------------
  // One bar

  /** The bar counted, the date checked and the hours taken from the bar's Eastern time. */
  function Housekeep(t: Trader, bar: Bar, et: int -> (nat, nat)): (r: Trader)
    requires Valid(t)
    ensures Valid(r)
    ensures r.barCount == t.barCount + 1 && r.daily == CheckDateChange(t.daily, DayOf(bar.ts))
    ensures r.isTradingHours == InTradingHours(t.gen.config, et(bar.ts).0, et(bar.ts).1)
    ensures r.(barCount := t.barCount, daily := t.daily, isTradingHours := t.isTradingHours) == t
  {
    t.(barCount := t.barCount + 1, daily := CheckDateChange(t.daily, DayOf(bar.ts)),
       isTradingHours := InTradingHours(t.gen.config, et(bar.ts).0, et(bar.ts).1))
  }

  /**
   Steps 1 to 3 of `process_bar`, on a running day after the machine has
   seen the bar: a pending signal is entered at the open (or dropped out
   of hours), else an open position is managed, else the generator looks
   for a signal. The stopped-day check inside step 1 cannot fire, since a
   stopped day never gets this far.
   */
  function Proceed(t: Trader, bar: Bar, et: int -> (nat, nat)): (r: (Trader, Option<TradeAction>))
    requires Valid(t) && !t.daily.dailyStopped
    ensures r.0.config == t.config
    ensures Valid(r.0)
    ensures r.0.barCount == t.barCount && r.0.signalsSkipped == t.signalsSkipped
    ensures r.0.tally.maxDrawdown >= t.tally.maxDrawdown && r.0.tally.totalTrades >= t.tally.totalTrades
    ensures r.0.daily.daysStoppedEarly == t.daily.daysStoppedEarly && r.0.daily.currentDate == t.daily.currentDate
    ensures t.pending.Some? ==>
      r.0.pending.None? && r.0.daily == t.daily
      && (t.isTradingHours ==>
            r.0.position == Some(Open(t.config, t.pending.value, bar))
            && r.1 == Some(Enter(t.pending.value.direction, bar.open, r.0.position.value.initialStop,
                                 r.0.position.value.takeProfit, t.config.contracts)))
      && (!t.isTradingHours ==> r.1.None? && r.0.position == t.position)
    ensures t.pending.None? && t.position.Some? ==> r.1.Some? && r == (Manage(t, t.position.value, bar).0, Some(Manage(t, t.position.value, bar).1))
  {
    match t.pending
    case Some(s) =>
      var t1 := t.(pending := None);
      if t1.daily.dailyStopped then assert false; (t1, None)
      else if !t1.isTradingHours then (t1, None)
      else
        var p := Open(t.config, s, bar);
        (t1.(position := Some(p)), Some(Enter(s.direction, bar.open, p.initialStop, p.takeProfit, t.config.contracts)))
    case None =>
      match t.position
      case Some(p) =>
        var (t1, action) := Manage(t, p, bar);
        (t1, Some(action))
      case None =>
        var (g, signal) := RetestSignals.ProcessBar(t.gen, bar, et);
        TakeSignal(t, g, signal)
  }

  /**
   `process_bar`, after the housekeeping: nothing on a stopped day; at the
   loss limit, stop and flatten; otherwise the machine runs and then
   `Proceed`.
   */
  function Act(t: Trader, bar: Bar, et: int -> (nat, nat), id: nat): (r: (Trader, Option<TradeAction>))
    requires Valid(t)
    ensures r.0.config == t.config
    ensures Valid(r.0)
    ensures r.0.barCount == t.barCount && r.0.signalsSkipped == t.signalsSkipped
    ensures r.0.tally.maxDrawdown >= t.tally.maxDrawdown && r.0.tally.totalTrades >= t.tally.totalTrades
    ensures r.0.daily.daysStoppedEarly == t.daily.daysStoppedEarly && r.0.daily.currentDate == t.daily.currentDate
    ensures t.daily.dailyStopped ==> r == (t, None)
    ensures !t.daily.dailyStopped && t.daily.dailyPnl <= -t.config.dailyLossLimit ==>
      r == (t.(daily := t.daily.(dailyStopped := true)), Some(FlattenAll))
    ensures !t.daily.dailyStopped && t.daily.dailyPnl > -t.config.dailyLossLimit ==>
      r == Proceed(MachineStep(t, bar, id), bar, et)
  {
    if t.daily.dailyStopped then (t, None)
    else if t.daily.dailyPnl <= -t.config.dailyLossLimit then
      (t.(daily := t.daily.(dailyStopped := true)), Some(FlattenAll))
    else Proceed(MachineStep(t, bar, id), bar, et)
  }

  /** `process_bar`. */
  function ProcessBar(t: Trader, bar: Bar, et: int -> (nat, nat), id: nat): (r: (Trader, Option<TradeAction>))
    requires Valid(t)
    ensures r.0.config == t.config
    ensures Valid(r.0) && r.0.barCount == t.barCount + 1
    ensures r.0.tally.maxDrawdown >= t.tally.maxDrawdown
    ensures r.0.tally.totalTrades >= t.tally.totalTrades
    ensures r.0.signalsSkipped == t.signalsSkipped
    ensures r.0.daily.currentDate == Some(DayOf(bar.ts))
    ensures r.0.daily.daysStoppedEarly ==
              t.daily.daysStoppedEarly + (if t.daily.dailyStopped && t.daily.currentDate != Some(DayOf(bar.ts)) then 1 else 0)
  {
    var t1 := Housekeep(t, bar, et);
    Act(t1, bar, et, id)
  }

  /** Once the day is stopped, its remaining bars do nothing but count. */
  lemma StoppedDayIsSilent(t: Trader, bar: Bar, et: int -> (nat, nat), id: nat)
    requires Valid(t) && t.daily.dailyStopped && t.daily.currentDate == Some(DayOf(bar.ts))
    ensures ProcessBar(t, bar, et, id).1.None?
    ensures ProcessBar(t, bar, et, id).0 == Housekeep(t, bar, et)
  {
  }

  /**
   A pending signal is entered at the next bar's open on a running day in
   hours: the stop is the buffer beyond the level, the target the
   take-profit beyond the entry, and nothing is left pending.
   */
  lemma PendingEnteredAtOpen(t: Trader, bar: Bar, et: int -> (nat, nat), id: nat)
    requires Valid(t) && t.pending.Some? && !t.daily.dailyStopped
    requires t.daily.currentDate == Some(DayOf(bar.ts)) && t.daily.dailyPnl > -t.config.dailyLossLimit
    requires InTradingHours(t.gen.config, et(bar.ts).0, et(bar.ts).1)
    ensures var r := ProcessBar(t, bar, et, id);
      var s := t.pending.value;
      var stop := if s.direction == Long then s.levelPrice - t.config.stopBuffer else s.levelPrice + t.config.stopBuffer;
      var target := if s.direction == Long then bar.open + t.config.takeProfit else bar.open - t.config.takeProfit;
      r.1 == Some(Enter(s.direction, bar.open, stop, target, t.config.contracts))
      && r.0.pending.None? && r.0.position.Some? && r.0.position.value.trailingStop == stop
  {
    var t1 := Housekeep(t, bar, et);
    var t2 := MachineStep(t1, bar, id);
    assert t2.pending == t.pending && t2.isTradingHours && t2.config == t.config;
  }

  /** The first bar of a new date lifts the stop: the old day is counted and the new day starts clean. */
  lemma NewDateLiftsStop(t: Trader, bar: Bar, et: int -> (nat, nat), id: nat)
    requires Valid(t) && t.daily.dailyStopped && t.daily.currentDate != Some(DayOf(bar.ts))
    requires t.config.dailyLossLimit > 0.0
    ensures var r := ProcessBar(t, bar, et, id);
      r.0.daily.daysStoppedEarly == t.daily.daysStoppedEarly + 1 && r.1 != Some(FlattenAll)
  {
    var t1 := Housekeep(t, bar, et);
    assert !t1.daily.dailyStopped && t1.daily.dailyPnl == 0.0;
  }

  // ---------------------------------------------------------------------
  // End of day in replay

  /**
   The end-of-day close of `reset_for_new_day`: the position closes at the
   last price (or its entry), without slippage or commission, counted a
   win above one point and a loss below minus one point; neither the
   per-trade list nor the peak and drawdown see it.
   */
  function EodClose(c: LiveConfig, s: Tally, p: OpenPosition, lastPrice: Option<real>): (r: Tally)
    requires TallyOk(s)
    ensures TallyOk(r)
    ensures var pnl := GrossPoints(p.direction, p.entryPrice, if lastPrice.Some? then lastPrice.value else p.entryPrice);
      r.totalTrades == s.totalTrades + 1
      && r.runningBalance == s.runningBalance + pnl * c.pointValue * c.contracts as real
      && (pnl > 1.0 ==> r.wins == s.wins + 1 && r.grossProfit == s.grossProfit + pnl)
      && (pnl < -1.0 ==> r.losses == s.losses + 1 && r.grossLoss == s.grossLoss - pnl)
      && (-1.0 <= pnl <= 1.0 ==> r.breakevens == s.breakevens + 1)
      && r.tradePnls == s.tradePnls && r.peakBalance == s.peakBalance && r.maxDrawdown == s.maxDrawdown
  {
    var exit := if lastPrice.Some? then lastPrice.value else p.entryPrice;
    var pnl := GrossPoints(p.direction, p.entryPrice, exit);
    Count(s.(runningBalance := s.runningBalance + pnl * c.pointValue * c.contracts as real), pnl, Classify(pnl, 1.0))
  }

  /**
   `reset_for_new_day` as written: any open position is closed by
   `EodClose`; the pending signal, trade impulse, levels and machine are
   cleared and the day's counters reset without counting a stopped day.
   */
  function ResetForNewDayAsWritten(t: Trader, lastPrice: Option<real>): (r: Trader)
    requires Valid(t)
    ensures r.config == t.config
    ensures Valid(r) && r.position.None? && r.pending.None? && r.tradeImpulseId.None?
    ensures r.gen == ClearLevels(t.gen) && !r.daily.dailyStopped && r.daily.dailyPnl == 0.0
    ensures r.daily.daysStoppedEarly == t.daily.daysStoppedEarly && r.daily.currentDate == t.daily.currentDate
    ensures r.tally == if t.position.Some? then EodClose(t.config, t.tally, t.position.value, lastPrice) else t.tally
    ensures r.machine.Some? <==> t.machine.Some?
    ensures r.machine.Some? ==> r.machine.value == BreakoutMachine.ResetForNewDay(t.machine.value)
  {
    var tally := if t.position.Some? then EodClose(t.config, t.tally, t.position.value, lastPrice) else t.tally;
    t.(position := None, tally := tally, pending := None, tradeImpulseId := None,
       gen := ClearLevels(t.gen), daily := ResetDaily(t.daily),
       machine := if t.machine.Some? then Some(BreakoutMachine.ResetForNewDay(t.machine.value)) else None)
  }

  /**
   A day stopped in replay is never counted: the end-of-day reset clears
   the stop, so the next date's check sees a running day.
   */
  lemma ReplayLosesStoppedDay(t: Trader, bar: Bar, et: int -> (nat, nat))
    requires Valid(t) && t.daily.dailyStopped && t.daily.currentDate.Some?
    requires t.daily.currentDate != Some(DayOf(bar.ts))
    ensures Housekeep(ResetForNewDayAsWritten(t, None), bar, et).daily.daysStoppedEarly == t.daily.daysStoppedEarly
  {
  }

  /** `reset_for_new_day` counting a stopped day before the counters reset, as the date check does. */
  function ResetForNewDay(t: Trader, lastPrice: Option<real>): (r: Trader)
    requires Valid(t)
    ensures Valid(r) && r.position.None? && r.pending.None? && r.tradeImpulseId.None?
    ensures r.gen == ClearLevels(t.gen) && !r.daily.dailyStopped && r.daily.dailyPnl == 0.0
    ensures r.daily.daysStoppedEarly == t.daily.daysStoppedEarly + (if t.daily.dailyStopped then 1 else 0)
    ensures r.(daily := t.daily) == ResetForNewDayAsWritten(t, lastPrice).(daily := t.daily)
  {
    var r := ResetForNewDayAsWritten(t, lastPrice);
    r.(daily := r.daily.(daysStoppedEarly := t.daily.daysStoppedEarly + (if t.daily.dailyStopped then 1 else 0)))
  }

  /** With the correction every stopped day is counted exactly once, by the reset or by the date check. */
  lemma ReplayCountsStoppedDay(t: Trader, bar: Bar, et: int -> (nat, nat))
    requires Valid(t) && t.daily.dailyStopped
    ensures Housekeep(ResetForNewDay(t, None), bar, et).daily.daysStoppedEarly == t.daily.daysStoppedEarly + 1
  {
  }

  // ---------------------------------------------------------------------
  // Summary

  datatype TradingSummary = TradingSummary(
    totalTrades: nat, wins: nat, losses: nat, breakevens: nat,
    winRate: real, profitFactor: Ratio,
    grossPnl: real, totalSlippage: real, totalCommission: real, netPnl: real,
    avgWin: real, avgLoss: real, maxDrawdown: real, finalBalance: real,
    daysStoppedEarly: nat, signalsSkipped: nat, sharpeRatio: real)

  function Square(x: real): (r: real)
    ensures r >= 0.0
  {
    if x >= 0.0 then x * x else (-x) * (-x)
  }

  /** The population variance of the per-trade points about `mean`, over `n` trades. */
  function SquaredDeviations(ps: seq<real>, mean: real): (r: real)
    ensures r >= 0.0
  {
    if |ps| == 0 then 0.0
    else SquaredDeviations(ps[..|ps| - 1], mean) + Square(ps[|ps| - 1] - mean)
  }

  /**
   The annualised Sharpe ratio of the per-trade points; `sqrt` is the
   square root, which is left abstract. Zero with at most one trade.
   */
  function Sharpe(total: nat, net: real, ps: seq<real>, sqrt: real -> real): (r: real)
    ensures total <= 1 || |ps| == 0 ==> r == 0.0
  {
    if total > 1 && |ps| > 0 then
      var mean := net / total as real;
      var sd := sqrt(SquaredDeviations(ps, mean) / total as real);
      if sd > 0.0 then mean / sd * sqrt(252.0) else 0.0
    else 0.0
  }

  /**
   `summary`: wins, losses and breakevens add up to the total; the win
   rate is 0 without trades; the profit factor follows the infinity/zero
   rule; the average loss is never positive; the net is profit less loss
   and the gross adds back the slippage; a day stopped now is counted.
   */
  function Summary(t: Trader, sqrt: real -> real): (r: TradingSummary)
    requires Valid(t)
    ensures r.totalTrades == r.wins + r.losses + r.breakevens
    ensures r.totalTrades == 0 ==> r.winRate == 0.0 && r.profitFactor == Finite(0.0) && r.avgWin == 0.0 && r.avgLoss == 0.0
    ensures r.profitFactor == Infinite <==> r.wins > 0 && r.losses == 0
    ensures r.profitFactor.Finite? && r.losses > 0 ==> r.profitFactor.r * t.tally.grossLoss == t.tally.grossProfit
    ensures r.avgLoss <= 0.0 && r.avgWin >= 0.0 && r.maxDrawdown >= 0.0
    ensures r.netPnl == t.tally.grossProfit - t.tally.grossLoss && r.grossPnl == r.netPnl + r.totalSlippage
    ensures r.totalTrades <= 1 ==> r.sharpeRatio == 0.0
    ensures r.daysStoppedEarly == t.daily.daysStoppedEarly + (if t.daily.dailyStopped then 1 else 0)
  {
    var s := t.tally;
    var net := s.grossProfit - s.grossLoss;
    var avgLoss := if s.losses > 0 then QuotientSign(s.grossLoss, s.losses); -(s.grossLoss / s.losses as real) else 0.0;
    var avgWin := if s.wins > 0 then QuotientSign(s.grossProfit, s.wins); s.grossProfit / s.wins as real else 0.0;
    TradingSummary(
      s.totalTrades, s.wins, s.losses, s.breakevens,
      WinRatePercent(s.wins, s.totalTrades), Factor(s.grossProfit, s.grossLoss),
      net + s.totalSlippage, s.totalSlippage, s.totalCommission, net,
      avgWin, avgLoss,
      s.maxDrawdown, s.runningBalance,
      t.daily.daysStoppedEarly + (if t.daily.dailyStopped then 1 else 0), t.signalsSkipped,
      Sharpe(s.totalTrades, net, s.tradePnls, sqrt))
  }
}
