/**
 The execution engine (`execution/engine.rs`): the guards on a new
 signal, the simulated entry fill, stop and target triggers, and the
 sticky daily-limit flags.

 The broker connection is assumed always to succeed, so its calls do not
 appear; the UUIDs of brackets and orders come from a counter the engine
 carries; broadcast events are not modelled.
 */
module Engine {
  import opened Base
  import opened Orders
  import opened Positions
  import opened Settings

  datatype Engine = Engine(cfg: ExecutionConfig, pm: Manager, dailyLossLimitHit: bool, maxLossesHit: bool, nextId: nat)

  datatype Signal = Signal(side: OrderSide, lvnLevel: real, currentPrice: real, delta: real)

  /** `ExecutionEngine::with_balance` (and `new` with 50000). */
  function NewEngine(cfg: ExecutionConfig, startingBalance: real): (e: Engine)
    ensures !e.dailyLossLimitHit && !e.maxLossesHit && e.pm.brackets == [] && e.pm.netPosition == 0
    ensures IdsBelow(e)
  {
    Engine(cfg, NewManager(cfg.symbol, startingBalance, cfg.pointValue), false, false, 0)
  }

  /** Every tracked bracket got its id before the counter's current value, so the next id is fresh. */
  predicate IdsBelow(e: Engine)
  {
    forall i :: 0 <= i < |e.pm.brackets| ==> e.pm.brackets[i].id < e.nextId
  }

  /** `is_trading_stopped`. */
  predicate IsTradingStopped(e: Engine)
  {
    e.dailyLossLimitHit || e.maxLossesHit
  }

  /**
   `simulate_entry_fill`: record the fill on the bracket with the id, then
   place its stop and target; a missing bracket is an error.
   */
  function SimulateEntryFill(e: Engine, id: nat, price: real): (r: Result<Engine>)
    ensures r.Err? <==> FindBracket(e.pm.brackets, id).None?
    ensures r.Ok? ==>
              var i := FindBracket(e.pm.brackets, id).value;
              var b := e.pm.brackets[i];
              |r.value.pm.brackets| == |e.pm.brackets|
              && r.value.pm.netPosition == e.pm.netPosition + SignedQuantity(b.entry.side, b.entry.quantity)
              && r.value.pm.brackets[i] == SetExitOrders(b.(entryPrice := Some(price)), price, e.cfg.takeProfit, e.cfg.stopBuffer, e.nextId, e.nextId + 1)
              && (forall j :: 0 <= j < |e.pm.brackets| && j != i ==> r.value.pm.brackets[j] == e.pm.brackets[j])
    ensures r.Ok? ==> r.value == e.(pm := r.value.pm, nextId := e.nextId + 2)
  {
    match FindBracket(e.pm.brackets, id)
    case None => Err("Bracket not found")
    case Some(i) =>
      var b := e.pm.brackets[i];
      var pm := RecordEntryFill(e.pm, id, price, b.entry.quantity, b.entry.side);
      var placed := SetExitOrders(pm.brackets[i], price, e.cfg.takeProfit, e.cfg.stopBuffer, e.nextId, e.nextId + 1);
      Ok(e.(pm := pm.(brackets := pm.brackets[i := placed]), nextId := e.nextId + 2))
  }

  /** The guards `execute_signal` checks before it places anything. */
  predicate Refuses(e: Engine, quantity: int)
  {
    e.dailyLossLimitHit || e.maxLossesHit || IntAbs(e.pm.netPosition) + quantity > e.cfg.maxPositionSize
  }

  /** The bracket `execute_signal` creates for a signal, with the next two ids. */
  function SignalBracket(e: Engine, s: Signal, quantity: int): (b: Bracket)
    ensures b.id == e.nextId && IsLong(b) == (s.side == Buy) && b.lvnLevel == s.lvnLevel
    ensures b.state == PendingEntry && b.entry.quantity == quantity && b.entryPrice == None
  {
    NewBracket(e.nextId, e.nextId + 1, e.cfg.symbol, e.cfg.exchange, s.side, quantity, s.lvnLevel)
  }

  /**
   `execute_signal`: refused while either daily flag is set or when the
   position would exceed the maximum size; otherwise a bracket on the
   signal's side is tracked and, in simulation, filled at the current
   price at once.
   */
  function ExecuteSignal(e: Engine, s: Signal, quantity: int): (r: Result<(Engine, nat)>)
    ensures r.Err? <==> Refuses(e, quantity)
    ensures r.Ok? ==> r.value.1 == e.nextId && |r.value.0.pm.brackets| == |e.pm.brackets| + 1
    ensures r.Ok? ==> r.value.0.cfg == e.cfg && !IsTradingStopped(r.value.0)
    ensures r.Ok? && e.cfg.mode != Simulation ==>
              r.value.0 == e.(pm := AddBracket(e.pm, SignalBracket(e, s, quantity)), nextId := e.nextId + 2)
  {
    if e.dailyLossLimitHit then Err("Daily loss limit already reached, no new trades")
    else if e.maxLossesHit then Err("Max daily losses reached, no new trades")
    else if IntAbs(e.pm.netPosition) + quantity > e.cfg.maxPositionSize then Err("Would exceed max position size")
    else
      var id := e.nextId;
      var tracked := e.(pm := AddBracket(e.pm, SignalBracket(e, s, quantity)), nextId := id + 2);
      if e.cfg.mode == Simulation then
        assert tracked.pm.brackets[|e.pm.brackets|].id == id;
        match SimulateEntryFill(tracked, id, s.currentPrice)
        case Ok(filled) => Ok((filled, id))
        case Err(msg) => Err(msg)
      else Ok((tracked, id))
  }

  /**
   With fresh ids, a simulated signal opens the position at once: the new
   bracket is last, carries the signal's id, is open at the current price
   and has its stop the buffer beyond the LVN level.
   */
  lemma SimulatedSignalOpensPosition(e: Engine, s: Signal, quantity: int)
    requires IdsBelow(e) && e.cfg.mode == Simulation && !Refuses(e, quantity)
    ensures ExecuteSignal(e, s, quantity).Ok?
    ensures var (f, id) := ExecuteSignal(e, s, quantity).value;
            |e.pm.brackets| < |f.pm.brackets| && f.pm.brackets[|e.pm.brackets|].id == id
    ensures var x := ExecuteSignal(e, s, quantity).value.0.pm.brackets[|e.pm.brackets|];
            x.state == PositionOpen && x.entryPrice == Some(s.currentPrice)
            && StopPrice(x) == Some(if s.side == Buy then s.lvnLevel - e.cfg.stopBuffer else s.lvnLevel + e.cfg.stopBuffer)
  {
    var b := SignalBracket(e, s, quantity);
    var tracked := e.(pm := AddBracket(e.pm, b), nextId := e.nextId + 2);
    FreshBracketFound(e, b);
    var f := SimulateEntryFill(tracked, e.nextId, s.currentPrice).value;
    SimulatedExecution(e, s, quantity, f);
    FilledSignalFacts(e, tracked, b, f, s.currentPrice);
    var x := f.pm.brackets[|e.pm.brackets|];
    OpenedSignalBracket(e, s, quantity, x);
    assert ExecuteSignal(e, s, quantity).value == (f, e.nextId);
  }

  /** The signal's bracket after its simulated entry fill: open at the fill price, its stop the buffer beyond the LVN level. */
  lemma OpenedSignalBracket(e: Engine, s: Signal, quantity: int, x: Bracket)
    requires x == SetExitOrders(SignalBracket(e, s, quantity).(entryPrice := Some(s.currentPrice)), s.currentPrice,
                                e.cfg.takeProfit, e.cfg.stopBuffer, e.nextId + 2, e.nextId + 3)
    ensures x.state == PositionOpen && x.entryPrice == Some(s.currentPrice)
    ensures StopPrice(x) == Some(if s.side == Buy then s.lvnLevel - e.cfg.stopBuffer else s.lvnLevel + e.cfg.stopBuffer)
  {
    var b := SignalBracket(e, s, quantity);
    assert IsLong(b.(entryPrice := Some(s.currentPrice))) == (s.side == Buy);
  }

  /** A bracket with the next id, appended to brackets whose ids are all below it, is found at the end. */
  lemma FreshBracketFound(e: Engine, b: Bracket)
    requires IdsBelow(e) && b.id == e.nextId
    ensures FindBracket(e.pm.brackets + [b], e.nextId) == Some(|e.pm.brackets|)
  {
    var bs := e.pm.brackets + [b];
    assert bs[|e.pm.brackets|].id == e.nextId;
    forall j | 0 <= j < |e.pm.brackets|
      ensures bs[j].id != e.nextId
    {
      assert bs[j] == e.pm.brackets[j];
    }
  }

  /** In simulation, an accepted signal's result is the simulated fill of the freshly tracked bracket. */
  lemma SimulatedExecution(e: Engine, s: Signal, quantity: int, f: Engine)
    requires e.cfg.mode == Simulation && !Refuses(e, quantity)
    requires SimulateEntryFill(e.(pm := AddBracket(e.pm, SignalBracket(e, s, quantity)), nextId := e.nextId + 2), e.nextId, s.currentPrice) == Ok(f)
    ensures ExecuteSignal(e, s, quantity) == Ok((f, e.nextId))
  {
    assert !e.dailyLossLimitHit && !e.maxLossesHit && IntAbs(e.pm.netPosition) + quantity <= e.cfg.maxPositionSize;
  }

  /** The simulated fill of the freshly tracked bracket `b`, at index `n`, in detail. */
  lemma FilledSignalFacts(e: Engine, tracked: Engine, b: Bracket, f: Engine, price: real)
    requires IdsBelow(e) && b.id == e.nextId && b.state == PendingEntry
    requires tracked == e.(pm := AddBracket(e.pm, b), nextId := e.nextId + 2)
    requires FindBracket(tracked.pm.brackets, e.nextId) == Some(|e.pm.brackets|)
    requires SimulateEntryFill(tracked, e.nextId, price) == Ok(f)
    ensures var n := |e.pm.brackets|;
            n < |f.pm.brackets| && f.pm.brackets[..n] == e.pm.brackets && f.pm.brackets[n].id == b.id
            && f.pm.netPosition == e.pm.netPosition + SignedQuantity(b.entry.side, b.entry.quantity)
            && f.pm.brackets[n] == SetExitOrders(b.(entryPrice := Some(price)), price, e.cfg.takeProfit, e.cfg.stopBuffer, tracked.nextId, tracked.nextId + 1)
            && IdsBelow(f)
  {
    var n := |e.pm.brackets|;
    assert tracked.pm.brackets[n] == b;
    assert f.pm.brackets[..n] == e.pm.brackets;
  }

  datatype ExitKind = StopExit | TargetExit

  datatype ExitTrigger = ExitTrigger(id: nat, price: real, kind: ExitKind)

  /** Whether a price reaches a stop (at or below for a long, at or above for a short). */
  predicate StopHit(long: bool, price: real, stop: real)
  {
    if long then price <= stop else price >= stop
  }

  predicate TargetHit(long: bool, price: real, target: real)
  {
    if long then price >= target else price <= target
  }

  /** The exit one open bracket takes at a price: its stop first, then its target. */
  function ExitFor(b: Bracket, price: real): (r: Option<ExitTrigger>)
    ensures r.Some? ==> b.state == PositionOpen && r.value.id == b.id
    ensures r.Some? && r.value.kind == StopExit <==>
              b.state == PositionOpen && StopPrice(b).Some? && StopHit(IsLong(b), price, StopPrice(b).value)
    ensures r.Some? && r.value.kind == TargetExit ==>
              TargetPrice(b).Some? && TargetHit(IsLong(b), price, TargetPrice(b).value)
              && !(StopPrice(b).Some? && StopHit(IsLong(b), price, StopPrice(b).value))
    ensures r.Some? ==> r.value.price == if r.value.kind == StopExit then StopPrice(b).value else TargetPrice(b).value
  {
    if b.state != PositionOpen then None
    else if StopPrice(b).Some? && StopHit(IsLong(b), price, StopPrice(b).value) then Some(ExitTrigger(b.id, StopPrice(b).value, StopExit))
    else if TargetPrice(b).Some? && TargetHit(IsLong(b), price, TargetPrice(b).value) then Some(ExitTrigger(b.id, TargetPrice(b).value, TargetExit))
    else None
  }

  /** `check_exit_triggers`: at most one exit per open bracket, in bracket order. */
  function CheckExitTriggers(bs: seq<Bracket>, price: real): (r: seq<ExitTrigger>)
    ensures |r| <= |bs|
    ensures forall k :: 0 <= k < |r| ==> exists i :: 0 <= i < |bs| && ExitFor(bs[i], price) == Some(r[k])
  {
    if |bs| == 0 then []
    else
      var rest := CheckExitTriggers(bs[1..], price);
      assert forall k :: 0 <= k < |rest| ==> exists i :: 0 <= i < |bs| && ExitFor(bs[i], price) == Some(rest[k]) by {
        forall k | 0 <= k < |rest| ensures exists i :: 0 <= i < |bs| && ExitFor(bs[i], price) == Some(rest[k]) {
          var i :| 0 <= i < |bs[1..]| && ExitFor(bs[1..][i], price) == Some(rest[k]);
          assert bs[i + 1] == bs[1..][i];
        }
      }
      match ExitFor(bs[0], price)
      case None => rest
      case Some(x) => [x] + rest
  }

  /** Every bracket that has an exit at the price appears among the triggers. */
  lemma {:induction false} CheckExitTriggersComplete(bs: seq<Bracket>, price: real, i: nat)
    requires i < |bs| && ExitFor(bs[i], price).Some?
    ensures ExitFor(bs[i], price).value in CheckExitTriggers(bs, price)
  {
    if i > 0 {
      assert bs[1..][i - 1] == bs[i];
      CheckExitTriggersComplete(bs[1..], price, i - 1);
    }
  }

  /** `check_daily_limit`: each flag is raised by its own condition and, once raised, stays raised. */
  function CheckDailyLimit(e: Engine): (r: Engine)
    ensures r.dailyLossLimitHit == (e.dailyLossLimitHit || e.pm.daily.grossPnl <= -e.cfg.dailyLossLimit)
    ensures r.maxLossesHit == (e.maxLossesHit || e.pm.daily.losses >= e.cfg.maxDailyLosses)
    ensures r == e.(dailyLossLimitHit := r.dailyLossLimitHit, maxLossesHit := r.maxLossesHit)
  {
    var e1 := if e.pm.daily.grossPnl <= -e.cfg.dailyLossLimit then e.(dailyLossLimitHit := true) else e;
    if e.pm.daily.losses >= e.cfg.maxDailyLosses then e1.(maxLossesHit := true) else e1
  }

  /** `process_exit_fill`: record the exit and, when it was recorded, re-check the daily limits. */
  function ProcessExitFill(e: Engine, id: nat, price: real): (r: Engine)
    ensures RecordExitFill(e.pm, id, price).1.None? ==> r == e
    ensures RecordExitFill(e.pm, id, price).1.Some? ==> r == CheckDailyLimit(e.(pm := RecordExitFill(e.pm, id, price).0))
  {
    var (pm, rec) := RecordExitFill(e.pm, id, price);
    if rec.Some? then CheckDailyLimit(e.(pm := pm)) else e
  }

  /** Once the flags are raised, every new signal is refused until the daily reset. */
  lemma StoppedEngineRefusesSignals(e: Engine, id: nat, price: real, s: Signal, quantity: int)
    requires RecordExitFill(e.pm, id, price).1.Some?
    requires RecordExitFill(e.pm, id, price).0.daily.grossPnl <= -e.cfg.dailyLossLimit
             || RecordExitFill(e.pm, id, price).0.daily.losses >= e.cfg.maxDailyLosses
    ensures IsTradingStopped(ProcessExitFill(e, id, price))
    ensures ExecuteSignal(ProcessExitFill(e, id, price), s, quantity).Err?
  {
  }

  /** `reset_daily`: a new day for the position manager and both flags lowered. */
  function ResetDaily(e: Engine): (r: Engine)
    ensures !IsTradingStopped(r)
    ensures r.pm == Positions.ResetDaily(e.pm) && r.cfg == e.cfg
  {
    e.(pm := Positions.ResetDaily(e.pm), dailyLossLimitHit := false, maxLossesHit := false)
  }

  /** `flatten_all`: the closing market order for a non-flat position (sell a long, buy a short); the tracked position itself is not changed. */
  function FlattenOrder(e: Engine): (r: Option<(OrderSide, nat)>)
    ensures r.None? <==> e.pm.netPosition == 0
    ensures r.Some? ==> r.value.1 == IntAbs(e.pm.netPosition) && (r.value.0 == Sell <==> e.pm.netPosition > 0)
  {
    if e.pm.netPosition == 0 then None
    else Some((if e.pm.netPosition > 0 then Sell else Buy, IntAbs(e.pm.netPosition)))
  }

  /** `update_trailing_stops`: every open bracket trails; no stop loosens. */
  function UpdateTrailingStops(bs: seq<Bracket>, price: real, trail: real): (r: (seq<Bracket>, seq<(nat, real)>))
    ensures |r.0| == |bs| && |r.1| <= |bs|
    ensures forall i :: 0 <= i < |bs| ==> Trailed(bs[i], r.0[i])
  {
    if |bs| == 0 then ([], [])
    else
      var rest := UpdateTrailingStops(bs[1..], price, trail);
      var (b1, moved) := TrailIfOpen(bs[0], price, trail);
      ([b1] + rest.0, if moved.Some? then [(bs[0].id, moved.value)] + rest.1 else rest.1)
  }

  /**
   What one pass may do to a bracket: keep its id, side and state, never
   loosen or drop its stop, and leave it untouched unless it is an open
   position.
   */
  predicate Trailed(b: Bracket, b1: Bracket)
  {
    && b1.id == b.id && IsLong(b1) == IsLong(b) && b1.state == b.state
    && (StopPrice(b).Some? ==> StopPrice(b1).Some? && NoLooser(IsLong(b), StopPrice(b1).value, StopPrice(b).value))
    && (b.state != PositionOpen ==> b1 == b)
  }

  /** One bracket's turn: an open position trails its stop, any other bracket is left as it is. */
  function TrailIfOpen(b: Bracket, price: real, trail: real): (r: (Bracket, Option<real>))
    ensures Trailed(b, r.0)
    ensures b.state != PositionOpen ==> r == (b, None)
  {
    if b.state != PositionOpen then (b, None) else UpdateTrailingStop(b, price, trail)
  }

  /** The tests' loss limit: a 15-point loss against a 10-point limit raises the flag and refuses the next signal. */
  lemma DailyLossLimitExample()
    ensures var cfg := DefaultConfig.(dailyLossLimit := 10.0);
            var s := Signal(Buy, 21500.0, 21505.0, 100.0);
            var r := ExecuteSignal(NewEngine(cfg, 50000.0), s, 1);
            r.Ok? && ProcessExitFill(r.value.0, r.value.1, 21490.0).dailyLossLimitHit
            && ExecuteSignal(ProcessExitFill(r.value.0, r.value.1, 21490.0), s, 1).Err?
  {
    var cfg := DefaultConfig.(dailyLossLimit := 10.0);
    var s := Signal(Buy, 21500.0, 21505.0, 100.0);
    var e := NewEngine(cfg, 50000.0);
    SimulatedSignalOpensPosition(e, s, 1);
    var r := ExecuteSignal(e, s, 1);
    var b := r.value.0.pm.brackets[0];
    assert FindBracket(r.value.0.pm.brackets, r.value.1) == Some(0);
    var u := UnrealizedPnl(b, 21490.0);
    assert u == Some(-15.0);
    var x := RecordExitFill(r.value.0.pm, r.value.1, 21490.0);
    assert x.1.Some? && x.1.value.pnlPoints == -15.0;
    assert x.0.daily.grossPnl == -15.0;
  }

  /** The tests' simulated long: one contract at 21505 off the 21500 LVN, stop 21498.5. */
  lemma ExecuteSignalExample()
    ensures var cfg := DefaultConfig.(takeProfit := 30.0, trailingStop := 6.0, stopBuffer := 1.5);
            var r := ExecuteSignal(NewEngine(cfg, 50000.0), Signal(Buy, 21500.0, 21505.0, 100.0), 1);
            r.Ok? && r.value.0.pm.netPosition == 1
            && r.value.0.pm.brackets[0].entryPrice == Some(21505.0) && StopPrice(r.value.0.pm.brackets[0]) == Some(21498.5)
  {
    var cfg := DefaultConfig.(takeProfit := 30.0, trailingStop := 6.0, stopBuffer := 1.5);
    SimulatedSignalOpensPosition(NewEngine(cfg, 50000.0), Signal(Buy, 21500.0, 21505.0, 100.0), 1);
  }
}
