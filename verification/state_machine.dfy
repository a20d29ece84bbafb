/**
 The breakout state machine (`pipeline/state_machine.rs`): wait for price
 to break a daily reference level, profile the impulse leg that follows,
 hunt for a retest of its low-volume nodes, then reset.

 The impulse builder is the real-time builder of `trading_core/impulse.rs`
 (module `Impulse`); the pipeline's own copy of that module is not part of
 this model. A new impulse's UUID is a parameter `id`.
 */
module BreakoutMachine {
  import opened Base
  import opened Market
  import opened Impulse
  import opened Lvn

  datatype MachineConfig = MachineConfig(
    breakoutThreshold: real, maxImpulseBars: nat, minImpulseSize: real,
    maxHuntingBars: nat, minImpulseScore: nat)

  /** Break by 2 points, profile for at most 300 bars, hunt for at most 600. */
  const DefaultMachineConfig := MachineConfig(2.0, 300, 30.0, 600, 4)

  datatype TradingState = WaitingForBreakout | ProfilingImpulse | Hunting | Resetting

  datatype BreakoutLevel = PDH | PDL | ONH | ONL | VAH | VAL

  datatype LiveDailyLevels = LiveDailyLevels(
    date: int, pdh: real, pdl: real, onh: real, onl: real, vah: real, val: real,
    sessionHigh: real, sessionLow: real)

  // ---------------------------------------------------------------------
  // Breakouts

  /** The order in which the levels are tested: prior day, overnight, value area. */
  function Rank(k: BreakoutLevel): nat
  {
    match k
    case PDH => 0
    case PDL => 1
    case ONH => 2
    case ONL => 3
    case VAH => 4
    case VAL => 5
  }

  /** Highs break upwards, lows downwards. */
  function BreakDirection(k: BreakoutLevel): ImpulseDirection
  {
    match k
    case PDH => Up
    case ONH => Up
    case VAH => Up
    case _ => Down
  }

  /**
   Price is beyond level `k` by more than the threshold in the level's
   direction; an overnight level of zero (no overnight session) is never
   broken.
   */
  predicate Broken(l: LiveDailyLevels, k: BreakoutLevel, price: real, threshold: real)
  {
    match k
    case PDH => price > l.pdh + threshold
    case PDL => price < l.pdl - threshold
    case ONH => l.onh > 0.0 && price > l.onh + threshold
    case ONL => l.onl > 0.0 && price < l.onl - threshold
    case VAH => price > l.vah + threshold
    case VAL => price < l.val - threshold
  }

  /** `k` is broken and no level ranked ahead of it is. */
  predicate FirstBroken(l: LiveDailyLevels, k: BreakoutLevel, price: real, threshold: real)
  {
    Broken(l, k, price, threshold)
    && forall j :: Rank(j) < Rank(k) ==> !Broken(l, j, price, threshold)
  }

  /** `check_breakout`: the first broken level in priority order, with its direction. */
  function CheckBreakout(l: LiveDailyLevels, price: real, threshold: real): (r: Option<(BreakoutLevel, ImpulseDirection)>)
    ensures r.None? <==> forall k :: !Broken(l, k, price, threshold)
    ensures r.Some? ==> FirstBroken(l, r.value.0, price, threshold) && r.value.1 == BreakDirection(r.value.0)
  {
    if price > l.pdh + threshold then
      assert Broken(l, PDH, price, threshold);
      Some((PDH, Up))
    else if price < l.pdl - threshold then
      assert Broken(l, PDL, price, threshold);
      Some((PDL, Down))
    else if l.onh > 0.0 && price > l.onh + threshold then
      assert Broken(l, ONH, price, threshold);
      Some((ONH, Up))
    else if l.onl > 0.0 && price < l.onl - threshold then
      assert Broken(l, ONL, price, threshold);
      Some((ONL, Down))
    else if price > l.vah + threshold then
      assert Broken(l, VAH, price, threshold);
      Some((VAH, Up))
    else if price < l.val - threshold then
      assert Broken(l, VAL, price, threshold);
      Some((VAL, Down))
    else
      None
  }

  /** The level tests: 21503 breaks the 21500 high, 21397 the 21400 low, 21450 nothing. */
  lemma BreakoutExamples()
    ensures var l := LiveDailyLevels(0, 21500.0, 21400.0, 0.0, 0.0, 21480.0, 21420.0, 21500.0, 21400.0);
      CheckBreakout(l, 21503.0, 2.0) == Some((PDH, Up))
      && CheckBreakout(l, 21397.0, 2.0) == Some((PDL, Down))
      && CheckBreakout(l, 21450.0, 2.0) == None
  {
  }

  // ---------------------------------------------------------------------
  // The machine

  datatype ActiveImpulse = ActiveImpulse(
    id: nat, direction: ImpulseDirection, brokenLevel: BreakoutLevel,
    builder: ImpulseBuilder, trades: seq<Trade>, startBarIdx: nat)

  datatype InvalidReason = TimedOut(elapsed: nat) | Retraced

  datatype Transition =
    | BreakoutDetected(level: BreakoutLevel, direction: ImpulseDirection, price: real)
    | ImpulseComplete(impulseId: nat, lvnCount: nat, direction: ImpulseDirection)
    | ImpulseInvalid(reason: InvalidReason)
    | HuntingTimeout
    | ResetDone

  datatype Machine = Machine(
    config: MachineConfig, state: TradingState,
    dailyLevels: Option<LiveDailyLevels>,
    activeImpulse: Option<ActiveImpulse>,
    activeLvns: seq<LvnLevel>,
    huntingStartBar: Option<nat>,
    barCount: nat,
    rollingVolume: seq<nat>)

  /** One minute of one-second bars feeds the volume average. */
  const MaxVolumeSamples: nat := 60

  /**
   What every machine reachable through the public operations satisfies:
   a bounded volume window, and an impulse or hunt that started no later
   than the current bar, with a builder that tracks its bars.
   */
  predicate Valid(m: Machine)
  {
    |m.rollingVolume| <= MaxVolumeSamples
    && (m.activeImpulse.Some? ==>
          m.activeImpulse.value.startBarIdx <= m.barCount && Tracks(m.activeImpulse.value.builder))
    && (m.huntingStartBar.Some? ==> m.huntingStartBar.value <= m.barCount)
  }

  /** `new`: waiting, with no levels, impulse, nodes or volume history. */
  function NewMachine(config: MachineConfig): (m: Machine)
    ensures Valid(m) && m.state == WaitingForBreakout
    ensures m.activeImpulse.None? && m.activeLvns == [] && m.barCount == 0 && m.rollingVolume == []
  {
    Machine(config, WaitingForBreakout, None, None, [], None, 0, [])
  }

  function SetDailyLevels(m: Machine, levels: LiveDailyLevels): (r: Machine)
    ensures r.dailyLevels == Some(levels)
    ensures r.(dailyLevels := m.dailyLevels) == m
  {
    m.(dailyLevels := Some(levels))
  }

  /** `clear_impulse_lvns`: drops the nodes and the impulse but leaves the state alone. */
  function ClearImpulseLvns(m: Machine): (r: Machine)
    requires Valid(m)
    ensures Valid(r) && r.activeLvns == [] && r.activeImpulse.None? && r.state == m.state
    ensures r.(activeLvns := m.activeLvns, activeImpulse := m.activeImpulse) == m
  {
    m.(activeLvns := [], activeImpulse := None)
  }

  /** `reset`: back to waiting; counters, levels and the volume window survive. */
  function Reset(m: Machine): (r: Machine)
    requires Valid(m)
    ensures Valid(r) && r.state == WaitingForBreakout
    ensures r.activeImpulse.None? && r.activeLvns == [] && r.huntingStartBar.None?
    ensures r.barCount == m.barCount && r.rollingVolume == m.rollingVolume && r.dailyLevels == m.dailyLevels
    ensures r.config == m.config
  {
    m.(state := WaitingForBreakout, activeImpulse := None, activeLvns := [], huntingStartBar := None)
  }

  /** `reset_for_new_day`: a reset that also forgets the bar count and the volume window. */
  function ResetForNewDay(m: Machine): (r: Machine)
    requires Valid(m)
    ensures Valid(r) && r.state == WaitingForBreakout
    ensures r.activeImpulse.None? && r.activeLvns == [] && r.huntingStartBar.None?
    ensures r.barCount == 0 && r.rollingVolume == []
    ensures r.dailyLevels == m.dailyLevels && r.config == m.config
  {
    Reset(m).(barCount := 0, rollingVolume := [])
  }

  /** `process_trade`: the trade joins the active impulse's trades; without one nothing changes. */
  function ProcessTrade(m: Machine, t: Trade): (r: Machine)
    requires Valid(m)
    ensures Valid(r)
    ensures m.activeImpulse.None? ==> r == m
    ensures m.activeImpulse.Some? ==>
      r.activeImpulse.Some? && r.activeImpulse.value.trades == m.activeImpulse.value.trades + [t]
      && r.activeImpulse.value.(trades := m.activeImpulse.value.trades) == m.activeImpulse.value
      && r.(activeImpulse := m.activeImpulse) == m
  {
    match m.activeImpulse
    case None => m
    case Some(imp) => m.(activeImpulse := Some(imp.(trades := imp.trades + [t])))
  }

  /** `avg_volume`: the mean of the volume window, 0 when it is empty. */
  function AverageVolume(vs: seq<nat>): (a: real)
    ensures a >= 0.0
    ensures |vs| == 0 ==> a == 0.0
  {
    if |vs| == 0 then 0.0 else NatSum(vs) as real / |vs| as real
  }

  function NatSum(vs: seq<nat>): nat
  {
    if |vs| == 0 then 0 else NatSum(vs[..|vs| - 1]) + vs[|vs| - 1]
  }

  /**
   `update_rolling_volume`: the newest sample is appended and, past 60,
   the oldest dropped, so the window is the last `min(n + 1, 60)` samples.
   */
  function PushVolume(vs: seq<nat>, v: nat): (r: seq<nat>)
    requires |vs| <= MaxVolumeSamples
    ensures |r| == MinNat(|vs| + 1, MaxVolumeSamples)
    ensures r == (vs + [v])[|vs| + 1 - |r|..]
    ensures r[|r| - 1] == v
  {
    var w := vs + [v];
    if |w| > MaxVolumeSamples then w[1..] else w
  }

  // ---------------------------------------------------------------------
  // One bar in each state

  /**
   `process_waiting`: with no levels nothing happens; a breakout of the
   bar's close starts profiling a new impulse from this bar.
   */
  function ProcessWaiting(m: Machine, bar: Bar, id: nat): (r: (Machine, Option<Transition>))
    requires Valid(m)
    ensures Valid(r.0)
    ensures m.dailyLevels.None? ==> r == (m, None)
    ensures r.1.None? ==>
      r.0 == m
      && (m.dailyLevels.None?
          || forall k :: !Broken(m.dailyLevels.value, k, bar.close, m.config.breakoutThreshold))
    ensures r.1.Some? ==>
      m.dailyLevels.Some? && r.1.value.BreakoutDetected? && r.1.value.price == bar.close
      && FirstBroken(m.dailyLevels.value, r.1.value.level, bar.close, m.config.breakoutThreshold)
      && r.1.value.direction == BreakDirection(r.1.value.level)
      && r.0.state == ProfilingImpulse
      && r.0.activeImpulse == Some(ActiveImpulse(id, r.1.value.direction, r.1.value.level,
                                                  NewBuilder(bar, r.1.value.direction, id), [], m.barCount))
      && r.0.(state := m.state, activeImpulse := m.activeImpulse) == m
  {
    match m.dailyLevels
    case None => (m, None)
    case Some(levels) =>
      match CheckBreakout(levels, bar.close, m.config.breakoutThreshold)
      case None => (m, None)
      case Some((level, dir)) =>
        var imp := ActiveImpulse(id, dir, level, NewBuilder(bar, dir, id), [], m.barCount);
        (m.(activeImpulse := Some(imp), state := ProfilingImpulse), Some(BreakoutDetected(level, dir, bar.close)))
  }

  /** Price has given back more than half of the move from the extreme. */
  predicate RetracedHalf(b: ImpulseBuilder, close: real)
  {
    var threshold := MoveSize(b) * 0.5;
    match b.direction
    case Up => close < EndPrice(b) - threshold
    case Down => close > EndPrice(b) + threshold
  }

  /** The nodes of the impulse's own trades between its start and this bar. */
  function ImpulseNodes(imp: ActiveImpulse, bar: Bar): seq<LvnLevel>
  {
    ExtractLvnsRealtime(imp.trades, imp.id, imp.builder.startTime, bar.ts, imp.direction, bar.symbol)
  }

  /**
   `process_profiling`: the bar joins the builder; past `max_impulse_bars`
   the impulse is invalid; a complete impulse (counted as having broken a
   swing) hands its nodes to the hunt; a retrace of more than half the
   move invalidates it; otherwise profiling goes on. Without an impulse
   the machine falls back to waiting.
   */
  function ProcessProfiling(m: Machine, bar: Bar): (r: (Machine, Option<Transition>))
    requires Valid(m) && m.state == ProfilingImpulse
    ensures Valid(r.0)
    ensures m.activeImpulse.None? ==> r == (m.(state := WaitingForBreakout), None)
    ensures m.activeImpulse.Some? ==>
      var imp := m.activeImpulse.value;
      var b := AddBar(imp.builder, bar);
      var elapsed := m.barCount - imp.startBarIdx;
      r.0.activeImpulse == Some(imp.(builder := b))
      && r.0.dailyLevels == m.dailyLevels && r.0.barCount == m.barCount && r.0.rollingVolume == m.rollingVolume
      && (elapsed > m.config.maxImpulseBars ==>
            r.0.state == Resetting && r.1 == Some(ImpulseInvalid(TimedOut(elapsed))))
      && (elapsed <= m.config.maxImpulseBars && !IsSufficientSize(b) ==>
            r.0.state == ProfilingImpulse && r.1.None?)
      && (elapsed <= m.config.maxImpulseBars && IsComplete(b, true, AverageVolume(m.rollingVolume)) ==>
            r.0.state == Hunting && r.0.huntingStartBar == Some(m.barCount)
            && r.0.activeLvns == ImpulseNodes(imp, bar)
            && r.1 == Some(ImpulseComplete(imp.id, |r.0.activeLvns|, imp.direction)))
      && (elapsed <= m.config.maxImpulseBars && IsSufficientSize(b)
          && !IsComplete(b, true, AverageVolume(m.rollingVolume)) ==>
            if RetracedHalf(b, bar.close) then r.0.state == Resetting && r.1 == Some(ImpulseInvalid(Retraced))
            else r.0.state == ProfilingImpulse && r.1.None?)
  {
    match m.activeImpulse
    case None => (m.(state := WaitingForBreakout), None)
    case Some(imp) =>
      var b := AddBar(imp.builder, bar);
      var imp1 := imp.(builder := b);
      var m1 := m.(activeImpulse := Some(imp1));
      var elapsed := m.barCount - imp.startBarIdx;
      if elapsed > m.config.maxImpulseBars then
        (m1.(state := Resetting), Some(ImpulseInvalid(TimedOut(elapsed))))
      else if !IsSufficientSize(b) then
        (m1, None)
      else if IsComplete(b, true, AverageVolume(m.rollingVolume)) then
        var lvns := ImpulseNodes(imp, bar);
        (m1.(activeLvns := lvns, huntingStartBar := Some(m.barCount), state := Hunting),
         Some(ImpulseComplete(imp.id, |lvns|, imp.direction)))
      else if RetracedHalf(b, bar.close) then
        (m1.(state := Resetting), Some(ImpulseInvalid(Retraced)))
      else
        (m1, None)
  }

  /**
   `process_hunting`: past `max_hunting_bars` since the hunt began the
   machine resets; the signal itself comes from elsewhere. Without a
   recorded start the machine falls back to waiting.
   */
  function ProcessHunting(m: Machine): (r: (Machine, Option<Transition>))
    requires Valid(m)
    ensures Valid(r.0)
    ensures m.huntingStartBar.None? ==> r == (m.(state := WaitingForBreakout), None)
    ensures m.huntingStartBar.Some? && m.barCount - m.huntingStartBar.value > m.config.maxHuntingBars ==>
      r == (m.(state := Resetting), Some(HuntingTimeout))
    ensures m.huntingStartBar.Some? && m.barCount - m.huntingStartBar.value <= m.config.maxHuntingBars ==>
      r == (m, None)
  {
    match m.huntingStartBar
    case None => (m.(state := WaitingForBreakout), None)
    case Some(start) =>
      if m.barCount - start > m.config.maxHuntingBars then (m.(state := Resetting), Some(HuntingTimeout))
      else (m, None)
  }

  /** The bar is counted and its volume sampled before the state acts on it. */
  function Tick(m: Machine, bar: Bar): (r: Machine)
    requires Valid(m)
    ensures Valid(r)
    ensures r.barCount == m.barCount + 1 && |r.rollingVolume| <= MaxVolumeSamples
    ensures |r.rollingVolume| > 0 && r.rollingVolume[|r.rollingVolume| - 1] == bar.volume
    ensures r.(barCount := m.barCount, rollingVolume := m.rollingVolume) == m
  {
    m.(barCount := m.barCount + 1, rollingVolume := PushVolume(m.rollingVolume, bar.volume))
  }

  /** `process_bar`: count the bar, then act on it in the current state; `Resetting` lasts one bar. */
  function ProcessBar(m: Machine, bar: Bar, id: nat): (r: (Machine, Option<Transition>))
    requires Valid(m)
    ensures Valid(r.0) && r.0.barCount == m.barCount + 1
    ensures r.0.config == m.config && r.0.dailyLevels == m.dailyLevels
    ensures r.0.state in Successors(m.state)
    ensures m.state == Resetting ==> r.0.state == WaitingForBreakout && r.1 == Some(ResetDone)
  {
    var m1 := Tick(m, bar);
    match m.state
    case WaitingForBreakout => ProcessWaiting(m1, bar, id)
    case ProfilingImpulse => ProcessProfiling(m1, bar)
    case Hunting => ProcessHunting(m1)
    case Resetting => (m1.(state := WaitingForBreakout), Some(ResetDone))
  }

  /** The states a single bar can lead to from `s`. */
  function Successors(s: TradingState): set<TradingState>
  {
    match s
    case WaitingForBreakout => {WaitingForBreakout, ProfilingImpulse}
    case ProfilingImpulse => {ProfilingImpulse, Hunting, Resetting, WaitingForBreakout}
    case Hunting => {Hunting, Resetting, WaitingForBreakout}
    case Resetting => {WaitingForBreakout}
  }

  /**
   The machine holds an impulse while profiling and a hunt start while
   hunting. `ProcessBar` and `Reset` keep this; `ClearImpulseLvns` during
   profiling breaks it.
   */
  predicate Consistent(m: Machine)
  {
    (m.state == ProfilingImpulse ==> m.activeImpulse.Some?)
    && (m.state == Hunting ==> m.huntingStartBar.Some?)
  }

  /**
   In a consistent machine a bar emits a transition exactly when it
   changes the state, and the machine stays consistent.
   */
  lemma TransitionIffStateChanges(m: Machine, bar: Bar, id: nat)
    requires Valid(m) && Consistent(m)
    ensures var r := ProcessBar(m, bar, id);
      Consistent(r.0) && (r.1.Some? <==> r.0.state != m.state)
  {
    var m1 := Tick(m, bar);
    match m.state
    case WaitingForBreakout =>
    case ProfilingImpulse => ProfilingTransition(m1, bar);
    case Hunting =>
    case Resetting =>
  }

  /** While profiling, a bar emits a transition exactly when it leaves the state. */
  lemma ProfilingTransition(m: Machine, bar: Bar)
    requires Valid(m) && m.state == ProfilingImpulse && m.activeImpulse.Some?
    ensures var r := ProcessProfiling(m, bar);
      Consistent(r.0) && (r.1.Some? <==> r.0.state != ProfilingImpulse)
  {
    var imp := m.activeImpulse.value;
    var b := AddBar(imp.builder, bar);
    if m.barCount - imp.startBarIdx <= m.config.maxImpulseBars && IsSufficientSize(b)
       && !IsComplete(b, true, AverageVolume(m.rollingVolume)) {
      if RetracedHalf(b, bar.close) {
      }
    }
  }

  /** Clearing the nodes mid-profile leaves the next bar to fall back to waiting, silently. */
  lemma ClearWhileProfilingFallsBack(m: Machine, bar: Bar, id: nat)
    requires Valid(m) && m.state == ProfilingImpulse
    ensures var r := ProcessBar(ClearImpulseLvns(m), bar, id);
      r.0.state == WaitingForBreakout && r.1.None?
  {
  }

  /**
   A timeout or retrace leaves the impulse in place through the reset, so
   trades keep being collected for it until the next breakout replaces it.
   */
  lemma InvalidImpulseOutlivesReset(m: Machine, b1: Bar, b2: Bar, t: Trade, id: nat)
    requires Valid(m) && m.state == ProfilingImpulse && m.activeImpulse.Some?
    requires m.barCount + 1 - m.activeImpulse.value.startBarIdx > m.config.maxImpulseBars
    ensures var r1 := ProcessBar(m, b1, id);
      var r2 := ProcessBar(r1.0, b2, id);
      r1.1 == Some(ImpulseInvalid(TimedOut(m.barCount + 1 - m.activeImpulse.value.startBarIdx)))
      && r2.1 == Some(ResetDone) && r2.0.state == WaitingForBreakout
      && r2.0.activeImpulse.Some?
      && ProcessTrade(r2.0, t).activeImpulse.value.trades == r2.0.activeImpulse.value.trades + [t]
  {
    TimeoutKeepsImpulse(m, b1, id);
  }

  /** A profiling bar past the impulse's time limit times it out and moves to `Resetting`, impulse kept. */
  lemma TimeoutKeepsImpulse(m: Machine, bar: Bar, id: nat)
    requires Valid(m) && m.state == ProfilingImpulse && m.activeImpulse.Some?
    requires m.barCount + 1 - m.activeImpulse.value.startBarIdx > m.config.maxImpulseBars
    ensures var r := ProcessBar(m, bar, id);
      r.1 == Some(ImpulseInvalid(TimedOut(m.barCount + 1 - m.activeImpulse.value.startBarIdx)))
      && r.0.state == Resetting && r.0.activeImpulse.Some?
  {
    var m1 := Tick(m, bar);
    assert ProcessBar(m, bar, id) == ProcessProfiling(m1, bar);
  }

  // ---------------------------------------------------------------------
  // Runs of bars

  /** Feeds `bars` in order; the `i`-th new impulse, if any, takes `ids[i]`. */
  function Run(m: Machine, bars: seq<Bar>, ids: seq<nat>): (r: (Machine, seq<Transition>))
    requires Valid(m) && |ids| == |bars|
    ensures Valid(r.0) && r.0.barCount == m.barCount + |bars|
    ensures |r.1| <= |bars|
    decreases |bars|
  {
    if |bars| == 0 then (m, [])
    else
      var step := ProcessBar(m, bars[0], ids[0]);
      var rest := Run(step.0, bars[1..], ids[1..]);
      (rest.0, (if step.1.Some? then [step.1.value] else []) + rest.1)
  }

  /**
   A hunt that begins on the current bar lasts `max_hunting_bars` more
   bars in silence and times out on the one after: the machine is
   `Resetting` with exactly one `HuntingTimeout` emitted.
   */
  lemma {:induction false} HuntLastsMaxBars(m: Machine, bars: seq<Bar>, ids: seq<nat>)
    requires Valid(m) && m.state == Hunting && m.huntingStartBar.Some?
    requires m.barCount - m.huntingStartBar.value + |bars| == m.config.maxHuntingBars + 1
    requires |ids| == |bars| >= 1
    ensures Run(m, bars, ids).0.state == Resetting
    ensures Run(m, bars, ids).1 == [HuntingTimeout]
    decreases |bars|
  {
    var step := ProcessBar(m, bars[0], ids[0]);
    var m1 := Tick(m, bars[0]);
    if |bars| == 1 {
      assert step == (m1.(state := Resetting), Some(HuntingTimeout));
      assert Run(step.0, bars[1..], ids[1..]) == (step.0, []);
    } else {
      assert step == (m1, None);
      HuntLastsMaxBars(m1, bars[1..], ids[1..]);
    }
  }
}
