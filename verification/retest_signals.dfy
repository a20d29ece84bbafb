/**
 The LVN retest signal generator (`trading_core/lvn_retest.rs`): tracked
 levels move through Untouched, Touched, Armed and Retesting as price
 leaves and returns, and a retesting level with aggression in the
 impulse's direction, in an imbalanced market, gives a signal.

 The tracked levels are a `BTreeMap<i64, TrackedLevel>`; here they are a
 sequence of (key, level) pairs in strictly ascending key order, which is
 the order the map iterates in. The bar's Eastern hour and minute come
 from a `clock` the caller passes; dates are UTC day numbers.
 */
module RetestSignals {
  import opened Base
  import opened Market
  import opened Impulse
  import opened Lvn
  import MarketRegime

  datatype RetestConfig = RetestConfig(
    levelTolerance: real,
    retestDistance: real,
    minDeltaForAbsorption: int,
    maxRangeForAbsorption: real,
    stopLoss: real,
    takeProfit: real,
    trailingStop: real,
    maxHoldBars: nat,
    rthOnly: bool,
    cooldownBars: nat,
    levelCooldownBars: nat,
    maxLvnVolumeRatio: real,
    sameDayOnly: bool,
    minAbsorptionBars: nat,
    structureStopBuffer: real,
    tradeStartHour: nat,
    tradeStartMinute: nat,
    tradeEndHour: nat,
    tradeEndMinute: nat)

  /** `LvnRetestConfig::default()`: 2-point tolerance, 8-point retest, 100 delta, 9:30 to 16:00. */
  const DefaultRetestConfig := RetestConfig(2.0, 8.0, 100, 1.5, 4.0, 8.0, 4.0, 300, true, 60, 600, 0.15, false, 1, 2.0, 9, 30, 16, 0)

  datatype LevelState = Untouched | Touched | Armed | Retesting

  datatype TrackedLevel = TrackedLevel(
    price: real,
    state: LevelState,
    firstTouchBar: Option<nat>,
    armedBar: Option<nat>,
    lastTradedBar: Option<nat>,
    approachedFromAbove: Option<bool>,
    impulseDirection: ImpulseDirection,
    volumeRatio: real,
    lvnDate: int,
    absorptionBar: Option<nat>,
    impulseId: Option<nat>)

  // ---------------------------------------------------------------------
  // The ordered level map

  type Book = seq<(int, TrackedLevel)>

  predicate Ascending(b: Book)
  {
    forall i, j :: 0 <= i < j < |b| ==> b[i].0 < b[j].0
  }

  /** The level stored under a key (the first pair with that key). */
  function Lookup(b: Book, key: int): Option<TrackedLevel>
  {
    if |b| == 0 then None
    else if b[0].0 == key then Some(b[0].1)
    else Lookup(b[1..], key)
  }

  /** In an ascending book, a key below the first is absent. */
  lemma {:induction false} LookupBelow(b: Book, key: int)
    requires Ascending(b) && (|b| == 0 || key < b[0].0)
    ensures Lookup(b, key) == None
  {
    if |b| > 1 {
      LookupBelow(b[1..], key);
    }
  }

  /** In an ascending book, every stored pair is what its key looks up. */
  lemma {:induction false} LookupIndex(b: Book, i: nat)
    requires Ascending(b) && i < |b|
    ensures Lookup(b, b[i].0) == Some(b[i].1)
  {
    if i > 0 {
      LookupIndex(b[1..], i - 1);
    }
  }

  /** `BTreeMap::insert` keeping the key order. */
  function Insert(b: Book, key: int, l: TrackedLevel): (r: Book)
    requires Ascending(b)
    ensures Ascending(r)
    ensures |r| > 0 && (r[0].0 == key || (|b| > 0 && r[0].0 == b[0].0))
  {
    if |b| == 0 then [(key, l)]
    else if b[0].0 == key then [(key, l)] + b[1..]
    else if key < b[0].0 then [(key, l)] + b
    else [b[0]] + Insert(b[1..], key, l)
  }

  /** After an insert the key holds the level and every other key is as before. */
  lemma {:induction false} InsertLookup(b: Book, key: int, l: TrackedLevel, k: int)
    requires Ascending(b)
    ensures Lookup(Insert(b, key, l), k) == if k == key then Some(l) else Lookup(b, k)
  {
    var r := Insert(b, key, l);
    if |b| > 0 {
      if b[0].0 == key {
        assert r[1..] == b[1..];
      } else if key < b[0].0 {
        assert r[1..] == b;
        if k == key {
        } else {
        }
      } else {
        assert r[1..] == Insert(b[1..], key, l);
        InsertLookup(b[1..], key, l, k);
      }
    }
  }

  /** `retain`: the pairs whose level satisfies `keep`, in order. */
  function Retain(b: Book, keep: TrackedLevel -> bool): (r: Book)
    requires Ascending(b)
    ensures Ascending(r)
    ensures |r| > 0 ==> |b| > 0 && r[0].0 >= b[0].0
  {
    if |b| == 0 then []
    else
      var rest := Retain(b[1..], keep);
      if keep(b[0].1) then [b[0]] + rest else rest
  }

  /** A key survives `retain` exactly when its level is kept. */
  lemma {:induction false} RetainLookup(b: Book, keep: TrackedLevel -> bool, k: int)
    requires Ascending(b)
    ensures Lookup(Retain(b, keep), k) == if Lookup(b, k).Some? && keep(Lookup(b, k).value) then Lookup(b, k) else None
  {
    if |b| > 0 {
      var rest := Retain(b[1..], keep);
      RetainLookup(b[1..], keep, k);
      if b[0].0 == k {
        LookupBelow(rest, k);
        if keep(b[0].1) {
          assert ([b[0]] + rest)[1..] == rest;
        }
      } else if keep(b[0].1) {
        assert ([b[0]] + rest)[1..] == rest;
      }
    }
  }

  /** Applying a change to every level keeps the keys and their order. */
  function MapLevels(b: Book, f: TrackedLevel -> TrackedLevel): (r: Book)
    ensures |r| == |b|
    ensures forall i :: 0 <= i < |b| ==> r[i] == (b[i].0, f(b[i].1))
  {
    if |b| == 0 then [] else [(b[0].0, f(b[0].1))] + MapLevels(b[1..], f)
  }

  /** After a map, each key holds its old level changed. */
  lemma {:induction false} MapLevelsLookup(b: Book, f: TrackedLevel -> TrackedLevel, k: int)
    ensures Lookup(MapLevels(b, f), k) == if Lookup(b, k).Some? then Some(f(Lookup(b, k).value)) else None
  {
    if |b| > 0 {
      var r := MapLevels(b, f);
      assert r[1..] == MapLevels(b[1..], f);
      if b[0].0 != k {
        MapLevelsLookup(b[1..], f, k);
      }
    }
  }

  // ---------------------------------------------------------------------
  // Adding and clearing levels

  /** A level's map key: its price in tenths, truncated toward zero (`as i64`). */
  function LevelKey(price: real): int
  {
    Trunc(price * 10.0)
  }

  /** The price a signal reports for a key: the key in tenths, so the level price cut to a tenth. */
  function KeyPrice(key: int): real
  {
    key as real / 10.0
  }

  lemma KeyPriceNear(price: real)
    requires price >= 0.0
    ensures KeyPrice(LevelKey(price)) <= price < KeyPrice(LevelKey(price)) + 0.1
  {
  }

  predicate Thin(c: RetestConfig, lvn: LvnLevel)
  {
    lvn.volumeRatio <= c.maxLvnVolumeRatio
  }

  function Track(lvn: LvnLevel, id: nat): (t: TrackedLevel)
    ensures t.state == Untouched && t.price == lvn.price && t.impulseId == Some(id)
  {
    TrackedLevel(lvn.price, Untouched, None, None, None, None, lvn.direction, lvn.volumeRatio, lvn.date, None, Some(id))
  }

  /** The last thin level among `lvns` with the given key, which is the one a sequence of inserts leaves. */
  function LastThinWithKey(c: RetestConfig, lvns: seq<LvnLevel>, key: int): (r: Option<LvnLevel>)
    ensures r.Some? ==> r.value in lvns && Thin(c, r.value) && LevelKey(r.value.price) == key
    ensures r.None? ==> forall i :: 0 <= i < |lvns| ==> !(Thin(c, lvns[i]) && LevelKey(lvns[i].price) == key)
  {
    if |lvns| == 0 then None
    else
      var last := lvns[|lvns| - 1];
      if Thin(c, last) && LevelKey(last.price) == key then Some(last)
      else LastThinWithKey(c, lvns[..|lvns| - 1], key)
  }

  /**
   `add_lvn_levels` (with `id` the level's own impulse id) and
   `add_lvn_levels_with_impulse` (with the given id): every thin level is
   inserted as Untouched under its key, later ones replacing earlier ones
   with the same key; the count is the number of thin levels.
   */
  function AddLevels(c: RetestConfig, b: Book, lvns: seq<LvnLevel>, id: LvnLevel -> nat): (r: (Book, nat))
    requires Ascending(b)
    ensures Ascending(r.0)
    ensures r.1 <= |lvns|
    ensures r.1 == |lvns| ==> forall i :: 0 <= i < |lvns| ==> Thin(c, lvns[i])
    decreases |lvns|
  {
    if |lvns| == 0 then (b, 0)
    else
      var (prev, n) := AddLevels(c, b, lvns[..|lvns| - 1], id);
      var last := lvns[|lvns| - 1];
      if Thin(c, last) then (Insert(prev, LevelKey(last.price), Track(last, id(last))), n + 1)
      else (prev, n)
  }

  /** After adding, each key holds the last thin level with that key, or what it held before. */
  lemma {:induction false} AddLevelsLookup(c: RetestConfig, b: Book, lvns: seq<LvnLevel>, id: LvnLevel -> nat, key: int)
    requires Ascending(b)
    ensures Lookup(AddLevels(c, b, lvns, id).0, key) ==
              match LastThinWithKey(c, lvns, key)
              case Some(l) => Some(Track(l, id(l)))
              case None => Lookup(b, key)
    decreases |lvns|
  {
    if |lvns| > 0 {
      AddLevelsLookup(c, b, lvns[..|lvns| - 1], id, key);
      var prev := AddLevels(c, b, lvns[..|lvns| - 1], id).0;
      var last := lvns[|lvns| - 1];
      if Thin(c, last) {
        InsertLookup(prev, LevelKey(last.price), Track(last, id(last)), key);
      }
    }
  }

  /** The ids `add_lvn_levels` uses: each level's own impulse id. */
  function OwnId(l: LvnLevel): nat { l.impulseId }

  /** `clear_impulse_lvns`: exactly the levels tagged with the id go. */
  function ClearImpulse(b: Book, id: nat): (r: Book)
    requires Ascending(b)
    ensures Ascending(r)
  {
    Retain(b, (l: TrackedLevel) => l.impulseId != Some(id))
  }

  lemma ClearImpulseLookup(b: Book, id: nat, k: int)
    requires Ascending(b)
    ensures Lookup(ClearImpulse(b, id), k) == if Lookup(b, k).Some? && Lookup(b, k).value.impulseId == Some(id) then None else Lookup(b, k)
  {
    RetainLookup(b, (l: TrackedLevel) => l.impulseId != Some(id), k);
  }

  // ---------------------------------------------------------------------
  // Level states

  /**
   One level's transition at a distance from price: Untouched and Armed
   need the price within tolerance; Touched arms beyond the retest
   distance; Retesting leaves beyond twice the tolerance, to Armed if also
   beyond the retest distance and to Touched otherwise.
   */
  function NextState(c: RetestConfig, s: LevelState, dist: real): (r: LevelState)
    ensures s == Untouched ==> (r == Touched <==> dist <= c.levelTolerance) && r != Armed && r != Retesting
    ensures s == Touched ==> (r == Armed <==> dist > c.retestDistance) && (r != Armed ==> r == Touched)
    ensures s == Armed ==> (r == Retesting <==> dist <= c.levelTolerance) && (r != Retesting ==> r == Armed)
    ensures s == Retesting ==> (r == Retesting <==> dist <= c.levelTolerance * 2.0)
    ensures s == Retesting && dist > c.levelTolerance * 2.0 ==> (r == Armed <==> dist > c.retestDistance) && r != Untouched
  {
    match s
    case Untouched => if dist <= c.levelTolerance then Touched else Untouched
    case Touched => if dist > c.retestDistance then Armed else Touched
    case Armed => if dist <= c.levelTolerance then Retesting else Armed
    case Retesting =>
      if dist > c.levelTolerance * 2.0 then (if dist > c.retestDistance then Armed else Touched) else Retesting
  }

  /** Once touched, a level never becomes Untouched again. */
  lemma NeverUntouchedAgain(c: RetestConfig, s: LevelState, dist: real)
    requires s != Untouched
    ensures NextState(c, s, dist) != Untouched
  {
  }

  /** A level reaches Retesting only from Armed (or by staying Retesting). */
  lemma RetestingOnlyFromArmed(c: RetestConfig, s: LevelState, dist: real)
    requires NextState(c, s, dist) == Retesting
    ensures s == Armed || s == Retesting
  {
  }

  /** With the default 2-point tolerance and 8-point retest distance: touch at 1, arm at 10, retest at 1, fall back at 5. */
  lemma LevelCycleExample()
    ensures var c := DefaultRetestConfig;
            NextState(c, Untouched, 1.0) == Touched && NextState(c, Touched, 10.0) == Armed
            && NextState(c, Armed, 1.0) == Retesting && NextState(c, Retesting, 3.0) == Retesting
            && NextState(c, Retesting, 5.0) == Touched && NextState(c, Retesting, 10.0) == Armed
            && NextState(c, Armed, 3.0) == Armed && NextState(c, Touched, 8.0) == Touched
  {
  }

  /** The update `update_level_states` makes to one level for a bar. */
  function UpdateLevel(c: RetestConfig, idx: nat, price: real, prevPrice: real, l: TrackedLevel): (r: TrackedLevel)
    ensures r.state == NextState(c, l.state, Abs(price - l.price))
    ensures r.price == l.price && r.impulseDirection == l.impulseDirection && r.lastTradedBar == l.lastTradedBar
    ensures r.impulseId == l.impulseId && r.lvnDate == l.lvnDate
    ensures l.state == Untouched && r.state == Touched ==> r.firstTouchBar == Some(idx) && r.approachedFromAbove == Some(prevPrice > l.price)
    ensures l.state == Touched && r.state == Armed ==> r.armedBar == Some(idx)
    ensures l.state == Armed && r.state == Retesting ==> r.approachedFromAbove == Some(prevPrice > l.price)
  {
    var dist := Abs(price - l.price);
    var s := NextState(c, l.state, dist);
    match l.state
    case Untouched =>
      if s == Touched then l.(state := s, firstTouchBar := Some(idx), approachedFromAbove := Some(prevPrice > l.price)) else l
    case Touched => if s == Armed then l.(state := s, armedBar := Some(idx)) else l
    case Armed => if s == Retesting then l.(state := s, approachedFromAbove := Some(prevPrice > l.price)) else l
    case Retesting => l.(state := s)
  }

  function UpdateLevelStates(c: RetestConfig, b: Book, idx: nat, bar: Bar, prev: Bar): (r: Book)
    ensures |r| == |b|
    ensures Ascending(b) ==> Ascending(r)
    ensures forall i :: 0 <= i < |b| ==> r[i] == (b[i].0, UpdateLevel(c, idx, bar.close, prev.close, b[i].1))
  {
    MapLevels(b, (l: TrackedLevel) => UpdateLevel(c, idx, bar.close, prev.close, l))
  }

  // ---------------------------------------------------------------------
  // The generator

  /** The number of bars kept for the market-state detection. */
  const BufferLimit: nat := 200

  datatype Generator = Generator(config: RetestConfig, levels: Book, barCount: nat, lastTradeBar: Option<nat>, buffer: seq<Bar>)

  datatype LvnSignal = LvnSignal(direction: Direction, price: real, levelPrice: real, delta: int)

  function NewGenerator(c: RetestConfig): (g: Generator)
    ensures g.levels == [] && g.barCount == 0 && g.lastTradeBar == None && g.buffer == []
  {
    Generator(c, [], 0, None, [])
  }

  /** `clear_levels`: levels, buffer, bar count and last trade are all reset. */
  function ClearLevels(g: Generator): (r: Generator)
    ensures r == NewGenerator(g.config)
  {
    g.(levels := [], barCount := 0, lastTradeBar := None, buffer := [])
  }

  /** `is_trading_hours`: the minute of the day lies in [start, end). */
  predicate InTradingHours(c: RetestConfig, hour: nat, minute: nat)
  {
    c.tradeStartHour * 60 + c.tradeStartMinute <= hour * 60 + minute < c.tradeEndHour * 60 + c.tradeEndMinute
  }

  function TradeDirection(d: ImpulseDirection): Direction
  {
    if d == Up then Long else Short
  }

  /** Aggression in the trade's direction: buying for a long, selling for a short. */
  predicate Continues(d: Direction, delta: int)
  {
    if d == Long then delta > 0 else delta < 0
  }

  /** Whether a tracked level is the place for a signal on this bar. */
  predicate Candidate(c: RetestConfig, l: TrackedLevel, bar: Bar)
  {
    l.state == Retesting
    && (!c.sameDayOnly || l.lvnDate == DayOf(bar.ts))
    && Abs(bar.close - l.price) <= c.levelTolerance
    && Continues(TradeDirection(l.impulseDirection), bar.delta)
    && bar.high - bar.low <= c.maxRangeForAbsorption
  }

  /** The first candidate level in key order. */
  function FirstCandidate(c: RetestConfig, b: Book, bar: Bar): (r: Option<nat>)
    ensures r.Some? ==> r.value < |b| && Candidate(c, b[r.value].1, bar)
    ensures r.Some? ==> forall j :: 0 <= j < r.value ==> !Candidate(c, b[j].1, bar)
    ensures r.None? <==> forall j :: 0 <= j < |b| ==> !Candidate(c, b[j].1, bar)
  {
    if |b| == 0 then None
    else if Candidate(c, b[0].1, bar) then Some(0)
    else
      var r := FirstCandidate(c, b[1..], bar);
      assert forall j :: 1 <= j < |b| ==> b[j] == b[1..][j - 1];
      if r.Some? then Some(r.value + 1) else None
  }

  /** Element one of the trend model: the buffered bars' market state, at the newest bar, is Imbalanced. */
  predicate Imbalanced(buffer: seq<Bar>)
    requires |buffer| > 0
  {
    MarketRegime.DetectMarketState(buffer, |buffer| - 1, MarketRegime.DefaultConfig).state == MarketRegime.Imbalanced
  }

  /**
   `check_for_signal`: nothing unless the market is Imbalanced and the
   bar's delta is at least the minimum in size; then the first candidate
   level in key order gives its key and the direction of the impulse that
   made it.
   */
  function CheckForSignal(g: Generator, bar: Bar): (r: Option<(int, Direction)>)
    requires |g.buffer| > 0
    ensures r.Some? <==> Imbalanced(g.buffer) && IntAbs(bar.delta) >= g.config.minDeltaForAbsorption
                         && exists j :: 0 <= j < |g.levels| && Candidate(g.config, g.levels[j].1, bar)
    ensures r.Some? ==> var i := FirstCandidate(g.config, g.levels, bar).value;
                        r.value == (g.levels[i].0, TradeDirection(g.levels[i].1.impulseDirection))
    ensures r.Some? && Ascending(g.levels) ==> Lookup(g.levels, r.value.0).Some? && Candidate(g.config, Lookup(g.levels, r.value.0).value, bar)
  {
    if !Imbalanced(g.buffer) then None
    else if IntAbs(bar.delta) < g.config.minDeltaForAbsorption then None
    else
      match FirstCandidate(g.config, g.levels, bar)
      case None => None
      case Some(i) =>
        if Ascending(g.levels) then
          LookupIndex(g.levels, i);
          Some((g.levels[i].0, TradeDirection(g.levels[i].1.impulseDirection)))
        else Some((g.levels[i].0, TradeDirection(g.levels[i].1.impulseDirection)))
  }

  /** The buffer after a bar: the bar appended, and the oldest dropped when that makes it longer than 200. */
  function PushBar(buffer: seq<Bar>, bar: Bar): (r: seq<Bar>)
    ensures |r| > 0 && r[|r| - 1] == bar
    ensures |buffer| <= BufferLimit ==> |r| <= BufferLimit
    ensures |r| == if |buffer| + 1 > BufferLimit then |buffer| else |buffer| + 1
  {
    var b := buffer + [bar];
    if |b| > BufferLimit then b[1..] else b
  }

  /** Whether a bar index is still inside the cooldown after a trade at `last`. */
  predicate Cooling(last: Option<nat>, idx: nat, cooldown: nat)
  {
    last.Some? && idx < last.value + cooldown
  }

  /** The level under the key, if any, marked as traded on the bar and put back to Touched. */
  function MarkTraded(levels: Book, key: int, idx: nat): (r: Book)
    requires Ascending(levels)
    ensures Ascending(r)
    ensures Lookup(levels, key).Some? ==> Lookup(r, key) == Some(Lookup(levels, key).value.(lastTradedBar := Some(idx), state := Touched))
    ensures Lookup(levels, key).None? ==> r == levels
  {
    match Lookup(levels, key)
    case None => levels
    case Some(l) =>
      var l2 := l.(lastTradedBar := Some(idx), state := Touched);
      InsertLookup(levels, key, l2, key);
      Insert(levels, key, l2)
  }

  /** Whether the level under the key, if any, is still cooling down after its own last trade. */
  predicate LevelCooling(levels: Book, key: int, idx: nat, cooldown: nat)
  {
    Lookup(levels, key).Some? && Cooling(Lookup(levels, key).value.lastTradedBar, idx, cooldown)
  }

  /**
   The second half of `process_bar`, on a generator whose bar is counted,
   buffered and whose levels are already updated: the global cooldown, the
   trading hours, the signal check and the level cooldown decide, and an
   emitted signal marks the bar as the last trade, globally and on the
   level, which goes back to Touched.
   */
  function Decide(g: Generator, bar: Bar, clock: int -> (nat, nat)): (r: (Generator, Option<LvnSignal>))
    requires Ascending(g.levels) && |g.buffer| > 0
    ensures Ascending(r.0.levels)
    ensures r.0 == g.(levels := r.0.levels, lastTradeBar := r.0.lastTradeBar)
    ensures r.1.None? ==> r.0 == g
    ensures Cooling(g.lastTradeBar, g.barCount, g.config.cooldownBars) ==> r.1.None?
    ensures g.config.rthOnly && !InTradingHours(g.config, clock(bar.ts).0, clock(bar.ts).1) ==> r.1.None?
    ensures r.1.Some? ==> CheckForSignal(g, bar).Some? && r.1.value.direction == CheckForSignal(g, bar).value.1
    ensures r.1.Some? ==> r.0.lastTradeBar == Some(g.barCount) && r.1.value.price == bar.close && r.1.value.delta == bar.delta
    ensures r.1.Some? ==>
              var k := (r.1.value.levelPrice * 10.0).Floor;
              k == CheckForSignal(g, bar).value.0 && r.1.value.levelPrice == KeyPrice(k) && Lookup(r.0.levels, k).Some?
              && Lookup(r.0.levels, k).value.state == Touched && Lookup(r.0.levels, k).value.lastTradedBar == Some(g.barCount)
  {
    var idx := g.barCount;
    if Cooling(g.lastTradeBar, idx, g.config.cooldownBars) then (g, None)
    else if g.config.rthOnly && !InTradingHours(g.config, clock(bar.ts).0, clock(bar.ts).1) then (g, None)
    else
      match CheckForSignal(g, bar)
      case None => (g, None)
      case Some((key, dir)) =>
        if LevelCooling(g.levels, key, idx, g.config.levelCooldownBars) then (g, None)
        else
          assert (KeyPrice(key) * 10.0).Floor == key;
          (g.(levels := MarkTraded(g.levels, key, idx), lastTradeBar := Some(idx)), Some(LvnSignal(dir, bar.close, KeyPrice(key), bar.delta)))
  }

  /**
   `process_bar`: count the bar and buffer it; with fewer than two bars
   buffered nothing else happens. Otherwise every level's state is updated
   first, whatever the cooldowns and the hours, and then `Decide` runs.
   */
  function ProcessBar(g: Generator, bar: Bar, clock: int -> (nat, nat)): (r: (Generator, Option<LvnSignal>))
    requires Ascending(g.levels)
    ensures Ascending(r.0.levels)
    ensures r.0.barCount == g.barCount + 1 && r.0.buffer == PushBar(g.buffer, bar) && r.0.config == g.config
    ensures |g.buffer| <= BufferLimit ==> |r.0.buffer| <= BufferLimit
    ensures |r.0.buffer| < 2 ==> r.1.None? && r.0.levels == g.levels
    ensures |r.0.buffer| >= 2 ==>
              r == Decide(g.(barCount := g.barCount + 1, buffer := r.0.buffer,
                             levels := UpdateLevelStates(g.config, g.levels, g.barCount + 1, bar, r.0.buffer[|r.0.buffer| - 2])), bar, clock)
  {
    var idx := g.barCount + 1;
    var buffer := PushBar(g.buffer, bar);
    var g1 := g.(barCount := idx, buffer := buffer);
    if |buffer| < 2 then (g1, None)
    else Decide(g1.(levels := UpdateLevelStates(g.config, g.levels, idx, bar, buffer[|buffer| - 2])), bar, clock)
  }

  /**
   During the global cooldown the levels still move to their next states,
   but no signal goes out.
   */
  lemma CooldownStillUpdatesLevels(g: Generator, bar: Bar, clock: int -> (nat, nat))
    requires Ascending(g.levels) && |g.buffer| >= 1
    requires Cooling(g.lastTradeBar, g.barCount + 1, g.config.cooldownBars)
    ensures var r := ProcessBar(g, bar, clock);
            r.1.None? && |r.0.levels| == |g.levels|
            && forall i :: 0 <= i < |g.levels| ==>
                 r.0.levels[i].1.state == NextState(g.config, g.levels[i].1.state, Abs(bar.close - g.levels[i].1.price))
  {
    assert |PushBar(g.buffer, bar)| >= 2;
  }
}
