/**
 Replay trading (`pipeline/replay_trading.rs`): the live trader run over
 cached days, where each day sees only the previous day's low-volume
 nodes, and every day ends with an end-of-day reset at its last close.
 The trades a replay would synthesise from a bar are
 `Market.SynthesizeTrades`.

 The driver's trader lives in `pipeline/trader.rs`, which is not part of
 this model; the trader of `trading_core/trader.rs` (`LiveTrading`), with
 its end-of-day reset as written, stands in for it.
 */
module ReplayTrading {
  import opened Base
  import opened Market
  import opened Lvn
  import opened RetestSignals
  import opened LiveTrading
  import opened Impulse

  datatype CachedDay = CachedDay(date: string, bars: seq<Bar>, lvns: seq<LvnLevel>)

  /** `add_lvn_levels`: the thin nodes tracked under their own impulse ids. */
  function AddLvnLevels(t: Trader, lvns: seq<LvnLevel>): (r: Trader)
    requires Valid(t)
    ensures Valid(r) && r == t.(gen := r.gen)
    ensures r.gen == t.gen.(levels := AddLevels(t.gen.config, t.gen.levels, lvns, OwnId).0)
  {
    t.(gen := t.gen.(levels := AddLevels(t.gen.config, t.gen.levels, lvns, OwnId).0))
  }

  /** All of a day's bars fall on one calendar date, as a cached session's do. */
  predicate OneDate(bars: seq<Bar>)
  {
    forall i :: 0 <= i < |bars| ==> DayOf(bars[i].ts) == DayOf(bars[0].ts)
  }

  /** Every cached day is a single-date session. */
  predicate SessionsOnOneDate(days: seq<CachedDay>)
  {
    forall k :: 0 <= k < |days| ==> OneDate(days[k].bars)
  }

  /**
   The day's bars fed in order, with the close of the last one, if any;
   the trader has no breakout machine, so the impulse id is never used.
   The date check counts no stopped day inside a single-date session that
   starts running.
   */
  function RunBars(t: Trader, bars: seq<Bar>, et: int -> (nat, nat)): (r: (Trader, Option<real>))
    requires Valid(t)
    ensures Valid(r.0) && r.0.barCount == t.barCount + |bars| && r.0.config == t.config
    ensures |bars| == 0 ==> r == (t, None)
    ensures |bars| > 0 ==> r.1 == Some(bars[|bars| - 1].close) && r.0.daily.currentDate == Some(DayOf(bars[|bars| - 1].ts))
    ensures r.0.tally.totalTrades >= t.tally.totalTrades && r.0.tally.maxDrawdown >= t.tally.maxDrawdown
    ensures r.0.daily.daysStoppedEarly >= t.daily.daysStoppedEarly
    ensures OneDate(bars) && !t.daily.dailyStopped ==> r.0.daily.daysStoppedEarly == t.daily.daysStoppedEarly
    decreases |bars|
  {
    if |bars| == 0 then (t, None)
    else
      var (t1, last) := RunBars(t, bars[..|bars| - 1], et);
      var b := bars[|bars| - 1];
      assert OneDate(bars) ==> OneDate(bars[..|bars| - 1]) && DayOf(b.ts) == DayOf(bars[0].ts);
      (LiveTrading.ProcessBar(t1, b, et, 0).0, Some(b.close))
  }

  /** The trader as day `i` (of at least one day) starts its bars: after the earlier days, with day `i - 1`'s nodes added. */
  function DayStart(t: Trader, days: seq<CachedDay>, i: nat, et: int -> (nat, nat)): (r: Trader)
    requires Valid(t) && i < |days|
    ensures Valid(r) && r.config == t.config
    ensures !t.daily.dailyStopped && SessionsOnOneDate(days[..i]) ==>
              !r.daily.dailyStopped && r.daily.daysStoppedEarly == t.daily.daysStoppedEarly
    decreases i, 1
  {
    var before := Replay(t, days[..i], et);
    if i > 0 then AddLvnLevels(before, days[i - 1].lvns) else before
  }

  /**
   The trader after replaying `days`, each ended by `reset_for_new_day` at
   its last close. That reset clears a stopped day without counting it, so
   over single-date sessions no day is ever counted as stopped early.
   */
  function Replay(t: Trader, days: seq<CachedDay>, et: int -> (nat, nat)): (r: Trader)
    requires Valid(t)
    ensures Valid(r) && r.config == t.config
    ensures |days| > 0 ==> r.position.None? && r.pending.None? && r.gen.levels == [] && !r.daily.dailyStopped
    ensures r.tally.totalTrades >= t.tally.totalTrades && r.daily.daysStoppedEarly >= t.daily.daysStoppedEarly
    ensures !t.daily.dailyStopped && SessionsOnOneDate(days) ==> r.daily.daysStoppedEarly == t.daily.daysStoppedEarly
    decreases |days|, 0
  {
    if |days| == 0 then t
    else
      var n := |days| - 1;
      assert SessionsOnOneDate(days) ==> SessionsOnOneDate(days[..n]) && OneDate(days[n].bars);
      var start := DayStart(t, days, n, et);
      var (t1, last) := RunBars(start, days[n].bars, et);
      LiveTrading.ResetForNewDayAsWritten(t1, last)
  }

  /**
   No look-ahead: day `i` starts from a trader whose only tracked levels
   are day `i - 1`'s thin nodes (none on the first day), flat, with
   nothing pending, whatever the later days hold.
   */
  lemma {:induction false} DayStartsWithPriorNodesOnly(t: Trader, days: seq<CachedDay>, i: nat, et: int -> (nat, nat))
    requires Valid(t) && 0 < i < |days|
    ensures DayStart(t, days, i, et).gen.levels == AddLevels(t.gen.config, [], days[i - 1].lvns, OwnId).0
    ensures DayStart(t, days, i, et).position.None? && DayStart(t, days, i, et).pending.None?
    ensures forall later: seq<CachedDay> :: |later| == |days| - i - 1 ==>
      DayStart(t, days[..i + 1] + later, i, et) == DayStart(t, days, i, et)
  {
    var before := Replay(t, days[..i], et);
    assert before.gen.config == t.gen.config;
    forall later: seq<CachedDay> | |later| == |days| - i - 1
      ensures DayStart(t, days[..i + 1] + later, i, et) == DayStart(t, days, i, et)
    {
      var other := days[..i + 1] + later;
      assert other[..i] == days[..i];
      assert other[i - 1] == days[i - 1];
    }
  }

  /**
   `run_replay`: an error without cached days; otherwise the summary of a
   fresh trader replayed over them. The last day's stop is cleared before
   the summary looks, and over single-date sessions the reported count of
   days stopped early is zero whatever the losses.
   */
  function RunReplay(c: LiveConfig, days: seq<CachedDay>, et: int -> (nat, nat), sqrt: real -> real): (r: Result<TradingSummary>)
    ensures r.Err? <==> |days| == 0
    ensures r.Ok? ==> r.value == Summary(Replay(NewTrader(c), days, et), sqrt)
    ensures r.Ok? ==> r.value.totalTrades == r.value.wins + r.value.losses + r.value.breakevens
    ensures r.Ok? ==> r.value.daysStoppedEarly == Replay(NewTrader(c), days, et).daily.daysStoppedEarly
    ensures r.Ok? && SessionsOnOneDate(days) ==> r.value.daysStoppedEarly == 0
  {
    if |days| == 0 then Err("No cached data found. Run 'precompute' first.")
    else Ok(Summary(Replay(NewTrader(c), days, et), sqrt))
  }
}
