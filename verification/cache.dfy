/**
 The on-disk day cache and the raw trade files (`trading_core/cache.rs`,
 `pipeline/precompute.rs`, `pipeline/trades.rs`): which file names count,
 the date filter, the drop-on-failure loader, the empty-day record and the
 row filter applied to the exchange's trade records.

 Directories are given as the list of their entry names (plus whether the
 directory exists); decoding a cached day or a CSV row is a caller-supplied
 result, since decompression and deserialisation are not modelled.
 */
module Cache {
  import opened Base
  import opened Text
  import opened Ranking
  import opened Calendar
  import opened Market
  import opened Symbols
  import opened Impulse
  import opened Lvn
  import opened Levels

  // ---------------------------------------------------------------------
  // Sorting names
  // ---------------------------------------------------------------------

  predicate LexSorted(s: seq<string>)
  {
    forall i, j :: 0 <= i < j < |s| ==> LexLe(s[i], s[j])
  }

  function InsertName(x: string, s: seq<string>): (r: seq<string>)
    requires LexSorted(s)
    ensures LexSorted(r)
    ensures multiset(r) == multiset(s) + multiset{x}
    ensures |r| == |s| + 1
  {
    if |s| == 0 then [x]
    else if LexLe(s[|s| - 1], x) then
      assert forall i :: 0 <= i < |s| ==> LexLe(s[i], x) by {
        forall i | 0 <= i < |s| - 1 ensures LexLe(s[i], x) {
          LexLeTransitive(s[i], s[|s| - 1], x);
        }
      }
      s + [x]
    else
      var init := s[..|s| - 1];
      var last := s[|s| - 1];
      assert s == init + [last];
      LexLeTotal(last, x);
      var r := InsertName(x, init);
      forall i | 0 <= i < |r| ensures LexLe(r[i], last) {
        assert r[i] in multiset(r);
        if r[i] != x {
          assert r[i] in multiset(init);
          var k :| 0 <= k < |init| && init[k] == r[i];
          assert LexLe(s[k], s[|s| - 1]);
        }
      }
      r + [last]
  }

  /** `Vec<String>::sort` / `Vec<PathBuf>::sort` on names in one directory: byte-wise order. */
  function SortNames(s: seq<string>): (r: seq<string>)
    ensures LexSorted(r)
    ensures multiset(r) == multiset(s)
    ensures |r| == |s|
  {
    if |s| == 0 then []
    else
      var init := s[..|s| - 1];
      assert s == init + [s[|s| - 1]];
      InsertName(s[|s| - 1], SortNames(init))
  }

  // ---------------------------------------------------------------------
  // Cached dates and the date filter
  // ---------------------------------------------------------------------

  const CacheSuffix: string := ".json.zst"

  /** Date labels of the entries named `<date>.json.zst`, in directory order. */
  function StrippedNames(names: seq<string>): (r: seq<string>)
    ensures forall d :: d in r <==> d + CacheSuffix in names
  {
    if |names| == 0 then []
    else
      var init := StrippedNames(names[..|names| - 1]);
      var n := names[|names| - 1];
      assert names == names[..|names| - 1] + [n];
      match StripSuffix(n, CacheSuffix)
      case None =>
        forall d ensures IsSuffix(CacheSuffix, d + CacheSuffix) {
          assert (d + CacheSuffix)[|d|..] == CacheSuffix;
        }
        init
      case Some(d) =>
        assert forall e :: e + CacheSuffix == n ==> e == d by {
          forall e | e + CacheSuffix == n ensures e == d {
            assert e == n[..|n| - |CacheSuffix|];
          }
        }
        init + [d]
  }

  /**
   `get_cached_dates`: empty when the directory is missing; otherwise the
   cached dates sorted ascending.
   */
  function CachedDates(present: bool, names: seq<string>): (r: seq<string>)
    ensures !present ==> r == []
    ensures LexSorted(r)
    ensures present ==> forall d :: d in r <==> d + CacheSuffix in names
  {
    if !present then []
    else
      var s := StrippedNames(names);
      var r := SortNames(s);
      assert forall d :: d in r <==> d in s by {
        forall d ensures d in r <==> d in s {
          assert d in r <==> d in multiset(r);
          assert d in s <==> d in multiset(s);
        }
      }
      r
  }

  /**
   The date filter of `load_all_cached`: no filter keeps every date; a
   filter with exactly one ':' is an inclusive byte-wise range; any other
   filter is a substring match.
   */
  predicate Selects(filter: Option<string>, d: string)
  {
    match filter
    case None => true
    case Some(f) =>
      if ':' in f then
        var parts := Split(f, ':');
        if |parts| == 2 then LexLe(parts[0], d) && LexLe(d, parts[1]) else Contains(d, f)
      else Contains(d, f)
  }

  /** A range filter "a:b" keeps exactly the dates from a to b inclusive. */
  lemma RangeFilter(a: string, b: string, d: string)
    requires ':' !in a && ':' !in b
    ensures Selects(Some(a + ":" + b), d) <==> LexLe(a, d) && LexLe(d, b)
  {
    var f := a + ":" + b;
    assert f == Join([a, b], ':');
    JoinSplit([a, b], ':');
    assert f[|a|] == ':';
  }

  /** A filter without ':' is a substring match. */
  lemma SubstringFilter(f: string, d: string)
    requires ':' !in f
    ensures Selects(Some(f), d) <==> Contains(d, f)
  {
  }

  function DatesToLoad(dates: seq<string>, filter: Option<string>): (r: seq<string>)
    ensures filter.None? ==> r == dates
    ensures forall d :: d in r <==> d in dates && Selects(filter, d)
    ensures |r| <= |dates|
  {
    var keep := (d: string) => Selects(filter, d);
    if filter.None? then
      FilterAll(dates, keep);
      Filter(dates, keep)
    else Filter(dates, keep)
  }

  /** Filtering a sorted list of names leaves it sorted. */
  lemma {:induction false} FilterLexSorted(xs: seq<string>, p: string -> bool)
    requires LexSorted(xs)
    ensures LexSorted(Filter(xs, p))
    decreases |xs|
  {
    if |xs| > 0 {
      var init := xs[..|xs| - 1];
      var last := xs[|xs| - 1];
      FilterLexSorted(init, p);
      var fi := Filter(init, p);
      forall i | 0 <= i < |fi| ensures LexLe(fi[i], last) {
        var k :| 0 <= k < |init| && init[k] == fi[i];
        assert LexLe(xs[k], xs[|xs| - 1]);
      }
    }
  }

  /** The dates to load stay in ascending order. */
  lemma DatesToLoadSorted(dates: seq<string>, filter: Option<string>)
    requires LexSorted(dates)
    ensures LexSorted(DatesToLoad(dates, filter))
  {
    FilterLexSorted(dates, (d: string) => Selects(filter, d));
  }

  // ---------------------------------------------------------------------
  // Loading
  // ---------------------------------------------------------------------

  /**
   `load_day_cache`: an absent file is `Ok(None)`; otherwise the outcome of
   reading and decoding it.
   */
  function LoadDayCache<T>(present: bool, decoded: Result<T>): (r: Result<Option<T>>)
    ensures !present ==> r == Ok(None)
    ensures present ==> (r.Ok? <==> decoded.Ok?)
    ensures present && decoded.Ok? ==> r == Ok(Some(decoded.value))
  {
    if !present then Ok(None)
    else match decoded
      case Err(m) => Err(m)
      case Ok(v) => Ok(Some(v))
  }

  /**
   The loading loop of `load_all_cached`: days that are absent or fail to
   load are dropped; the others are kept in date order.
   */
  function LoadAll<T>(dates: seq<string>, load: string -> Result<Option<T>>): (r: seq<T>)
    ensures |r| <= |dates|
    ensures forall i :: 0 <= i < |r| ==> exists k :: 0 <= k < |dates| && load(dates[k]) == Ok(Some(r[i]))
  {
    if |dates| == 0 then []
    else
      var init := LoadAll(dates[..|dates| - 1], load);
      var d := dates[|dates| - 1];
      var r := match load(d) case Ok(Some(v)) => init + [v] case _ => init;
      assert forall i :: 0 <= i < |r| ==> exists k :: 0 <= k < |dates| && load(dates[k]) == Ok(Some(r[i])) by {
        forall i | 0 <= i < |r| ensures exists k :: 0 <= k < |dates| && load(dates[k]) == Ok(Some(r[i])) {
          if i < |init| {
            var k :| 0 <= k < |dates| - 1 && load(dates[..|dates| - 1][k]) == Ok(Some(init[i]));
            assert load(dates[k]) == Ok(Some(r[i]));
          } else {
            assert load(dates[|dates| - 1]) == Ok(Some(r[i]));
          }
        }
      }
      r
  }

  /** Loading distributes over concatenation: the kept days keep their relative order. */
  lemma {:induction false} LoadAllAppend<T>(a: seq<string>, b: seq<string>, load: string -> Result<Option<T>>)
    ensures LoadAll(a + b, load) == LoadAll(a, load) + LoadAll(b, load)
    decreases |b|
  {
    if |b| > 0 {
      assert (a + b)[..|a + b| - 1] == a + b[..|b| - 1];
      LoadAllAppend(a, b[..|b| - 1], load);
    } else {
      assert a + b == a;
    }
  }

  /** When every day loads, nothing is dropped and the order is the date order. */
  lemma {:induction false} LoadAllComplete<T>(dates: seq<string>, load: string -> Result<Option<T>>)
    requires forall k :: 0 <= k < |dates| ==> load(dates[k]).Ok? && load(dates[k]).value.Some?
    ensures |LoadAll(dates, load)| == |dates|
    ensures forall k :: 0 <= k < |dates| ==> load(dates[k]) == Ok(Some(LoadAll(dates, load)[k]))
  {
    if |dates| > 0 {
      LoadAllComplete(dates[..|dates| - 1], load);
    }
  }

  /** `load_all_cached`: list, filter, then load. */
  function LoadAllCached<T>(present: bool, names: seq<string>, filter: Option<string>,
                            load: string -> Result<Option<T>>): (r: seq<T>)
    ensures !present ==> r == []
    ensures forall i :: 0 <= i < |r| ==>
              exists d :: d + CacheSuffix in names && Selects(filter, d) && load(d) == Ok(Some(r[i]))
  {
    var dates := DatesToLoad(CachedDates(present, names), filter);
    var r := LoadAll(dates, load);
    assert forall i :: 0 <= i < |r| ==>
              exists d :: d + CacheSuffix in names && Selects(filter, d) && load(d) == Ok(Some(r[i])) by {
      forall i | 0 <= i < |r|
        ensures exists d :: d + CacheSuffix in names && Selects(filter, d) && load(d) == Ok(Some(r[i]))
      {
        var k :| 0 <= k < |dates| && load(dates[k]) == Ok(Some(r[i]));
        assert dates[k] in dates;
      }
    }
    r
  }

  // ---------------------------------------------------------------------
  // One day's record
  // ---------------------------------------------------------------------

  /** A replayed signal; its fields come from the replay module, which is not part of this model. */
  datatype CapturedSignal = CapturedSignal(ts: int, price: real, direction: Direction)

  datatype DayData = DayData(date: string, bars: seq<Bar>, lvnLevels: seq<LvnLevel>,
                             dailyLevels: seq<DailyLevels>, signals: seq<CapturedSignal>)

  /**
   `process_day` once the file's trades are read: the date comes from the
   file name ("unknown" when it has no third '-' segment); a day without
   trades is an empty record. Bar aggregation, impulse detection and the
   signal replay use modules that are not part of this model, so their
   results are inputs.
   */
  function ProcessDay(name: string, trades: seq<Trade>, bars: seq<Bar>, legs: seq<ImpulseLeg>,
                      signals: seq<CapturedSignal>): (r: DayData)
    ensures r.date == DayLabel(name)
    ensures |trades| == 0 ==> r.bars == [] && r.lvnLevels == [] && r.dailyLevels == [] && r.signals == []
    ensures |trades| > 0 ==> r.bars == bars && r.signals == signals && |r.dailyLevels| == |BarDays(bars)|
    ensures forall l :: l in r.lvnLevels ==> IsLow(l.volume, l.avgVolume, ThresholdRatio)
  {
    var date := DayLabel(name);
    if |trades| == 0 then DayData(date, [], [], [], [])
    else DayData(date, bars, ExtractLvns(trades, legs), ComputeDailyLevels(bars), signals)
  }

  // ---------------------------------------------------------------------
  // Trade files
  // ---------------------------------------------------------------------

  /** `path.extension() == "zst"`: a final ".zst" after a non-empty stem. */
  predicate HasZstExtension(name: string)
  {
    |name| > 4 && IsSuffix(".zst", name)
  }

  /** `find_zst_files`: the ".zst" entries whose name contains the filter, sorted. */
  function FindZstFiles(names: seq<string>, filter: Option<string>): (r: seq<string>)
    ensures LexSorted(r)
    ensures forall n :: n in r <==> n in names && HasZstExtension(n) && (filter.Some? ==> Contains(n, filter.value))
  {
    var keep := (n: string) => HasZstExtension(n) && (filter.Some? ==> Contains(n, filter.value));
    var kept := Filter(names, keep);
    var r := SortNames(kept);
    assert forall n :: n in r <==> n in kept by {
      forall n ensures n in r <==> n in kept {
        assert n in r <==> n in multiset(r);
        assert n in kept <==> n in multiset(kept);
      }
    }
    r
  }

  /** The fields of a trade record the filter reads; `ts` is the parsed RFC 3339 timestamp, if it parsed. */
  datatype CsvRow = CsvRow(action: string, side: string, symbol: string, price: real, size: nat, ts: Option<int>)

  function RowSide(side: string): (r: Option<Side>)
    ensures r == Some(Buy) <==> side == "B"
    ensures r == Some(Sell) <==> side == "A"
  {
    if side == "B" then Some(Buy) else if side == "A" then Some(Sell) else None
  }

  /** A row becomes a trade: a trade action, on the front-month contract, with a known aggressor side. */
  predicate Kept(row: CsvRow, front: string)
  {
    row.action == "T" && row.symbol == front && RowSide(row.side).Some?
  }

  function KeepFor(front: string): CsvRow -> bool
  {
    row => Kept(row, front)
  }

  /** The trade a kept row turns into. */
  predicate TradeOfRow(t: Trade, row: CsvRow)
  {
    row.ts == Some(t.ts) && t.price == row.price && t.size == row.size
    && RowSide(row.side) == Some(t.side) && t.symbol == row.symbol
  }

  /**
   The row loop of `parse_zst_trades`: other actions, other contracts and
   unknown sides are skipped; a kept row whose timestamp does not parse
   fails the whole file.
   */
  function ParseRows(rows: seq<CsvRow>, front: string): (r: Result<seq<Trade>>)
    ensures r.Ok? <==> forall i :: 0 <= i < |rows| && Kept(rows[i], front) ==> rows[i].ts.Some?
  {
    if |rows| == 0 then Ok([])
    else
      var init := rows[..|rows| - 1];
      var row := rows[|rows| - 1];
      assert forall i :: 0 <= i < |init| ==> init[i] == rows[i];
      match ParseRows(init, front)
      case Err(m) => Err(m)
      case Ok(ts) =>
        if !Kept(row, front) then Ok(ts)
        else match row.ts
          case None => Err("Failed to parse timestamp")
          case Some(t) => Ok(ts + [Trade(t, row.price, row.size, RowSide(row.side).value, row.symbol)])
  }

  /** The trades parsed are, one for one and in order, the kept rows. */
  lemma {:induction false} ParseRowsKept(rows: seq<CsvRow>, front: string)
    requires ParseRows(rows, front).Ok?
    ensures var kept := Filter(rows, KeepFor(front));
            var ts := ParseRows(rows, front).value;
            |ts| == |kept| && forall i :: 0 <= i < |kept| ==> TradeOfRow(ts[i], kept[i])
    decreases |rows|
  {
    if |rows| > 0 {
      var init := rows[..|rows| - 1];
      var row := rows[|rows| - 1];
      ParseRowsKept(init, front);
      assert Filter(rows, KeepFor(front)) == Filter(init, KeepFor(front)) + (if KeepFor(front)(row) then [row] else []);
    }
  }

  /**
   `parse_zst_trades`: a file name without a date is an error; otherwise
   only the front-month contract for that date is kept.
   */
  function ParseTrades(name: string, rows: seq<CsvRow>): (r: Result<seq<Trade>>)
    ensures ExtractDateFromFilename(name).None? ==> r.Err?
    ensures r.Ok? ==> forall i :: 0 <= i < |r.value| ==> r.value[i].symbol == FrontMonthSymbol(ExtractDateFromFilename(name).value)
  {
    match ExtractDateFromFilename(name)
    case None => Err("Failed to extract date from filename")
    case Some(d) =>
      var r := ParseRows(rows, FrontMonthSymbol(d));
      assert r.Ok? ==> forall i :: 0 <= i < |r.value| ==> r.value[i].symbol == FrontMonthSymbol(d) by {
        if r.Ok? {
          ParseRowsKept(rows, FrontMonthSymbol(d));
          var kept := Filter(rows, KeepFor(FrontMonthSymbol(d)));
          forall i | 0 <= i < |r.value| ensures r.value[i].symbol == FrontMonthSymbol(d) {
            assert KeepFor(FrontMonthSymbol(d))(kept[i]);
          }
        }
      }
      r
  }
}
