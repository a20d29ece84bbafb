/**
 Contract symbols and day names: the front-month contract code for a date
 (two variants, `pipeline/main.rs` and `pipeline/trades.rs`), the date
 carried in a data file's name, and the comma-separated value lists of the `Sweep`
 command.
 */
module Symbols {
  import opened Base
  import opened Text
  import opened Calendar
  import SweepGrid

  /** Rust `%` on a signed integer: the remainder takes the sign of the dividend. */
  function RustRem(a: int, b: int): (r: int)
    requires b > 0
    ensures a >= 0 ==> 0 <= r < b
    ensures a < 0 ==> -b < r <= 0
  {
    if a >= 0 then a % b else -((-a) % b)
  }

  /** `x as u8`: the low eight bits of a two's-complement integer. */
  function AsU8(x: int): (r: nat)
    ensures r < 256
    ensures 0 <= x < 256 ==> r == x
    ensures (x - r) % 256 == 0
  {
    x % 256
  }

  /** Expiry month of a quarterly code. */
  function CodeMonth(c: char): (m: int)
  {
    if c == 'H' then 3 else if c == 'M' then 6 else if c == 'U' then 9 else 12
  }

  predicate IsQuarterCode(c: char)
  {
    c == 'H' || c == 'M' || c == 'U' || c == 'Z'
  }

  /** Strict chronological order of calendar dates. */
  predicate Before(a: Date, b: Date)
  {
    a.year < b.year || (a.year == b.year && (a.month < b.month || (a.month == b.month && a.day < b.day)))
  }

  /** The 10th of a quarter's expiry month, the day the code rolls to the next quarter. */
  function RollDate(year: int, c: char): Date
  {
    Date(year, CodeMonth(c), 10)
  }

  /** The roll date of the quarter before (c, year). */
  function PreviousRoll(year: int, c: char): Date
  {
    if CodeMonth(c) == 3 then Date(year - 1, 12, 10) else Date(year, CodeMonth(c) - 3, 10)
  }

  /**
   `get_front_month_contract`'s month match: the contract code and the
   contract year. The front month is the quarter whose roll date is the
   first one strictly after the date: the date falls before that quarter's
   10th and on or after the previous quarter's 10th.
   */
  function RollingContract(d: Date): (r: (char, int))
    requires Valid(d)
    ensures IsQuarterCode(r.0)
    ensures r.1 == d.year || (r.1 == d.year + 1 && d.month == 12 && d.day >= 10)
    ensures Before(d, RollDate(r.1, r.0)) && !Before(d, PreviousRoll(r.1, r.0))
  {
    match d.month
    case 1 => ('H', d.year)
    case 2 => ('H', d.year)
    case 3 => if d.day < 10 then ('H', d.year) else ('M', d.year)
    case 4 => ('M', d.year)
    case 5 => ('M', d.year)
    case 6 => if d.day < 10 then ('M', d.year) else ('U', d.year)
    case 7 => ('U', d.year)
    case 8 => ('U', d.year)
    case 9 => if d.day < 10 then ('U', d.year) else ('Z', d.year)
    case 10 => ('Z', d.year)
    case 11 => ('Z', d.year)
    case 12 => if d.day < 10 then ('Z', d.year) else ('H', d.year + 1)
    case _ => ('H', d.year)
  }

  /** `get_front_month_contract`: base, code, then the contract year's last digit (Rust remainder). */
  function FrontMonthContract(base: string, d: Date): (s: string)
    requires Valid(d)
    ensures |s| > |base| + 1 && s[..|base|] == base && IsQuarterCode(s[|base|])
    ensures s[|base|] == RollingContract(d).0 && s[|base| + 1..] == IntToString(RustRem(RollingContract(d).1, 10))
    ensures d.year >= 0 ==> |s| == |base| + 2 && s[|base| + 1] == DigitChar(RollingContract(d).1 % 10)
  {
    var (c, y) := RollingContract(d);
    base + [c] + IntToString(RustRem(y, 10))
  }

  /** `get_front_month_symbol`'s calendar-quarter code. */
  function QuarterCode(d: Date): (c: char)
    requires Valid(d)
    ensures IsQuarterCode(c)
    ensures d.month <= CodeMonth(c) < d.month + 3
  {
    if d.month <= 3 then 'H' else if d.month <= 6 then 'M' else if d.month <= 9 then 'U' else 'Z'
  }

  /** `get_front_month_symbol`: "NQ", the quarter's code, then `(year % 10) as u8`. */
  function FrontMonthSymbol(d: Date): (s: string)
    requires Valid(d)
    ensures |s| >= 4 && s[..2] == "NQ" && IsQuarterCode(s[2]) && s[2] == QuarterCode(d)
    ensures d.year >= 0 ==> |s| == 4 && s[3] == DigitChar(d.year % 10)
  {
    "NQ" + [QuarterCode(d)] + NatToString(AsU8(RustRem(d.year, 10)))
  }

  /** Inside the roll window (a quarter month from its 10th on). */
  predicate InRollWindow(d: Date)
  {
    d.month % 3 == 0 && d.day >= 10
  }

  /**
   The two front-month rules name the same NQ contract exactly outside the
   roll window; inside it the data loader keeps the expiring contract while
   the live commands have moved to the next one.
   */
  lemma FrontMonthRulesAgree(d: Date)
    requires Valid(d) && d.year >= 0
    ensures FrontMonthContract("NQ", d) == FrontMonthSymbol(d) <==> !InRollWindow(d)
  {
    var (c, y) := RollingContract(d);
    var a := FrontMonthContract("NQ", d);
    var b := FrontMonthSymbol(d);
    assert a[2] == c;
    assert b[2] == QuarterCode(d);
    if !InRollWindow(d) {
      assert c == QuarterCode(d) && y == d.year;
      assert RustRem(y, 10) == AsU8(RustRem(d.year, 10));
    } else {
      assert c != QuarterCode(d);
    }
  }

  // ---------------------------------------------------------------------
  // Day names in data file names

  predicate IsSep(c: char)
  {
    c == '-' || c == '.'
  }

  function FindSep(s: string): (r: Option<nat>)
    ensures r.Some? ==> r.value < |s| && IsSep(s[r.value]) && forall j :: 0 <= j < r.value ==> !IsSep(s[j])
    ensures r.None? ==> forall j :: 0 <= j < |s| ==> !IsSep(s[j])
  {
    if |s| == 0 then None
    else if IsSep(s[0]) then Some(0)
    else match FindSep(s[1..])
      case None => None
      case Some(k) => Some(k + 1)
  }

  /** `filename.split(&['-', '.'][..])`. */
  function SplitSeps(s: string): (r: seq<string>)
    ensures |r| >= 1
    ensures forall k, j :: 0 <= k < |r| && 0 <= j < |r[k]| ==> !IsSep(r[k][j])
    decreases |s|
  {
    match FindSep(s)
    case None => [s]
    case Some(i) => [s[..i]] + SplitSeps(s[i + 1..])
  }

  /** Pieces glued with one separator each, `seps[i]` between piece i and i+1. */
  function JoinSeps(parts: seq<string>, seps: string): string
    requires |parts| >= 1 && |seps| == |parts| - 1
  {
    if |parts| == 1 then parts[0] else parts[0] + [seps[0]] + JoinSeps(parts[1..], seps[1..])
  }

  lemma {:induction false} FindSepAppend(a: string, b: string)
    requires forall j :: 0 <= j < |a| ==> !IsSep(a[j])
    requires |b| > 0 && IsSep(b[0])
    ensures FindSep(a + b) == Some(|a|)
  {
    if |a| > 0 {
      assert (a + b)[1..] == a[1..] + b;
      FindSepAppend(a[1..], b);
    } else {
      assert a + b == b;
    }
  }

  /** Splitting separator-free pieces joined by separators gives the pieces back. */
  lemma {:induction false} SplitJoinSeps(parts: seq<string>, seps: string)
    requires |parts| >= 1 && |seps| == |parts| - 1
    requires forall j :: 0 <= j < |seps| ==> IsSep(seps[j])
    requires forall k, j :: 0 <= k < |parts| && 0 <= j < |parts[k]| ==> !IsSep(parts[k][j])
    ensures SplitSeps(JoinSeps(parts, seps)) == parts
  {
    if |parts| == 1 {
      assert FindSep(JoinSeps(parts, seps)).None?;
    } else {
      SplitFirstPiece(parts[0], seps[0], JoinSeps(parts[1..], seps[1..]));
      SplitJoinSeps(parts[1..], seps[1..]);
      assert parts == [parts[0]] + parts[1..];
    }
  }

  /** A separator-free piece and a separator in front of `rest` split off as one piece. */
  lemma SplitFirstPiece(p: string, sep: char, rest: string)
    requires IsSep(sep) && forall j :: 0 <= j < |p| ==> !IsSep(p[j])
    ensures SplitSeps(p + [sep] + rest) == [p] + SplitSeps(rest)
  {
    var s := p + [sep] + rest;
    assert s == p + ([sep] + rest);
    FindSepAppend(p, [sep] + rest);
    assert s[..|p|] == p;
    assert s[|p| + 1..] == rest;
  }

  predicate IsDatePiece(p: string)
  {
    |p| == 8 && AllDigits(p)
  }

  /** Index of the first eight-digit piece. */
  function FirstDatePiece(parts: seq<string>): (r: Option<nat>)
    ensures r.Some? ==> r.value < |parts| && IsDatePiece(parts[r.value])
                        && forall j :: 0 <= j < r.value ==> !IsDatePiece(parts[j])
    ensures r.None? ==> forall j :: 0 <= j < |parts| ==> !IsDatePiece(parts[j])
  {
    if |parts| == 0 then None
    else if IsDatePiece(parts[0]) then Some(0)
    else match FirstDatePiece(parts[1..])
      case None => None
      case Some(k) => Some(k + 1)
  }

  /**
   `extract_date_from_filename`: the first eight-digit piece decides the
   answer, even when it is not a real day and a later piece would be.
   */
  function ExtractDateFromFilename(name: string): (r: Option<Date>)
    ensures r.Some? ==> Valid(r.value)
    ensures (forall j :: 0 <= j < |SplitSeps(name)| ==> !IsDatePiece(SplitSeps(name)[j])) ==> r.None?
  {
    var parts := SplitSeps(name);
    match FirstDatePiece(parts)
    case None => None
    case Some(i) => ParseYmd(parts[i])
  }

  /** The exchange's file name for a day's trades. */
  function TradesFileName(d: Date): string
    requires Valid(d) && 0 <= d.year <= 9999
  {
    "glbx-mdp3-" + FormatYmd(d) + ".trades.csv.zst"
  }

  lemma TradesFileNamePieces(d: Date)
    requires Valid(d) && 0 <= d.year <= 9999
    ensures TradesFileName(d) == JoinSeps(["glbx", "mdp3", FormatYmd(d), "trades", "csv", "zst"], "--...")
  {
    var parts := ["glbx", "mdp3", FormatYmd(d), "trades", "csv", "zst"];
    assert JoinSeps(parts[5..], "") == "zst";
    assert JoinSeps(parts[4..], ".") == "csv.zst";
    assert JoinSeps(parts[3..], "..") == "trades.csv.zst";
    assert JoinSeps(parts[2..], "...") == FormatYmd(d) + ".trades.csv.zst";
    assert JoinSeps(parts[1..], "-...") == "mdp3-" + FormatYmd(d) + ".trades.csv.zst";
  }

  /** The day a file is named for is the day read back from its name. */
  lemma ExtractDateFromTradesFile(d: Date)
    requires Valid(d) && 0 <= d.year <= 9999
    ensures ExtractDateFromFilename(TradesFileName(d)) == Some(d)
  {
    var parts := ["glbx", "mdp3", FormatYmd(d), "trades", "csv", "zst"];
    TradesFileNamePieces(d);
    SplitJoinSeps(parts, "--...");
    assert !IsDatePiece(parts[0]) && !IsDatePiece(parts[1]) && IsDatePiece(parts[2]);
    assert FirstDatePiece(parts[2..]) == Some(0);
    assert FirstDatePiece(parts[1..]) == Some(1);
    YmdRoundTrip(d);
  }

  /** `extract_date_from_path`: the third '-'-piece, cut at its first '.'. */
  function ExtractDateFromPath(name: string): (r: Option<string>)
    ensures r.Some? <==> Occurrences(name, '-') >= 2
    ensures r.Some? ==> forall j :: 0 <= j < |r.value| ==> r.value[j] != '-' && r.value[j] != '.'
  {
    var parts := Split(name, '-');
    SplitCount(name, '-');
    if |parts| < 3 then None
    else
      var head := Split(parts[2], '.')[0];
      assert forall j :: 0 <= j < |head| ==> head[j] != '-' by {
        SplitSubsequence(parts[2], '.');
      }
      Some(head)
  }

  lemma SplitSubsequence(s: string, c: char)
    requires forall j :: 0 <= j < |s| ==> s[j] != '-'
    ensures forall j :: 0 <= j < |Split(s, c)[0]| ==> Split(s, c)[0][j] != '-'
  {
    match IndexOf(s, c)
    case None =>
    case Some(i) =>
  }

  /** `process_day`'s date label: the same piece, or "unknown". */
  function DayLabel(name: string): (r: string)
    ensures ExtractDateFromPath(name).Some? ==> r == ExtractDateFromPath(name).value
    ensures ExtractDateFromPath(name).None? ==> r == "unknown"
  {
    match ExtractDateFromPath(name)
    case None => "unknown"
    case Some(s) => s
  }

  /** Both date readers agree on the exchange's file names. */
  lemma DateReadersAgree(d: Date)
    requires Valid(d) && 0 <= d.year <= 9999
    ensures ExtractDateFromPath(TradesFileName(d)) == Some(FormatYmd(d))
    ensures ParseYmd(FormatYmd(d)) == ExtractDateFromFilename(TradesFileName(d))
  {
    var ymd := FormatYmd(d);
    var tail := ymd + ".trades.csv.zst";
    var parts := ["glbx", "mdp3", tail];
    assert Join(parts[2..], '-') == tail;
    assert Join(parts[1..], '-') == "mdp3-" + tail;
    assert TradesFileName(d) == Join(parts, '-');
    JoinSplit(["glbx", "mdp3", tail], '-');
    assert IndexOf(ymd, '.').None?;
    IndexOfAppend(ymd, ".trades.csv.zst", '.');
    assert tail[..|ymd|] == ymd;
    ExtractDateFromTradesFile(d);
    YmdRoundTrip(d);
  }

  // ---------------------------------------------------------------------
  // `Sweep` command value lists

  /** `s.split(',').filter_map(|s| s.trim().parse().ok())`. */
  function ParseList<T>(s: string, parse: string -> Option<T>): (r: seq<T>)
    ensures |r| <= |Split(s, ',')|
  {
    ParseTokens(Split(s, ','), parse)
  }

  /** The successful parses of the tokens, in token order. */
  function ParseTokens<T>(tokens: seq<string>, parse: string -> Option<T>): (r: seq<T>)
    ensures |r| <= |tokens|
  {
    if |tokens| == 0 then []
    else
      var init := ParseTokens(tokens[..|tokens| - 1], parse);
      match parse(Trim(tokens[|tokens| - 1]))
      case None => init
      case Some(v) => init + [v]
  }

  /** Every value in the list is the parse of some token. */
  lemma {:induction false} ParseTokensMember<T>(tokens: seq<string>, parse: string -> Option<T>, k: nat)
    requires k < |ParseTokens(tokens, parse)|
    ensures exists i :: 0 <= i < |tokens| && parse(Trim(tokens[i])) == Some(ParseTokens(tokens, parse)[k])
  {
    var init := tokens[..|tokens| - 1];
    var r := ParseTokens(tokens, parse);
    if k < |ParseTokens(init, parse)| {
      ParseTokensMember(init, parse, k);
      var i :| 0 <= i < |init| && parse(Trim(init[i])) == Some(ParseTokens(init, parse)[k]);
      assert init[i] == tokens[i];
    } else {
      assert parse(Trim(tokens[|tokens| - 1])) == Some(r[k]);
    }
  }

  /** Every token parses. */
  predicate AllParse<T>(tokens: seq<string>, parse: string -> Option<T>)
  {
    forall i :: 0 <= i < |tokens| ==> parse(Trim(tokens[i])).Some?
  }

  /** `t.trim().parse()`. */
  function Trimmed<T>(parse: string -> Option<T>): string -> Option<T>
  {
    (t: string) => parse(Trim(t))
  }

  /** `vs` holds the readings of the tokens by `f`, one per token, in order. */
  ghost predicate ReadAs<T>(vs: seq<T>, tokens: seq<string>, f: string -> Option<T>)
  {
    |vs| == |tokens| && forall i :: 0 <= i < |vs| ==> f(tokens[i]) == Some(vs[i])
  }

  /** `vs` holds the parses of the trimmed tokens, one per token, in order. */
  ghost predicate ParsedAs<T>(vs: seq<T>, tokens: seq<string>, parse: string -> Option<T>)
  {
    ReadAs(vs, tokens, Trimmed(parse))
  }

  /** When every token parses, the list is exactly their values, in order. */
  lemma {:induction false} ParseTokensAllGood<T>(tokens: seq<string>, parse: string -> Option<T>)
    requires AllParse(tokens, parse)
    ensures ParsedAs(ParseTokens(tokens, parse), tokens, parse)
  {
    if |tokens| > 0 {
      var n := |tokens| - 1;
      var init := tokens[..n];
      forall i | 0 <= i < n
        ensures parse(Trim(init[i])).Some?
      {
        assert init[i] == tokens[i];
      }
      ParseTokensAllGood(init, parse);
      ParseTokensSnoc(tokens, parse);
      assert Trimmed(parse)(tokens[n]) == parse(Trim(tokens[n]));
      ReadSnoc(ParseTokens(init, parse), tokens, Trimmed(parse));
    }
  }

  lemma ParseTokensSnoc<T>(tokens: seq<string>, parse: string -> Option<T>)
    requires |tokens| > 0 && parse(Trim(tokens[|tokens| - 1])).Some?
    ensures ParseTokens(tokens, parse) == ParseTokens(tokens[..|tokens| - 1], parse) + [parse(Trim(tokens[|tokens| - 1])).value]
  {
  }

  lemma ReadSnoc<T>(a: seq<T>, tokens: seq<string>, f: string -> Option<T>)
    requires |tokens| > 0 && f(tokens[|tokens| - 1]).Some?
    requires ReadAs(a, tokens[..|tokens| - 1], f)
    ensures ReadAs(a + [f(tokens[|tokens| - 1]).value], tokens, f)
  {
    var n := |tokens| - 1;
    var r := a + [f(tokens[n]).value];
    forall i | 0 <= i < |r|
      ensures f(tokens[i]) == Some(r[i])
    {
      if i < n {
        assert tokens[..n][i] == tokens[i];
      }
    }
  }

  /** When no token parses, the list is empty. */
  lemma {:induction false} ParseTokensAllBad<T>(tokens: seq<string>, parse: string -> Option<T>)
    requires forall i :: 0 <= i < |tokens| ==> parse(Trim(tokens[i])).None?
    ensures ParseTokens(tokens, parse) == []
  {
    if |tokens| > 0 {
      ParseTokensAllBad(tokens[..|tokens| - 1], parse);
    }
  }

  const I64Min: int := -0x8000_0000_0000_0000
  const I64Max: int := 0x7FFF_FFFF_FFFF_FFFF
  const UsizeMax: int := 0xFFFF_FFFF_FFFF_FFFF

  /** `str::parse::<i64>`: a signed digit run within range. */
  function ParseI64(s: string): (r: Option<int>)
    ensures r.Some? ==> I64Min <= r.value <= I64Max
  {
    match ParseInt(s)
    case Some(v) => if I64Min <= v <= I64Max then Some(v) else None
    case None => None
  }

  /** `str::parse::<usize>` on a 64-bit target. */
  function ParseUsize(s: string): (r: Option<nat>)
    ensures r.Some? ==> r.value <= UsizeMax
  {
    match ParseNat(s)
    case Some(v) => if v <= UsizeMax then Some(v) else None
    case None => None
  }

  function ParseU8(s: string): (r: Option<nat>)
    ensures r.Some? ==> r.value < 256
  {
    match ParseNat(s)
    case Some(v) => if v < 256 then Some(v) else None
    case None => None
  }

  function MinDeltaList(s: string): seq<int> { ParseList(s, ParseI64) }

  function RealList(s: string): seq<real> { ParseList(s, ParseF64) }

  /**
   The float lists read scientific notation and strip any Unicode white
   space: "1e1" and "<form feed>20" both read as values, so by
   `ParseTokensAllGood` the list "1e1,<form feed>20" keeps both.
   */
  lemma FloatTokensExample()
    ensures ParseF64(Trim("1e1")) == Some(10.0)
    ensures ParseF64(Trim("\U{C}20")) == Some(20.0)
  {
    TrimIdentity("1e1");
    ParseF64Examples();
    FormFeedTrimmed();
    TwentyParsed();
  }

  lemma FormFeedTrimmed()
    ensures Trim("\U{C}20") == "20"
  {
    var s := "\U{C}20";
    assert IsSpace(s[0]) && !IsSpace('2') && !IsSpace('0');
    assert s[1..] == "20";
    assert TrimStart("20") == "20";
    assert TrimStart(s) == "20";
    assert TrimEnd("20") == "20";
  }

  lemma TwentyParsed()
    ensures ParseF64("20") == Some(20.0)
  {
    ParseF64Plain("20");
    assert "20"[..1] == "2" && "2"[..0] == "";
    assert Magnitude("20") == Some(20.0);
    SignedDecimal("", "20", 20.0);
    assert "" + "20" == "20";
  }

  function UsizeList(s: string): seq<nat> { ParseList(s, ParseUsize) }

  function U8List(s: string): seq<nat> { ParseList(s, ParseU8) }

  /**
   The `Sweep` command's grid: six parsed lists and three fixed one-value
   lists (max LVN ratio 0.25, min impulse size 20.0, breakout threshold 2.0).
   */
  function SweepCommandSlices(minDelta: string, trailingStop: string, takeProfit: string,
                              stopBuffer: string, maxHuntingBars: string, minImpulseScore: string): (r: SweepGrid.SweepSlices)
    ensures r.maxLvnRatio == [0.25] && r.minImpulseSize == [20.0] && r.breakoutThreshold == [2.0]
    ensures r.Size() == |MinDeltaList(minDelta)| * (|U8List(minImpulseScore)| * (|RealList(takeProfit)|
                        * (|RealList(trailingStop)| * (|RealList(stopBuffer)| * |UsizeList(maxHuntingBars)|))))
  {
    SweepGrid.SweepSlices(MinDeltaList(minDelta), [0.25], [20.0], U8List(minImpulseScore),
                          RealList(takeProfit), RealList(trailingStop), RealList(stopBuffer), [2.0],
                          UsizeList(maxHuntingBars))
  }
}
