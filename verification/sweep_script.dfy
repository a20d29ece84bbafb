/**
 The Python sweep drivers (scripts/param_sweep.py and
 scripts/param_sweep_targeted.py): each parameter combination is handed to
 the backtester, the metrics are pulled out of the text it prints, two
 metrics are derived, and one CSV record per successful run is appended to
 the results file.

 The backtester run is an input (`RunOutcome`). Its text is a sequence of
 lines, each either a labelled line (a metric tag followed by the rest
 of the line) or any other line; a metric is read from the first labelled
 line whose rest matches the metric's numeric shape.
 */
module SweepScript {
  import opened Base
  import opened Text
  import opened Values
  import opened Ranking
  import opened SweepGrid
  import opened SweepAnalysis

  // ---------------------------------------------------------------------
  // The backtester command line

  /** Flag and parameter name of every argument `run_backtest` passes, in order. */
  const CommandArgs: seq<(string, string)> := [
    ("--cache-dir", "cache_dir"), ("--contracts", "contracts"), ("--take-profit", "take_profit"),
    ("--trailing-stop", "trailing_stop"), ("--stop-buffer", "stop_buffer"), ("--start-hour", "start_hour"),
    ("--start-minute", "start_minute"), ("--end-hour", "end_hour"), ("--end-minute", "end_minute"),
    ("--min-delta", "min_delta"), ("--max-lvn-ratio", "max_lvn_ratio"), ("--level-tolerance", "level_tolerance"),
    ("--starting-balance", "starting_balance"), ("--breakout-threshold", "breakout_threshold"),
    ("--min-impulse-size", "min_impulse_size"), ("--max-impulse-bars", "max_impulse_bars"),
    ("--max-hunting-bars", "max_hunting_bars"), ("--min-impulse-score", "min_impulse_score"),
    ("--max-retrace-ratio", "max_retrace_ratio"), ("--max-win-cap", "max_win_cap"),
    ("--outlier-threshold", "outlier_threshold")]

  /** Every parameter the command line and the progress line index; a missing one raises `KeyError`. */
  predicate CommandReady(params: Row)
  {
    forall i :: 0 <= i < |CommandArgs| ==> CommandArgs[i].1 in params
  }

  /** `replay-realtime` followed by each flag and its parameter's value. */
  function Command(params: Row): (args: seq<(string, Value)>)
    requires CommandReady(params)
    ensures |args| == |CommandArgs|
    ensures forall i :: 0 <= i < |args| ==> args[i].0 == CommandArgs[i].0 && args[i].1 == params[CommandArgs[i].1]
  {
    seq(|CommandArgs|, i requires 0 <= i < |CommandArgs| => (CommandArgs[i].0, params[CommandArgs[i].1]))
  }

  /** Every generated combination can be run: the swept and fixed names cover the whole command line. */
  lemma CombinationsRunnable(ranges: seq<seq<Value>>, i: nat)
    requires |ranges| == |SweptKeys|
    requires i < |GenerateCombinations(SweptKeys, ranges, FixedParams)|
    ensures CommandReady(GenerateCombinations(SweptKeys, ranges, FixedParams)[i])
  {
    var c := GenerateCombinations(SweptKeys, ranges, FixedParams)[i];
    assert c.Keys == (set k | k in SweptKeys) + FixedParams.Keys;
    forall j | 0 <= j < |CommandArgs|
      ensures CommandArgs[j].1 in c
    {
      var k := CommandArgs[j].1;
      assert k in SweptKeys || k in FixedParams;
    }
  }

  /** Every swept parameter reaches the backtester under its own flag. */
  lemma SweptKeysOnCommandLine(j: nat)
    requires j < |SweptKeys|
    ensures exists i :: 0 <= i < |CommandArgs| && CommandArgs[i].1 == SweptKeys[j]
  {
    var at := [9, 10, 14, 17, 2, 3, 4, 13, 16];
    assert CommandArgs[at[j]].1 == SweptKeys[j];
  }

  // ---------------------------------------------------------------------
  // Metric extraction

  /** A line of the backtester's output. */
  datatype Line = Labelled(tag: string, rest: string) | Other(text: string)

  /** The numeric shapes of the metric patterns. */
  datatype Shape =
    | Count        // \d+
    | Unsigned     // [\d.]+
    | Signed       // [-\d.]+
    | OptSigned    // [+-]?[\d.]+
    | Dollar       // \$([\d,.]+)

  predicate InClass(c: char, shape: Shape)
  {
    match shape
    case Count => IsDigit(c)
    case Unsigned => IsDigit(c) || c == '.'
    case OptSigned => IsDigit(c) || c == '.'
    case Signed => IsDigit(c) || c == '.' || c == '-'
    case Dollar => IsDigit(c) || c == ',' || c == '.'
  }

  /** Length of the longest prefix of `s` made of class characters (the greedy `+`). */
  function ClassRun(s: string, shape: Shape): (n: nat)
    ensures n <= |s|
    ensures forall j :: 0 <= j < n ==> InClass(s[j], shape)
    ensures n < |s| ==> !InClass(s[n], shape)
  {
    if |s| > 0 && InClass(s[0], shape) then 1 + ClassRun(s[1..], shape) else 0
  }

  /** Python's `\s` on text: Unicode white space plus the separators U+001C to U+001F. */
  predicate IsRegexSpace(c: char) { IsSpace(c) || '\U{1C}' <= c <= '\U{1F}' }

  /** Length of the leading white-space run (the `\s+`). */
  function SpaceRun(s: string): (n: nat)
    ensures n <= |s|
    ensures forall j :: 0 <= j < n ==> IsRegexSpace(s[j])
    ensures n < |s| ==> !IsRegexSpace(s[n])
  {
    if |s| > 0 && IsRegexSpace(s[0]) then 1 + SpaceRun(s[1..]) else 0
  }

  /**
   The captured group when the rest of a labelled line matches
   `\s+` followed by the shape: at least one space, then (for `Dollar`) a
   '$', then (for `OptSigned`) an optional sign, then a non-empty greedy run.
   */
  function Capture(rest: string, shape: Shape): (r: Option<string>)
    ensures r.Some? ==> |r.value| > 0
    ensures r.Some? && shape.Count? ==> AllDigits(r.value)
    ensures r.Some? ==> SpaceRun(rest) > 0
  {
    var w := SpaceRun(rest);
    if w == 0 then None
    else
      var t := rest[w..];
      if shape.Dollar? then
        if |t| > 0 && t[0] == '$' then
          var n := ClassRun(t[1..], shape);
          if n == 0 then None else Some(t[1..][..n])
        else None
      else if shape.OptSigned? && |t| > 0 && (t[0] == '+' || t[0] == '-') then
        var n := ClassRun(t[1..], shape);
        if n == 0 then None else Some(t[..n + 1])
      else
        var n := ClassRun(t, shape);
        if n == 0 then None else Some(t[..n])
  }

  /** `re.search`: the capture of the first line carrying the tag whose rest matches. */
  function FirstCapture(out: seq<Line>, tag: string, shape: Shape): (r: Option<string>)
    ensures r.Some? ==> exists i :: 0 <= i < |out| && out[i].Labelled? && out[i].tag == tag
                                     && Capture(out[i].rest, shape) == r
    ensures r.None? ==> forall i :: 0 <= i < |out| && out[i].Labelled? && out[i].tag == tag ==>
                          Capture(out[i].rest, shape).None?
  {
    if |out| == 0 then None
    else if out[0].Labelled? && out[0].tag == tag && Capture(out[0].rest, shape).Some? then
      Capture(out[0].rest, shape)
    else
      var r := FirstCapture(out[1..], tag, shape);
      assert forall i :: 1 <= i < |out| ==> out[i] == out[1..][i - 1];
      r
  }

  /** The first match wins: text after a line that already matched cannot change the value. */
  lemma {:induction false} FirstCaptureAppend(a: seq<Line>, b: seq<Line>, tag: string, shape: Shape)
    ensures FirstCapture(a + b, tag, shape) ==
              if FirstCapture(a, tag, shape).Some? then FirstCapture(a, tag, shape) else FirstCapture(b, tag, shape)
  {
    if |a| > 0 {
      assert (a + b)[1..] == a[1..] + b;
      FirstCaptureAppend(a[1..], b, tag, shape);
    } else {
      assert a + b == b;
    }
  }

  function StripCommas(s: string): (r: string)
    ensures |r| <= |s|
    ensures forall j :: 0 <= j < |r| ==> r[j] != ','
  {
    if |s| == 0 then ""
    else if s[0] == ',' then StripCommas(s[1..])
    else [s[0]] + StripCommas(s[1..])
  }

  lemma {:induction false} StripCommasNone(s: string)
    requires forall j :: 0 <= j < |s| ==> s[j] != ','
    ensures StripCommas(s) == s
  {
    if |s| > 0 {
      StripCommasNone(s[1..]);
      assert s == [s[0]] + s[1..];
    }
  }

  /** An integer metric: 0 when no line matches, else the matched digits. */
  function ReadCount(out: seq<Line>, tag: string): (n: nat)
    ensures FirstCapture(out, tag, Count).None? ==> n == 0
    ensures FirstCapture(out, tag, Count).Some? ==> ParseNat(FirstCapture(out, tag, Count).value) == Some(n)
  {
    match FirstCapture(out, tag, Count)
    case None => 0
    case Some(c) => DigitsValue(c)
  }

  /** A float metric: 0.0 when no line matches; a match that `float` rejects raises `ValueError`. */
  function ReadFloat(out: seq<Line>, tag: string, shape: Shape): (r: Result<real>)
    ensures FirstCapture(out, tag, shape).None? ==> r == Ok(0.0)
    ensures FirstCapture(out, tag, shape).Some? ==>
              match ParseDecimal(StripCommas(FirstCapture(out, tag, shape).value))
              case Some(x) => r == Ok(x)
              case None => r.Err?
  {
    match FirstCapture(out, tag, shape)
    case None => Ok(0.0)
    case Some(c) =>
      match ParseDecimal(StripCommas(c))
      case Some(x) => Ok(x)
      case None => Err("could not convert string to float")
  }

  /** The metrics of one run, as `parse_output` returns them. */
  datatype Metrics = Metrics(
    totalTrades: nat, wins: nat, losses: nat, breakevens: nat,
    winRate: real, profitFactor: real, sharpeRatio: real,
    avgWin: real, avgLoss: real, totalPnl: real, maxDrawdown: real)

  const ZeroMetrics := Metrics(0, 0, 0, 0, 0.0, 0.0, 0.0, 0.0, 0.0, 0.0, 0.0)

  /** The labels searched for, in the order `parse_output` reads them. */
  const MetricLabels: seq<string> := [
    "Total Trades:", "Wins:", "Losses:", "Breakevens:", "Profit Factor:", "Sharpe Ratio:",
    "Avg Win:", "Avg Loss:", "Total P&L:", "Max Drawdown:"]

  /** `results['win_rate']`: recomputed from the counts only when there are trades. */
  function WinRate(wins: nat, total: nat): (r: real)
    ensures total == 0 ==> r == 0.0
    ensures total > 0 ==> r * total as real == wins as real * 100.0
  {
    if total > 0 then wins as real / total as real * 100.0 else 0.0
  }

  /**
   `parse_output`: every metric starts at zero and takes the first match of
   its pattern; a float capture that does not convert ends the script.
   */
  function ParseOutput(out: seq<Line>): Result<Metrics>
  {
    var total := ReadCount(out, "Total Trades:");
    var wins := ReadCount(out, "Wins:");
    var pf := ReadFloat(out, "Profit Factor:", Unsigned);
    var sharpe := ReadFloat(out, "Sharpe Ratio:", Signed);
    var avgWin := ReadFloat(out, "Avg Win:", Unsigned);
    var avgLoss := ReadFloat(out, "Avg Loss:", Signed);
    var pnl := ReadFloat(out, "Total P&L:", OptSigned);
    var dd := ReadFloat(out, "Max Drawdown:", Dollar);
    if pf.Err? || sharpe.Err? || avgWin.Err? || avgLoss.Err? || pnl.Err? || dd.Err? then
      Err("could not convert string to float")
    else
      Ok(Metrics(total, wins, ReadCount(out, "Losses:"), ReadCount(out, "Breakevens:"), WinRate(wins, total),
                 pf.value, sharpe.value, avgWin.value, avgLoss.value, pnl.value, dd.value))
  }

  /**
   What `parse_output` reads: each count is the first matching count or 0,
   each float the first matching numeral or 0.0, and the result is an
   error exactly when some matched float does not convert.
   */
  lemma ParseOutputFields(out: seq<Line>)
    ensures ParseOutput(out).Ok? ==> ParseOutput(out).value.totalTrades == ReadCount(out, "Total Trades:")
    ensures ParseOutput(out).Ok? ==> ParseOutput(out).value.wins == ReadCount(out, "Wins:")
    ensures ParseOutput(out).Ok? ==> ParseOutput(out).value.losses == ReadCount(out, "Losses:")
    ensures ParseOutput(out).Ok? ==> ParseOutput(out).value.breakevens == ReadCount(out, "Breakevens:")
    ensures ParseOutput(out).Ok? ==> ParseOutput(out).value.winRate == WinRate(ParseOutput(out).value.wins, ParseOutput(out).value.totalTrades)
    ensures ParseOutput(out).Ok? <==>
              ReadFloat(out, "Profit Factor:", Unsigned).Ok? && ReadFloat(out, "Sharpe Ratio:", Signed).Ok? &&
              ReadFloat(out, "Avg Win:", Unsigned).Ok? && ReadFloat(out, "Avg Loss:", Signed).Ok? &&
              ReadFloat(out, "Total P&L:", OptSigned).Ok? && ReadFloat(out, "Max Drawdown:", Dollar).Ok?
    ensures ParseOutput(out).Ok? ==> Ok(ParseOutput(out).value.profitFactor) == ReadFloat(out, "Profit Factor:", Unsigned)
    ensures ParseOutput(out).Ok? ==> Ok(ParseOutput(out).value.sharpeRatio) == ReadFloat(out, "Sharpe Ratio:", Signed)
    ensures ParseOutput(out).Ok? ==> Ok(ParseOutput(out).value.avgWin) == ReadFloat(out, "Avg Win:", Unsigned)
    ensures ParseOutput(out).Ok? ==> Ok(ParseOutput(out).value.avgLoss) == ReadFloat(out, "Avg Loss:", Signed)
    ensures ParseOutput(out).Ok? ==> Ok(ParseOutput(out).value.totalPnl) == ReadFloat(out, "Total P&L:", OptSigned)
    ensures ParseOutput(out).Ok? ==> Ok(ParseOutput(out).value.maxDrawdown) == ReadFloat(out, "Max Drawdown:", Dollar)
  {
  }

  predicate NoLabel(out: seq<Line>, tag: string)
  {
    forall i :: 0 <= i < |out| ==> !(out[i].Labelled? && out[i].tag == tag)
  }

  lemma {:induction false} NoLabelNoCapture(out: seq<Line>, tag: string, shape: Shape)
    requires NoLabel(out, tag)
    ensures FirstCapture(out, tag, shape) == None
  {
  }

  /** Text without any metric line parses to the all-zero record. */
  lemma ParseWithoutMetrics(out: seq<Line>)
    requires forall j :: 0 <= j < |MetricLabels| ==> NoLabel(out, MetricLabels[j])
    ensures ParseOutput(out) == Ok(ZeroMetrics)
  {
    assert NoLabel(out, MetricLabels[0]) && NoLabel(out, MetricLabels[1]) && NoLabel(out, MetricLabels[2]);
    assert NoLabel(out, MetricLabels[3]) && NoLabel(out, MetricLabels[4]) && NoLabel(out, MetricLabels[5]);
    assert NoLabel(out, MetricLabels[6]) && NoLabel(out, MetricLabels[7]) && NoLabel(out, MetricLabels[8]);
    assert NoLabel(out, MetricLabels[9]);
    NoLabelNoCapture(out, "Total Trades:", Count);
    NoLabelNoCapture(out, "Wins:", Count);
    NoLabelNoCapture(out, "Losses:", Count);
    NoLabelNoCapture(out, "Breakevens:", Count);
    NoLabelNoCapture(out, "Profit Factor:", Unsigned);
    NoLabelNoCapture(out, "Sharpe Ratio:", Signed);
    NoLabelNoCapture(out, "Avg Win:", Unsigned);
    NoLabelNoCapture(out, "Avg Loss:", Signed);
    NoLabelNoCapture(out, "Total P&L:", OptSigned);
    NoLabelNoCapture(out, "Max Drawdown:", Dollar);
  }

  lemma {:induction false} ClassRunAll(s: string, tail: string, shape: Shape)
    requires forall j :: 0 <= j < |s| ==> InClass(s[j], shape)
    requires |tail| > 0 ==> !InClass(tail[0], shape)
    ensures ClassRun(s + tail, shape) == |s|
  {
    if |s| > 0 {
      assert (s + tail)[1..] == s[1..] + tail;
      ClassRunAll(s[1..], tail, shape);
    } else {
      assert s + tail == tail;
    }
  }

  lemma SpaceThenValue(value: string, tail: string)
    requires |value| > 0 && !IsRegexSpace(value[0])
    ensures SpaceRun(" " + value + tail) == 1
  {
    assert (" " + value + tail)[1..] == value + tail;
  }

  /** A run of class characters after one space is captured whole, for the shapes without a prefix. */
  lemma CapturePlain(v: string, tail: string, shape: Shape)
    requires shape.Count? || shape.Unsigned? || shape.Signed?
    requires |v| > 0 && forall j :: 0 <= j < |v| ==> InClass(v[j], shape)
    requires |tail| > 0 ==> !InClass(tail[0], shape)
    ensures Capture(" " + v + tail, shape) == Some(v)
  {
    SpaceThenValue(v, tail);
    assert (" " + v + tail)[1..] == v + tail;
    ClassRunAll(v, tail, shape);
    assert (v + tail)[..|v|] == v;
  }

  /** An optionally signed numeral after one space is captured whole by `[+-]?[\d.]+`. */
  lemma CaptureOptSigned(sign: string, u: string, tail: string)
    requires sign == "+" || sign == "-" || sign == ""
    requires |u| > 0 && forall j :: 0 <= j < |u| ==> InClass(u[j], OptSigned)
    requires |tail| > 0 ==> !InClass(tail[0], OptSigned)
    ensures Capture(" " + (sign + u) + tail, OptSigned) == Some(sign + u)
  {
    if sign == "" {
      assert sign + u == u;
      CaptureOptUnsigned(u, tail);
    } else {
      assert sign == [sign[0]];
      CaptureSignPrefixed(sign[0], u, tail);
    }
  }

  /** An unsigned numeral after one space is captured whole. */
  lemma CaptureOptUnsigned(u: string, tail: string)
    requires |u| > 0 && forall j :: 0 <= j < |u| ==> InClass(u[j], OptSigned)
    requires |tail| > 0 ==> !InClass(tail[0], OptSigned)
    ensures Capture(" " + u + tail, OptSigned) == Some(u)
  {
    assert InClass(u[0], OptSigned);
    SpaceThenValue(u, tail);
    var t := (" " + u + tail)[1..];
    assert t == u + tail;
    ClassRunAll(u, tail, OptSigned);
    assert t[..|u|] == u;
  }

  /** A sign character and a numeral after one space are captured together. */
  lemma CaptureSignPrefixed(c: char, u: string, tail: string)
    requires c == '+' || c == '-'
    requires |u| > 0 && forall j :: 0 <= j < |u| ==> InClass(u[j], OptSigned)
    requires |tail| > 0 ==> !InClass(tail[0], OptSigned)
    ensures Capture(" " + ([c] + u) + tail, OptSigned) == Some([c] + u)
  {
    var v := [c] + u;
    SpaceThenValue(v, tail);
    var t := (" " + v + tail)[1..];
    assert t == v + tail;
    assert t[1..] == u + tail;
    ClassRunAll(u, tail, OptSigned);
    assert t[..|u| + 1] == v;
  }

  /** A dollar amount after one space is captured without its '$'. */
  lemma CaptureDollar(v: string, tail: string)
    requires |v| > 0 && forall j :: 0 <= j < |v| ==> InClass(v[j], Dollar)
    requires |tail| > 0 ==> !InClass(tail[0], Dollar)
    ensures Capture(" $" + v + tail, Dollar) == Some(v)
  {
    var rest := " $" + v + tail;
    assert rest[1..] == "$" + v + tail;
    assert SpaceRun(rest[1..]) == 0;
    var t := rest[1..];
    assert t[1..] == v + tail;
    ClassRunAll(v, tail, Dollar);
    assert (v + tail)[..|v|] == v;
  }

  /** The first line carrying the tag decides when it matches. */
  lemma {:induction false} FirstCaptureAt(out: seq<Line>, tag: string, shape: Shape, k: nat)
    requires k < |out| && out[k].Labelled? && out[k].tag == tag && Capture(out[k].rest, shape).Some?
    requires forall j :: 0 <= j < k ==> !(out[j].Labelled? && out[j].tag == tag)
    ensures FirstCapture(out, tag, shape) == Capture(out[k].rest, shape)
  {
    if k > 0 {
      FirstCaptureAt(out[1..], tag, shape, k - 1);
    }
  }

  // ---------------------------------------------------------------------
  // Reading back what the backtester prints

  /** A count printed on the first line carrying its tag reads back as itself. */
  lemma ReadCountAt(out: seq<Line>, tag: string, k: nat, n: nat, tail: string)
    requires k < |out| && out[k] == Labelled(tag, " " + NatToString(n) + tail)
    requires forall j :: 0 <= j < k ==> !(out[j].Labelled? && out[j].tag == tag)
    requires |tail| > 0 ==> !IsDigit(tail[0])
    ensures ReadCount(out, tag) == n
  {
    CapturePlain(NatToString(n), tail, Count);
    FirstCaptureAt(out, tag, Count, k);
    NatToStringRoundTrip(n);
  }

  /** Reading a printed two-decimal figure gives its value, for every shape it is printed in. */
  lemma ReadHundredths(out: seq<Line>, tag: string, shape: Shape, k: nat, c: int, plus: bool)
    requires k < |out| && out[k].Labelled? && out[k].tag == tag
    requires forall j :: 0 <= j < k ==> !(out[j].Labelled? && out[j].tag == tag)
    requires Capture(out[k].rest, shape) == Some(Hundredths(c, plus))
    ensures ReadFloat(out, tag, shape) == Ok(c as real / 100.0)
  {
    FirstCaptureAt(out, tag, shape, k);
    HundredthsNoComma(c, plus);
    HundredthsRoundTrip(c, plus);
  }

  lemma HundredthsNoComma(c: int, plus: bool)
    ensures StripCommas(Hundredths(c, plus)) == Hundredths(c, plus)
  {
    var v := Hundredths(c, plus);
    var body := HundredthsBody(IntAbs(c));
    assert v == (if c < 0 then "-" else if plus then "+" else "") + body;
    assert forall j :: 0 <= j < |v| ==> v[j] != ',' by {
      if |v| > |body| {
        assert forall j :: 1 <= j < |v| ==> v[j] == body[j - 1];
      }
    }
    StripCommasNone(v);
  }

  /** A two-decimal figure printed after one space, unsigned or with a '-' only. */
  lemma ReadPlainAt(out: seq<Line>, tag: string, shape: Shape, k: nat, c: int, tail: string)
    requires shape.Unsigned? || shape.Signed?
    requires shape.Unsigned? ==> c >= 0
    requires k < |out| && out[k] == Labelled(tag, " " + Hundredths(c, false) + tail)
    requires forall j :: 0 <= j < k ==> !(out[j].Labelled? && out[j].tag == tag)
    requires tail == "" || tail == " pts"
    ensures ReadFloat(out, tag, shape) == Ok(c as real / 100.0)
  {
    var v := Hundredths(c, false);
    var body := HundredthsBody(IntAbs(c));
    assert v == (if c < 0 then "-" else "") + body;
    assert forall j :: 0 <= j < |v| ==> InClass(v[j], shape) by {
      if c < 0 {
        assert forall j :: 1 <= j < |v| ==> v[j] == body[j - 1];
      } else {
        assert v == body;
      }
    }
    CapturePlain(v, tail, shape);
    ReadHundredths(out, tag, shape, k, c, false);
  }

  /** The signed P&L figure, printed with `{:+.2}`. */
  lemma ReadPnlAt(out: seq<Line>, tag: string, k: nat, c: int, tail: string)
    requires k < |out| && out[k] == Labelled(tag, " " + Hundredths(c, true) + tail)
    requires forall j :: 0 <= j < k ==> !(out[j].Labelled? && out[j].tag == tag)
    requires tail == "" || tail == " pts"
    ensures ReadFloat(out, tag, OptSigned) == Ok(c as real / 100.0)
  {
    var sign := if c < 0 then "-" else "+";
    var body := HundredthsBody(IntAbs(c));
    assert Hundredths(c, true) == sign + body;
    CaptureOptSigned(sign, body, tail);
    ReadHundredths(out, tag, OptSigned, k, c, true);
  }

  /** A dollar figure, printed as '$' and two decimals. */
  lemma ReadDollarAt(out: seq<Line>, tag: string, k: nat, c: nat)
    requires k < |out| && out[k] == Labelled(tag, " $" + Hundredths(c, false))
    requires forall j :: 0 <= j < k ==> !(out[j].Labelled? && out[j].tag == tag)
    ensures ReadFloat(out, tag, Dollar) == Ok(c as real / 100.0)
  {
    var v := Hundredths(c, false);
    assert v == HundredthsBody(c);
    CaptureDollar(v, "");
    assert " $" + v == " $" + v + "";
    ReadHundredths(out, tag, Dollar, k, c, false);
  }

  /** Parsing succeeds with the given record when every field reads as that record's value. */
  lemma ParseOutputOf(out: seq<Line>, m: Metrics)
    requires ReadCount(out, "Total Trades:") == m.totalTrades && ReadCount(out, "Wins:") == m.wins
    requires ReadCount(out, "Losses:") == m.losses && ReadCount(out, "Breakevens:") == m.breakevens
    requires m.winRate == WinRate(m.wins, m.totalTrades)
    requires ReadFloat(out, "Profit Factor:", Unsigned) == Ok(m.profitFactor)
    requires ReadFloat(out, "Sharpe Ratio:", Signed) == Ok(m.sharpeRatio)
    requires ReadFloat(out, "Avg Win:", Unsigned) == Ok(m.avgWin)
    requires ReadFloat(out, "Avg Loss:", Signed) == Ok(m.avgLoss)
    requires ReadFloat(out, "Total P&L:", OptSigned) == Ok(m.totalPnl)
    requires ReadFloat(out, "Max Drawdown:", Dollar) == Ok(m.maxDrawdown)
    ensures ParseOutput(out) == Ok(m)
  {
    ParseOutputFields(out);
  }

  // ---------------------------------------------------------------------
  // One run

  /** How a backtester run ended; the exit status of a completed run is not looked at. */
  datatype RunOutcome = Completed(exitCode: int, stdout: seq<Line>, stderr: seq<Line>) | TimedOut | Raised(message: string)

  /** What `run_backtest` returns: an error dictionary or the parsed metrics. */
  datatype Reply = Failed(error: string) | Parsed(metrics: Metrics)

  /**
   `run_backtest`: a timeout or any other exception becomes an error
   reply; otherwise stdout and stderr are parsed together. Parsing runs
   outside the `try`, so a conversion error is an `Err` that ends the
   script.
   */
  function RunBacktest(o: RunOutcome): (r: Result<Reply>)
    ensures o.TimedOut? ==> r == Ok(Failed("timeout"))
    ensures o.Raised? ==> r == Ok(Failed(o.message))
    ensures o.Completed? ==> (r.Ok? <==> ParseOutput(o.stdout + o.stderr).Ok?)
    ensures o.Completed? && r.Ok? ==> r.value == Parsed(ParseOutput(o.stdout + o.stderr).value)
  {
    match o
    case TimedOut => Ok(Failed("timeout"))
    case Raised(e) => Ok(Failed(e))
    case Completed(_, out, err) =>
      match ParseOutput(out + err)
      case Ok(m) => Ok(Parsed(m))
      case Err(e) => Err(e)
  }

  /** The exit status never matters: a failing run that printed metrics still yields them. */
  lemma ExitCodeIgnored(a: int, b: int, out: seq<Line>, err: seq<Line>)
    ensures RunBacktest(Completed(a, out, err)) == RunBacktest(Completed(b, out, err))
  {
  }

  // ---------------------------------------------------------------------
  // Derived metrics

  /** `rr_ratio`: the absolute win/loss ratio, or the int 0 when the average loss is 0. */
  function RrRatio(m: Metrics): (v: Value)
    ensures m.avgLoss == 0.0 ==> v == VInt(0)
    ensures m.avgLoss != 0.0 ==> v.VReal? && v.x >= 0.0 && v.x * Abs(m.avgLoss) == Abs(m.avgWin)
  {
    if m.avgLoss != 0.0 then
      var q := m.avgWin / m.avgLoss;
      AbsQuotient(m.avgWin, m.avgLoss);
      VReal(Abs(q))
    else VInt(0)
  }

  lemma AbsQuotient(a: real, b: real)
    requires b != 0.0
    ensures Abs(a / b) * Abs(b) == Abs(a)
  {
    var q := a / b;
    assert q * b == a;
    if q < 0.0 && b < 0.0 {
      assert (-q) * (-b) == a;
    } else if q < 0.0 {
      assert (-q) * b == -a;
    } else if b < 0.0 {
      assert q * (-b) == -a;
    }
  }

  /** `expectancy`: win share times average win minus loss share times absolute average loss, or the int 0 without trades. */
  function Expectancy(m: Metrics): (v: Value)
    ensures m.totalTrades == 0 ==> v == VInt(0)
    ensures m.totalTrades > 0 ==>
              v.VReal? && v.x * m.totalTrades as real == m.wins as real * m.avgWin - m.losses as real * Abs(m.avgLoss)
  {
    if m.totalTrades > 0 then
      var n := m.totalTrades as real;
      var winPct := m.wins as real / n;
      var lossPct := m.losses as real / n;
      ExpectancyScaled(m.wins as real, m.losses as real, n, m.avgWin, Abs(m.avgLoss));
      VReal(winPct * m.avgWin - lossPct * Abs(m.avgLoss))
    else VInt(0)
  }

  lemma ExpectancyScaled(w: real, l: real, n: real, aw: real, al: real)
    requires n > 0.0
    ensures (w / n * aw - l / n * al) * n == w * aw - l * al
  {
    assert (w / n) * n == w;
    assert (l / n) * n == l;
    assert (w / n * aw) * n == (w / n) * n * aw;
    assert (l / n * al) * n == (l / n) * n * al;
  }

  // ---------------------------------------------------------------------
  // Records and the results file

  /** The CSV columns: nine parameters, eleven parsed metrics, two derived ones. */
  const Fieldnames: seq<string> := [
    "min_delta", "max_lvn_ratio", "min_impulse_size", "min_impulse_score",
    "take_profit", "trailing_stop", "stop_buffer", "breakout_threshold", "max_hunting_bars",
    "total_trades", "wins", "losses", "breakevens", "win_rate",
    "profit_factor", "sharpe_ratio", "avg_win", "avg_loss", "total_pnl", "max_drawdown",
    "rr_ratio", "expectancy"]


  /** The value the results dictionary holds for a column, once the derived metrics are added. */
  function MetricCell(m: Metrics, k: string): Option<Value>
  {
    if k == "total_trades" then Some(VInt(m.totalTrades))
    else if k == "wins" then Some(VInt(m.wins))
    else if k == "losses" then Some(VInt(m.losses))
    else if k == "breakevens" then Some(VInt(m.breakevens))
    else if k == "win_rate" then Some(VReal(m.winRate))
    else if k == "profit_factor" then Some(VReal(m.profitFactor))
    else if k == "sharpe_ratio" then Some(VReal(m.sharpeRatio))
    else if k == "avg_win" then Some(VReal(m.avgWin))
    else if k == "avg_loss" then Some(VReal(m.avgLoss))
    else if k == "total_pnl" then Some(VReal(m.totalPnl))
    else if k == "max_drawdown" then Some(VReal(m.maxDrawdown))
    else if k == "rr_ratio" then Some(RrRatio(m))
    else if k == "expectancy" then Some(Expectancy(m))
    else None
  }

  /** One column of a record: the results win, then the parameters, else an empty cell. */
  function Cell(params: Row, m: Metrics, k: string): Value
  {
    match MetricCell(m, k)
    case Some(v) => v
    case None => if k in params then params[k] else VStr("")
  }

  /** The record written for one run: exactly the CSV columns. */
  function RecordRow(params: Row, m: Metrics): (r: Row)
    ensures r.Keys == set k | k in Fieldnames
  {
    map k | k in Fieldnames :: Cell(params, m, k)
  }

  /** A swept parameter's column holds the parameter's value, or an empty cell when it is missing. */
  lemma ParamColumn(params: Row, m: Metrics, k: string)
    requires k in SweptKeys
    ensures RecordRow(params, m)[k] == if k in params then params[k] else VStr("")
  {
    SweptNotMetric(m, k);
  }

  lemma SweptNotMetric(m: Metrics, k: string)
    requires k in SweptKeys
    ensures k in Fieldnames && MetricCell(m, k).None?
  {
    assert SweptKeys == Fieldnames[..9];
  }

  /** The metric columns hold the parsed and derived metrics, whatever the parameters say. */
  lemma RecordColumns(params: Row, m: Metrics)
    ensures "total_trades" in RecordRow(params, m) && RecordRow(params, m)["total_trades"] == VInt(m.totalTrades)
    ensures "total_pnl" in RecordRow(params, m) && RecordRow(params, m)["total_pnl"] == VReal(m.totalPnl)
    ensures "sharpe_ratio" in RecordRow(params, m) && RecordRow(params, m)["sharpe_ratio"] == VReal(m.sharpeRatio)
    ensures "rr_ratio" in RecordRow(params, m) && RecordRow(params, m)["rr_ratio"] == RrRatio(m)
    ensures "expectancy" in RecordRow(params, m) && RecordRow(params, m)["expectancy"] == Expectancy(m)
  {
    TradesColumn(params, m);
    PnlColumn(params, m);
    SharpeColumn(params, m);
    RrColumn(params, m);
    ExpectancyColumn(params, m);
  }

  lemma TradesColumn(params: Row, m: Metrics)
    ensures "total_trades" in RecordRow(params, m) && RecordRow(params, m)["total_trades"] == VInt(m.totalTrades)
  {
    assert Fieldnames[9] == "total_trades";
  }

  lemma PnlColumn(params: Row, m: Metrics)
    ensures "total_pnl" in RecordRow(params, m) && RecordRow(params, m)["total_pnl"] == VReal(m.totalPnl)
  {
    assert Fieldnames[18] == "total_pnl";
  }

  lemma SharpeColumn(params: Row, m: Metrics)
    ensures "sharpe_ratio" in RecordRow(params, m) && RecordRow(params, m)["sharpe_ratio"] == VReal(m.sharpeRatio)
  {
    assert Fieldnames[15] == "sharpe_ratio";
  }

  lemma RrColumn(params: Row, m: Metrics)
    ensures "rr_ratio" in RecordRow(params, m) && RecordRow(params, m)["rr_ratio"] == RrRatio(m)
  {
    assert Fieldnames[20] == "rr_ratio";
  }

  lemma ExpectancyColumn(params: Row, m: Metrics)
    ensures "expectancy" in RecordRow(params, m) && RecordRow(params, m)["expectancy"] == Expectancy(m)
  {
    assert Fieldnames[21] == "expectancy";
  }

  /** One line of the results file. */
  datatype CsvLine = Header(names: seq<string>) | Record(row: Row)

  /** The lines run `i` contributes: one record for parsed metrics, none for an error reply. */
  function LinesFor(combos: seq<Row>, replies: seq<Result<Reply>>, i: nat): (ls: seq<CsvLine>)
    requires |replies| == |combos| && i < |combos|
    ensures |ls| <= 1 && forall j :: 0 <= j < |ls| ==> ls[j].Record?
    ensures |ls| == 1 <==> replies[i].Ok? && replies[i].value.Parsed?
  {
    match replies[i]
    case Ok(Parsed(m)) => [Record(RecordRow(combos[i], m))]
    case _ => []
  }

  /** The lines of every run, in combination order. */
  function RunLines(combos: seq<Row>, replies: seq<Result<Reply>>): (ls: seq<seq<CsvLine>>)
    requires |replies| == |combos|
    ensures |ls| == |combos|
  {
    seq(|combos|, i requires 0 <= i < |combos| => LinesFor(combos, replies, i))
  }

  lemma RunLinesRecords(combos: seq<Row>, replies: seq<Result<Reply>>)
    requires |replies| == |combos|
    ensures forall i :: 0 <= i < |combos| ==>
              |RunLines(combos, replies)[i]| <= 1 && forall j :: 0 <= j < |RunLines(combos, replies)[i]| ==> RunLines(combos, replies)[i][j].Record?
  {
  }

  function Concat<T>(xss: seq<seq<T>>): seq<T>
  {
    if |xss| == 0 then [] else Concat(xss[..|xss| - 1]) + xss[|xss| - 1]
  }

  lemma {:induction false} ConcatSplit<T>(a: seq<seq<T>>, b: seq<seq<T>>)
    ensures Concat(a + b) == Concat(a) + Concat(b)
    decreases |b|
  {
    if |b| == 0 {
      assert a + b == a;
    } else {
      assert (a + b)[..|a + b| - 1] == a + b[..|b| - 1];
      ConcatSplit(a, b[..|b| - 1]);
    }
  }

  lemma ConcatStep<T>(xss: seq<seq<T>>, lo: nat, i: nat)
    requires lo <= i < |xss|
    ensures Concat(xss[lo..i + 1]) == Concat(xss[lo..i]) + xss[i]
  {
    assert xss[lo..i + 1][..i - lo] == xss[lo..i];
  }

  /** The records of runs `lo .. hi-1`, in order. */
  function Records(combos: seq<Row>, replies: seq<Result<Reply>>, lo: nat, hi: nat): (ls: seq<CsvLine>)
    requires |replies| == |combos| && lo <= hi <= |combos|
    ensures |ls| <= hi - lo
    ensures forall j :: 0 <= j < |ls| ==> ls[j].Record?
  {
    var runs := RunLines(combos, replies);
    RunLinesRecords(combos, replies);
    ConcatRecords(runs[lo..hi]);
    Concat(runs[lo..hi])
  }

  lemma {:induction false} ConcatRecords(xss: seq<seq<CsvLine>>)
    requires forall i :: 0 <= i < |xss| ==> |xss[i]| <= 1 && forall j :: 0 <= j < |xss[i]| ==> xss[i][j].Record?
    ensures |Concat(xss)| <= |xss|
    ensures forall j :: 0 <= j < |Concat(xss)| ==> Concat(xss)[j].Record?
  {
    if |xss| > 0 {
      ConcatRecords(xss[..|xss| - 1]);
    }
  }

  /** Records of adjacent index ranges join. */
  lemma RecordsSplit(combos: seq<Row>, replies: seq<Result<Reply>>, a: nat, b: nat, c: nat)
    requires |replies| == |combos| && a <= b <= c <= |combos|
    ensures Records(combos, replies, a, c) == Records(combos, replies, a, b) + Records(combos, replies, b, c)
  {
    var runs := RunLines(combos, replies);
    assert runs[a..c] == runs[a..b] + runs[b..c];
    ConcatSplit(runs[a..b], runs[b..c]);
  }

  lemma RecordsStep(combos: seq<Row>, replies: seq<Result<Reply>>, lo: nat, i: nat)
    requires |replies| == |combos| && lo <= i < |combos|
    ensures Records(combos, replies, lo, i + 1) == Records(combos, replies, lo, i) + RunLines(combos, replies)[i]
  {
    ConcatStep(RunLines(combos, replies), lo, i);
  }

  /** The first run at or after `lo` whose parsing fails, or the end. */
  function FirstCrash(replies: seq<Result<Reply>>, lo: nat): (k: nat)
    requires lo <= |replies|
    ensures lo <= k <= |replies|
    ensures forall i :: lo <= i < k ==> replies[i].Ok?
    ensures k < |replies| ==> replies[k].Err?
    decreases |replies| - lo
  {
    if lo == |replies| || replies[lo].Err? then lo else FirstCrash(replies, lo + 1)
  }

  lemma {:induction false} FirstCrashAt(replies: seq<Result<Reply>>, lo: nat, i: nat)
    requires lo <= i <= |replies|
    requires forall j :: lo <= j < i ==> replies[j].Ok?
    requires i < |replies| ==> replies[i].Err?
    ensures FirstCrash(replies, lo) == i
    decreases i - lo
  {
    if lo < i {
      FirstCrashAt(replies, lo + 1, i);
    }
  }

  /** Where processing starts: indices below `--resume` are skipped. */
  function StartIndex(resume: int, n: nat): (s: nat)
    ensures s <= n
    ensures resume <= 0 ==> s == 0
    ensures 0 < resume <= n ==> s == resume
    ensures resume > n ==> s == n
  {
    if resume <= 0 then 0 else if resume > n then n else resume
  }

  /**
   The file before the loop: kept when appending (resume > 0); truncated
   otherwise, and given a header only when resume is exactly 0.
   */
  function Opened(existing: seq<CsvLine>, resume: int): (f: seq<CsvLine>)
    ensures resume > 0 ==> f == existing
    ensures resume == 0 ==> f == [Header(Fieldnames)]
    ensures resume < 0 ==> f == []
  {
    if resume > 0 then existing else if resume == 0 then [Header(Fieldnames)] else []
  }

  /**
   `main` of the full sweep: opens the file, skips indices below `resume`,
   runs every later combination, drops error replies and appends (and
   flushes) one record per parsed run. A conversion error stops the script
   with the records so far already on disk.
   */
  method FullSweep(existing: seq<CsvLine>, combos: seq<Row>, replies: seq<Result<Reply>>, resume: int)
    returns (file: seq<CsvLine>, crashed: bool)
    requires |replies| == |combos|
    requires forall i :: 0 <= i < |combos| ==> CommandReady(combos[i])
    ensures file == Opened(existing, resume) +
                    Records(combos, replies, StartIndex(resume, |combos|), FirstCrash(replies, StartIndex(resume, |combos|)))
    ensures crashed <==> FirstCrash(replies, StartIndex(resume, |combos|)) < |combos|
  {
    var s := StartIndex(resume, |combos|);
    var runs := RunLines(combos, replies);
    file := Opened(existing, resume);
    crashed := false;
    var i := s;
    while i < |combos|
      invariant s <= i <= |combos|
      invariant forall j :: s <= j < i ==> replies[j].Ok?
      invariant file == Opened(existing, resume) + Records(combos, replies, s, i)
      decreases |combos| - i
    {
      var reply := replies[i];
      if reply.Err? {
        crashed := true;
        FirstCrashAt(replies, s, i);
        return;
      }
      RecordsStep(combos, replies, s, i);
      file := file + runs[i];
      i := i + 1;
    }
    FirstCrashAt(replies, s, |combos|);
  }

  /**
   Resuming is consistent: when a fresh sweep wrote the records of the runs
   before `r` and was stopped, resuming at `r` leaves exactly the file one
   uninterrupted sweep writes.
   */
  lemma ResumeMatchesSinglePass(combos: seq<Row>, replies: seq<Result<Reply>>, r: nat)
    requires |replies| == |combos| && 0 < r <= |combos|
    requires forall j :: 0 <= j < r ==> replies[j].Ok?
    ensures ([Header(Fieldnames)] + Records(combos, replies, 0, r)) + Records(combos, replies, r, FirstCrash(replies, r))
            == Opened([], 0) + Records(combos, replies, 0, FirstCrash(replies, 0))
  {
    var k := FirstCrash(replies, r);
    FirstCrashAt(replies, 0, k);
    RecordsSplit(combos, replies, 0, r, k);
  }

  /**
   `main` of the targeted sweep: always a fresh file with one header,
   every combination run, error replies skipped.
   */
  method TargetedSweep(combos: seq<Row>, replies: seq<Result<Reply>>) returns (file: seq<CsvLine>, crashed: bool)
    requires |replies| == |combos|
    requires forall i :: 0 <= i < |combos| ==> CommandReady(combos[i])
    ensures |file| >= 1 && file[0] == Header(Fieldnames)
    ensures forall j :: 1 <= j < |file| ==> file[j].Record?
    ensures |file| <= |combos| + 1
    ensures file[1..] == Records(combos, replies, 0, FirstCrash(replies, 0))
    ensures crashed <==> FirstCrash(replies, 0) < |combos|
  {
    file, crashed := FullSweep([], combos, replies, 0);
  }

  // ---------------------------------------------------------------------
  // The targeted sweep's closing summary

  /** The comparisons the summary makes: `total_pnl` always, `total_trades` for a gain, `sharpe_ratio` for a kept row. */
  predicate SummaryReadable(r: Row)
  {
    HasNum(r, "total_pnl") &&
    (Get(r, "total_pnl") > 0.0 ==> HasNum(r, "total_trades")) &&
    (Get(r, "total_pnl") > 0.0 && Get(r, "total_trades") >= 10.0 ==> HasNum(r, "sharpe_ratio"))
  }

  function ProfitableSeasoned(): Row -> bool
  {
    (r: Row) => NumOr0(r, "total_pnl") > 0.0 && NumOr0(r, "total_trades") >= 10.0
  }

  /**
   The rows with positive P&L and at least ten trades, how many there are,
   and the first ten of them by descending Sharpe ratio (stable sort).
   */
  function TargetedSummary(rows: seq<Row>): (r: (nat, seq<Row>))
    requires forall i :: 0 <= i < |rows| ==> SummaryReadable(rows[i])
    ensures r.0 <= |rows| && |r.1| == MinNat(10, r.0)
    ensures r.0 == 0 <==> forall i :: 0 <= i < |rows| ==> !ProfitableSeasoned()(rows[i])
    ensures multiset(r.1) <= multiset(rows)
    ensures forall i :: 0 <= i < |r.1| ==> ProfitableSeasoned()(r.1[i])
    ensures NonIncreasing(r.1, Column("sharpe_ratio"))
  {
    var kept := Filter(rows, ProfitableSeasoned());
    var top := TopN(kept, Column("sharpe_ratio"), 10);
    SummaryShown(kept, top);
    (|kept|, top)
  }

  lemma SummaryShown(kept: seq<Row>, top: seq<Row>)
    requires forall i :: 0 <= i < |kept| ==> ProfitableSeasoned()(kept[i])
    requires multiset(top) <= multiset(kept)
    ensures forall i :: 0 <= i < |top| ==> ProfitableSeasoned()(top[i])
  {
    forall i | 0 <= i < |top|
      ensures ProfitableSeasoned()(top[i])
    {
      assert top[i] in multiset(top);
      assert top[i] in multiset(kept);
    }
  }

  /** A qualifying row left out of the top ten has a Sharpe ratio no higher than any row shown. */
  lemma SummaryShowsBest(rows: seq<Row>, x: Row)
    requires forall i :: 0 <= i < |rows| ==> SummaryReadable(rows[i])
    requires x in multiset(Filter(rows, ProfitableSeasoned())) - multiset(TargetedSummary(rows).1)
    ensures forall i :: 0 <= i < |TargetedSummary(rows).1| ==>
              NumOr0(x, "sharpe_ratio") <= NumOr0(TargetedSummary(rows).1[i], "sharpe_ratio")
  {
    var kept := Filter(rows, ProfitableSeasoned());
    var top := TargetedSummary(rows).1;
    assert top == TopN(kept, Column("sharpe_ratio"), 10);
    assert x in multiset(kept) - multiset(top);
    forall i | 0 <= i < |top|
      ensures NumOr0(x, "sharpe_ratio") <= NumOr0(top[i], "sharpe_ratio")
    {
      assert Column("sharpe_ratio")(x) <= Column("sharpe_ratio")(top[i]);
    }
  }

  /** Every record the sweep writes can be read by the summary, with the numbers it was written with. */
  lemma RecordsSummarisable(params: Row, m: Metrics)
    ensures SummaryReadable(RecordRow(params, m))
    ensures Get(RecordRow(params, m), "total_trades") == m.totalTrades as real
    ensures Get(RecordRow(params, m), "total_pnl") == m.totalPnl
    ensures Get(RecordRow(params, m), "sharpe_ratio") == m.sharpeRatio
  {
    RecordColumns(params, m);
  }
}
