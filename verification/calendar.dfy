/**
 Calendar dates as the Rust code sees them through `chrono::NaiveDate`
 (proleptic Gregorian year, month, day) and through a day count since
 1970-01-01, which is what weekday arithmetic needs.
 */
module Calendar {
  import opened Base
  import opened Text

  datatype Date = Date(year: int, month: int, day: int)

  predicate IsLeap(y: int)
  {
    y % 4 == 0 && (y % 100 != 0 || y % 400 == 0)
  }

  function DaysInMonth(y: int, m: int): (n: nat)
    requires 1 <= m <= 12
    ensures 28 <= n <= 31
    ensures n == 29 <==> m == 2 && IsLeap(y)
  {
    if m == 2 then (if IsLeap(y) then 29 else 28)
    else if m == 4 || m == 6 || m == 9 || m == 11 then 30
    else 31
  }

  /** A date `NaiveDate` can hold (its year range is not modelled). */
  predicate Valid(d: Date)
  {
    1 <= d.month <= 12 && 1 <= d.day <= DaysInMonth(d.year, d.month)
  }

  // ---------------------------------------------------------------------
  // Formatting and parsing "%Y%m%d"

  /** `n` as exactly `width` decimal digits, zero-padded on the left. */
  function FixedDigits(n: nat, width: nat): (s: string)
    ensures |s| == width && AllDigits(s)
  {
    if width == 0 then [] else FixedDigits(n / 10, width - 1) + [DigitChar(n % 10)]
  }

  lemma {:induction false} FixedDigitsValue(n: nat, width: nat)
    requires n < Pow10(width)
    ensures DigitsValue(FixedDigits(n, width)) == n
  {
    if width > 0 {
      var s := FixedDigits(n, width);
      assert s[..|s| - 1] == FixedDigits(n / 10, width - 1);
      FixedDigitsValue(n / 10, width - 1);
    }
  }

  /** "%Y%m%d" for a year in 0..=9999, as the data files name their days. */
  function FormatYmd(d: Date): (s: string)
    requires Valid(d) && 0 <= d.year <= 9999
    ensures |s| == 8 && AllDigits(s)
  {
    FixedDigits(d.year, 4) + FixedDigits(d.month, 2) + FixedDigits(d.day, 2)
  }

  /**
   `NaiveDate::parse_from_str(s, "%Y%m%d")` on eight digits: four for the
   year, two for the month, two for the day; `None` when those do not name
   a real day.
   */
  function ParseYmd(s: string): (r: Option<Date>)
    requires |s| == 8 && AllDigits(s)
    ensures r.Some? ==> Valid(r.value) && 0 <= r.value.year <= 9999
  {
    var d := Date(DigitsValue(s[..4]), DigitsValue(s[4..6]), DigitsValue(s[6..]));
    DigitsBound(s[..4]);
    if Valid(d) then Some(d) else None
  }

  lemma {:induction false} DigitsBound(s: string)
    requires AllDigits(s)
    ensures DigitsValue(s) < Pow10(|s|)
  {
    if |s| > 0 {
      DigitsBound(s[..|s| - 1]);
    }
  }

  /** Formatting a day and parsing it back gives the same day. */
  lemma YmdRoundTrip(d: Date)
    requires Valid(d) && 0 <= d.year <= 9999
    ensures ParseYmd(FormatYmd(d)) == Some(d)
  {
    var s := FormatYmd(d);
    assert s[..4] == FixedDigits(d.year, 4);
    assert s[4..6] == FixedDigits(d.month, 2);
    assert s[6..] == FixedDigits(d.day, 2);
    FixedDigitsValue(d.year, 4);
    FixedDigitsValue(d.month, 2);
    FixedDigitsValue(d.day, 2);
  }

  // ---------------------------------------------------------------------
  // Weekdays on day numbers

  /** 0 = Monday … 6 = Sunday; day 0 (1970-01-01) was a Thursday. */
  function Weekday(n: int): (w: nat)
    ensures w < 7
  {
    (n + 3) % 7
  }

  predicate IsWeekend(n: int)
  {
    Weekday(n) >= 5
  }

  /**
   `skip_weekends_backward`: step back a day at a time while the day is a
   Saturday or a Sunday. The result is the latest weekday not after `n`.
   */
  function SkipWeekendsBackward(n: int): (r: int)
    ensures !IsWeekend(r)
    ensures n - 2 <= r <= n
    ensures forall k :: r < k <= n ==> IsWeekend(k)
    ensures !IsWeekend(n) ==> r == n
    decreases Weekday(n)
  {
    if IsWeekend(n) then
      assert Weekday(n - 1) == Weekday(n) - 1;
      SkipWeekendsBackward(n - 1)
    else n
  }

  // ---------------------------------------------------------------------
  // chrono -> time

  /** The `time` crate's default year range. */
  const TimeMinYear: int := -9999
  const TimeMaxYear: int := 9999

  /**
   `chrono_to_time_date`: the same year, month and day as a `time::Date`,
   or an error when the year is outside what `time` accepts. The
   "Invalid month" arm cannot be reached from a valid `NaiveDate`.
   */
  function ChronoToTimeDate(d: Date): (r: Result<Date>)
    requires Valid(d)
    ensures r.Ok? <==> TimeMinYear <= d.year <= TimeMaxYear
    ensures r.Ok? ==> r.value.year == d.year && r.value.month == d.month && r.value.day == d.day
  {
    if d.year < TimeMinYear || d.year > TimeMaxYear then Err("Date conversion error")
    else Ok(Date(d.year, d.month, d.day))
  }
}
