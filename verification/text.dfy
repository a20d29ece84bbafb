/**
 Text helpers shared by the Python scripts and the Rust command-line code:
 decimal digits, `int(...)`/`float(...)`/`str::parse` on plain decimal
 numerals, `str::parse::<f64>` with exponents, Unicode white-space trimming,
 splitting on a separator, substring search, suffixes and lexicographic
 order of strings.
 */
module Text {
  import opened Base

  predicate IsDigit(c: char) { '0' <= c <= '9' }

  predicate AllDigits(s: string)
  {
    forall i :: 0 <= i < |s| ==> IsDigit(s[i])
  }

  function DigitValue(c: char): (d: nat)
    requires IsDigit(c)
    ensures d < 10
  {
    c as int - '0' as int
  }

  function DigitChar(d: nat): (c: char)
    requires d < 10
    ensures IsDigit(c) && DigitValue(c) == d
  {
    ('0' as int + d) as char
  }

  /** Value of a string of decimal digits, most significant first. */
  function DigitsValue(s: string): nat
    requires AllDigits(s)
  {
    if |s| == 0 then 0 else DigitsValue(s[..|s| - 1]) * 10 + DigitValue(s[|s| - 1])
  }

  /** Decimal rendering of a natural number, as `str(n)` and `{}` print it. */
  function NatToString(n: nat): (s: string)
    ensures |s| > 0 && AllDigits(s)
  {
    if n < 10 then [DigitChar(n)] else NatToString(n / 10) + [DigitChar(n % 10)]
  }

  lemma {:induction false} NatToStringRoundTrip(n: nat)
    ensures DigitsValue(NatToString(n)) == n
  {
    var s := NatToString(n);
    if n >= 10 {
      assert s[..|s| - 1] == NatToString(n / 10);
      NatToStringRoundTrip(n / 10);
    }
  }

  function IntToString(i: int): (s: string)
    ensures |s| > 0
  {
    if i < 0 then "-" + NatToString(-i) else NatToString(i)
  }

  /** Strip one leading sign; `allowMinus` is false for unsigned targets. Returns (negative, rest). */
  function SplitSign(s: string, allowMinus: bool): (r: (bool, string))
    ensures |r.1| <= |s|
    ensures r.0 ==> allowMinus
  {
    if |s| > 0 && s[0] == '+' then (false, s[1..])
    else if |s| > 0 && s[0] == '-' && allowMinus then (true, s[1..])
    else (false, s)
  }

  /** An optionally signed, non-empty run of decimal digits (Python `int(...)`, Rust `i64::from_str` within range). */
  function ParseInt(s: string): (r: Option<int>)
    ensures r.Some? ==> |s| > 0
  {
    var (neg, body) := SplitSign(s, true);
    if |body| == 0 || !AllDigits(body) then None
    else
      var v: int := DigitsValue(body);
      Some(if neg then -v else v)
  }

  /** An optionally plus-signed, non-empty run of digits: Rust `usize`/`u8` parsing before the range check. */
  function ParseNat(s: string): (r: Option<nat>)
    ensures r.Some? ==> |s| > 0
  {
    var (_, body) := SplitSign(s, false);
    if |body| == 0 || !AllDigits(body) then None else Some(DigitsValue(body))
  }

  lemma IntToStringRoundTrip(i: int)
    ensures ParseInt(IntToString(i)) == Some(i)
    ensures i >= 0 ==> ParseNat(IntToString(i)) == Some(i)
  {
    if i < 0 {
      NegativeRoundTrip(i);
    } else {
      NatToStringRoundTrip(i);
      assert SplitSign(NatToString(i), true) == (false, NatToString(i));
      assert SplitSign(NatToString(i), false) == (false, NatToString(i));
    }
  }

  lemma NegativeRoundTrip(i: int)
    requires i < 0
    ensures ParseInt(IntToString(i)) == Some(i)
  {
    assert IntToString(i)[1..] == NatToString(-i);
    NatToStringRoundTrip(-i);
  }

  function IndexOf(s: string, c: char): (r: Option<nat>)
    ensures r.Some? ==> r.value < |s| && s[r.value] == c
    ensures r.Some? ==> forall j :: 0 <= j < r.value ==> s[j] != c
    ensures r.None? ==> forall j :: 0 <= j < |s| ==> s[j] != c
  {
    if |s| == 0 then None
    else if s[0] == c then Some(0)
    else match IndexOf(s[1..], c)
      case None => None
      case Some(k) => Some(k + 1)
  }

  /**
   A plain decimal numeral: optional sign, digits, optionally one '.' and more
   digits, at least one digit in all ("5", "-2.5", "5.", ".5"). Exponents are
   read by `ParseF64`; "inf" and "nan" have no real value.
   */
  function ParseDecimal(s: string): (r: Option<real>)
  {
    var (neg, body) := SplitSign(s, true);
    match Magnitude(body)
    case None => None
    case Some(m) => Some(if neg then -m else m)
  }

  /** The value of an unsigned numeral: digits with at most one '.', at least one digit in all. */
  function Magnitude(body: string): Option<real>
  {
    match IndexOf(body, '.')
    case None =>
      if |body| > 0 && AllDigits(body) then Some(DigitsValue(body) as real) else None
    case Some(k) =>
      var ip := body[..k];
      var fp := body[k + 1..];
      if |ip| + |fp| > 0 && AllDigits(ip) && AllDigits(fp)
      then Some(DigitsValue(ip) as real + DigitsValue(fp) as real / Pow10(|fp|) as real)
      else None
  }

  predicate IsExponentMark(c: char) { c == 'e' || c == 'E' }

  /** Position of the first 'e' or 'E'. */
  function ExponentMark(s: string): (r: Option<nat>)
    ensures r.Some? ==> r.value < |s| && IsExponentMark(s[r.value])
    ensures r.Some? ==> forall j :: 0 <= j < r.value ==> !IsExponentMark(s[j])
    ensures r.None? ==> forall j :: 0 <= j < |s| ==> !IsExponentMark(s[j])
  {
    if |s| == 0 then None
    else if IsExponentMark(s[0]) then Some(0)
    else match ExponentMark(s[1..])
      case None => None
      case Some(k) => Some(k + 1)
  }

  /** Ten to an integer power. */
  function Scale(e: int): (r: real)
    ensures r > 0.0
    ensures e >= 0 ==> r == Pow10(e) as real
    ensures e < 0 ==> r * Pow10(-e) as real == 1.0
  {
    if e >= 0 then Pow10(e) as real else 1.0 / Pow10(-e) as real
  }

  /**
   `str::parse::<f64>` on finite numerals: an optional sign, a plain decimal
   body, then optionally 'e' or 'E' and an optionally signed run of digits
   ("1e1", "2.5E0", "-25e-1"). The value is exact, not rounded to the
   nearest double; "inf", "infinity" and "nan" have no real value.
   */
  function ParseF64(s: string): (r: Option<real>)
  {
    var (neg, body) := SplitSign(s, true);
    match ExponentMark(body)
    case None => Signed(neg, Magnitude(body))
    case Some(k) => Signed(neg, Scientific(Magnitude(body[..k]), ParseInt(body[k + 1..])))
  }

  /** A mantissa times ten to an exponent, when both were read. */
  function Scientific(m: Option<real>, e: Option<int>): Option<real>
  {
    if m.Some? && e.Some? then Some(Shift(m.value, e.value)) else None
  }

  /** `m` with its decimal point moved `e` places to the right. */
  function Shift(m: real, e: int): real { m * Scale(e) }

  function Signed(neg: bool, m: Option<real>): Option<real>
  {
    match m
    case None => None
    case Some(v) => Some(if neg then -v else v)
  }

  /** Without an exponent mark, the `f64` parse reads a numeral as the plain decimal parse does. */
  lemma ParseF64Plain(s: string)
    requires forall j :: 0 <= j < |s| ==> !IsExponentMark(s[j])
    ensures ParseF64(s) == ParseDecimal(s)
  {
    var (neg, body) := SplitSign(s, true);
    assert body == s || body == s[1..];
    assert forall j :: 0 <= j < |body| ==> !IsExponentMark(body[j]) by {
      if body != s {
        forall j | 0 <= j < |body|
          ensures !IsExponentMark(body[j])
        {
          assert body[j] == s[j + 1];
        }
      }
    }
    assert ExponentMark(body).None?;
  }

  /** A numeral without an exponent mark. */
  lemma MagnitudeChars(body: string)
    requires Magnitude(body).Some?
    ensures forall j :: 0 <= j < |body| ==> !IsExponentMark(body[j])
  {
    match IndexOf(body, '.')
    case None =>
    case Some(k) =>
      forall j | 0 <= j < |body|
        ensures !IsExponentMark(body[j])
      {
        if j < k {
          assert body[..k][j] == body[j];
        } else if j > k {
          assert body[k + 1..][j - k - 1] == body[j];
        }
      }
  }

  /**
   Scientific notation read back: a signed decimal body followed by 'e' and a
   printed integer exponent is the body's value times ten to that power.
   */
  lemma ParseF64Scientific(sign: string, body: string, m: real, e: int)
    requires sign == "-" || sign == "+" || sign == ""
    requires |body| > 0 && IsDigit(body[0])
    requires Magnitude(body) == Some(m)
    ensures ParseF64(sign + body + "e" + IntToString(e)) == Some(if sign == "-" then -Shift(m, e) else Shift(m, e))
  {
    var b := body + ("e" + IntToString(e));
    assert sign + body + "e" + IntToString(e) == sign + b;
    SignedBody(sign, b);
    MagnitudeChars(body);
    ExponentMarkAfter(body, "e" + IntToString(e));
    assert b[..|body|] == body;
    assert b[|body| + 1..] == IntToString(e);
    IntToStringRoundTrip(e);
    ParseF64Parts(sign + b, sign == "-", b, |body|, e, m);
  }

  /** The `f64` parse of a numeral assembled from its sign, mantissa and exponent. */
  lemma ParseF64Parts(s: string, neg: bool, body: string, k: nat, e: int, m: real)
    requires SplitSign(s, true) == (neg, body)
    requires ExponentMark(body) == Some(k)
    requires ParseInt(body[k + 1..]) == Some(e)
    requires Magnitude(body[..k]) == Some(m)
    ensures ParseF64(s) == Some(if neg then -Shift(m, e) else Shift(m, e))
  {
  }

  lemma {:induction false} ExponentMarkAfter(a: string, b: string)
    requires forall j :: 0 <= j < |a| ==> !IsExponentMark(a[j])
    requires |b| > 0 && IsExponentMark(b[0])
    ensures ExponentMark(a + b) == Some(|a|)
  {
    if |a| > 0 {
      assert (a + b)[1..] == a[1..] + b;
      ExponentMarkAfter(a[1..], b);
    } else {
      assert a + b == b;
    }
  }

  /** An integer printed in decimal reads back through the `f64` parse as itself. */
  lemma ParseF64OfInt(i: int)
    ensures ParseF64(IntToString(i)) == Some(i as real)
  {
    var s := IntToString(i);
    forall j | 0 <= j < |s|
      ensures !IsExponentMark(s[j])
    {
      if i < 0 {
        assert j == 0 || s[j] == NatToString(-i)[j - 1];
      }
    }
    ParseF64Plain(s);
    DecimalOfIntString(i);
  }

  /** Scientific notation as the `Sweep` command's float lists may hold it. */
  lemma ParseF64Examples()
    ensures ParseF64("1e1") == Some(10.0)
    ensures ParseF64("2.5E0") == Some(2.5)
    ensures ParseF64("-25e-1") == Some(-2.5)
  {
    TenExample();
    TwoAndAHalfExample();
    NegativeExponentExample();
  }

  lemma TenExample()
    ensures ParseF64("1e1") == Some(10.0)
  {
    assert "1e1"[..1] == "1" && "1e1"[2..] == "1" && "1"[..0] == "";
    assert ExponentMark("1e1") == Some(1);
    assert ParseInt("1") == Some(1) && Magnitude("1") == Some(1.0);
    ParseF64Parts("1e1", false, "1e1", 1, 1, 1.0);
  }

  lemma TwoAndAHalfExample()
    ensures ParseF64("2.5E0") == Some(2.5)
  {
    assert "2.5E0"[..3] == "2.5" && "2.5E0"[4..] == "0" && "0"[..0] == "";
    assert ExponentMark("2.5E0") == Some(3);
    assert ParseInt("0") == Some(0);
    DecimalOfParts("2.5", 1);
    assert "2.5"[..1] == "2" && "2.5"[2..] == "5" && "2"[..0] == "" && "5"[..0] == "";
    ParseF64Parts("2.5E0", false, "2.5E0", 3, 0, 2.5);
  }

  lemma NegativeExponentExample()
    ensures ParseF64("-25e-1") == Some(-2.5)
  {
    assert "25e-1"[..2] == "25" && "25e-1"[3..] == "-1" && "-1"[1..] == "1" && "1"[..0] == "";
    assert ExponentMark("25e-1") == Some(2);
    assert ParseInt("-1") == Some(-1);
    assert "25"[..1] == "2" && "2"[..0] == "";
    assert Magnitude("25") == Some(25.0);
    ParseF64Parts("-25e-1", true, "25e-1", 2, -1, 25.0);
  }

  /** A token without digits before or after the exponent mark, or a word such as "inf", reads as nothing. */
  lemma ParseF64Rejects()
    ensures ParseF64("1e").None? && ParseF64("e1").None? && ParseF64("inf").None?
  {
    assert ExponentMark("1e") == Some(1) && "1e"[2..] == "";
    assert ExponentMark("e1") == Some(0) && "e1"[..0] == "";
    assert ExponentMark("inf").None?;
  }

  lemma DecimalOfIntString(i: int)
    ensures ParseDecimal(IntToString(i)) == Some(i as real)
  {
    var s := IntToString(i);
    var (neg, body) := SplitSign(s, true);
    if i < 0 {
      assert body == NatToString(-i);
      NatToStringRoundTrip(-i);
    } else {
      assert body == NatToString(i);
      NatToStringRoundTrip(i);
    }
    assert IndexOf(body, '.').None?;
  }

  /** "12.0" style: how Python writes a float whose value is integral. */
  lemma DecimalOfIntegralFloatString(i: int)
    ensures ParseDecimal(IntToString(i) + ".0") == Some(i as real)
  {
    var s := IntToString(i) + ".0";
    var n := if i < 0 then -i else i;
    var (neg, body) := SplitSign(s, true);
    assert body == NatToString(n) + ".0";
    MagnitudeOfIntegral(n);
  }

  /** The unsigned part of "12.0" reads back as the whole number. */
  lemma MagnitudeOfIntegral(n: nat)
    ensures Magnitude(NatToString(n) + ".0") == Some(n as real)
  {
    var body := NatToString(n) + ".0";
    assert IndexOf(NatToString(n), '.').None?;
    IndexOfAppend(NatToString(n), ".0", '.');
    assert IndexOf(body, '.') == Some(|NatToString(n)|);
    assert body[..|NatToString(n)|] == NatToString(n);
    assert body[|NatToString(n)| + 1..] == "0";
    NatToStringRoundTrip(n);
    assert DigitsValue("0") == 0 by {
      assert "0"[..0] == "";
    }
  }

  /**
   A two-decimal numeral for `c` hundredths, as Rust's `{:.2}` prints a
   value that is already a whole number of hundredths; `plus` adds the '+'
   that `{:+.2}` writes before a non-negative value.
   */
  function Hundredths(c: int, plus: bool): (s: string)
    ensures |s| > 0
  {
    (if c < 0 then "-" else if plus then "+" else "") + HundredthsBody(IntAbs(c))
  }

  /** The unsigned part: whole units, '.', two digits. */
  function HundredthsBody(a: nat): (s: string)
    ensures |s| > 0 && IsDigit(s[0])
    ensures forall j :: 0 <= j < |s| ==> IsDigit(s[j]) || s[j] == '.'
  {
    NatToString(a / 100) + "." + [DigitChar(a % 100 / 10), DigitChar(a % 10)]
  }

  /** Reading a two-decimal numeral back gives the value it was printed from. */
  lemma HundredthsRoundTrip(c: int, plus: bool)
    ensures ParseDecimal(Hundredths(c, plus)) == Some(c as real / 100.0)
  {
    var a := IntAbs(c);
    var body := HundredthsBody(a);
    var sign := if c < 0 then "-" else if plus then "+" else "";
    UnsignedHundredths(a);
    SignedDecimal(sign, body, a as real / 100.0);
  }

  lemma UnsignedHundredths(a: nat)
    ensures Magnitude(HundredthsBody(a)) == Some(a as real / 100.0)
  {
    var ip := NatToString(a / 100);
    var fp := [DigitChar(a % 100 / 10), DigitChar(a % 10)];
    BodyIndex(a);
    DecimalOfParts(ip + "." + fp, |ip|);
    FractionDigits(a);
    NatToStringRoundTrip(a / 100);
    HundredthsValue(a);
  }

  /** A sign in front of an unsigned numeral negates (or keeps) its value. */
  lemma SignedDecimal(sign: string, body: string, m: real)
    requires sign == "-" || sign == "+" || sign == ""
    requires |body| > 0 && IsDigit(body[0])
    requires Magnitude(body) == Some(m)
    ensures ParseDecimal(sign + body) == Some(if sign == "-" then -m else m)
  {
    SignedBody(sign, body);
    assert SplitSign(sign + body, true).1 == body;
  }

  /** A body of digits, '.', digits reads as integer part plus scaled fraction. */
  lemma DecimalOfParts(body: string, k: nat)
    requires IndexOf(body, '.') == Some(k)
    requires AllDigits(body[..k]) && AllDigits(body[k + 1..]) && k > 0
    ensures Magnitude(body) == Some(DigitsValue(body[..k]) as real + DigitsValue(body[k + 1..]) as real / Pow10(|body[k + 1..]|) as real)
  {
  }

  lemma SignedBody(sign: string, body: string)
    requires sign == "-" || sign == "+" || sign == ""
    requires |body| > 0 && IsDigit(body[0])
    ensures SplitSign(sign + body, true) == (sign == "-", body)
  {
    if |sign| > 0 {
      assert (sign + body)[1..] == body;
    } else {
      assert sign + body == body;
    }
  }

  lemma BodyIndex(a: nat)
    ensures var ip := NatToString(a / 100);
            var body := ip + "." + [DigitChar(a % 100 / 10), DigitChar(a % 10)];
            IndexOf(body, '.') == Some(|ip|) && body[..|ip|] == ip && body[|ip| + 1..] == [DigitChar(a % 100 / 10), DigitChar(a % 10)]
  {
    var ip := NatToString(a / 100);
    var fp := [DigitChar(a % 100 / 10), DigitChar(a % 10)];
    assert IndexOf(ip, '.').None?;
    assert ip + "." + fp == ip + ("." + fp);
    IndexOfAppend(ip, "." + fp, '.');
  }

  lemma FractionDigits(a: nat)
    ensures DigitsValue([DigitChar(a % 100 / 10), DigitChar(a % 10)]) == a % 100
  {
    var fp := [DigitChar(a % 100 / 10), DigitChar(a % 10)];
    assert fp[..1] == [fp[0]] && [fp[0]][..0] == [];
    assert DigitsValue(fp[..1]) == a % 100 / 10;
    TwoDigits(a);
  }

  lemma TwoDigits(a: nat)
    ensures a % 100 / 10 * 10 + a % 10 == a % 100
  {
    var q := a / 100;
    var r := a % 100;
    assert a == q * 100 + r;
    assert a % 10 == r % 10 by {
      assert a == (q * 10) * 10 + r;
    }
  }

  lemma HundredthsValue(a: nat)
    ensures (a / 100) as real + (a % 100) as real / Pow10(2) as real == a as real / 100.0
  {
    assert a == a / 100 * 100 + a % 100;
  }

  lemma {:induction false} IndexOfAppend(a: string, b: string, c: char)
    requires IndexOf(a, c).None?
    requires |b| > 0 && b[0] == c
    ensures IndexOf(a + b, c) == Some(|a|)
  {
    if |a| > 0 {
      assert (a + b)[1..] == a[1..] + b;
      assert IndexOf(a[1..], c).None?;
      IndexOfAppend(a[1..], b, c);
    } else {
      assert a + b == b;
    }
  }

  /**
   Unicode White_Space, the set `char::is_whitespace` and `str::trim` strip:
   tab through carriage return, space, next line, no-break space, ogham
   space mark, en quad through hair space, line and paragraph separators,
   narrow no-break space, medium mathematical space and ideographic space.
   */
  predicate IsSpace(c: char)
  {
    '\t' <= c <= '\r' || c == ' ' || c == '\U{85}' || c == '\U{A0}' || c == '\U{1680}'
    || '\U{2000}' <= c <= '\U{200A}' || c == '\U{2028}' || c == '\U{2029}' || c == '\U{202F}'
    || c == '\U{205F}' || c == '\U{3000}'
  }

  function TrimStart(s: string): (r: string)
    ensures |r| <= |s| && r == s[|s| - |r|..]
    ensures |r| > 0 ==> !IsSpace(r[0])
    ensures forall i :: 0 <= i < |s| - |r| ==> IsSpace(s[i])
  {
    if |s| > 0 && IsSpace(s[0]) then TrimStart(s[1..]) else s
  }

  function TrimEnd(s: string): (r: string)
    ensures |r| <= |s| && r == s[..|r|]
    ensures |r| > 0 ==> !IsSpace(r[|r| - 1])
    ensures forall i :: |r| <= i < |s| ==> IsSpace(s[i])
  {
    if |s| > 0 && IsSpace(s[|s| - 1]) then TrimEnd(s[..|s| - 1]) else s
  }

  /** `s` is `r`, found at position `k`, with white space only before and after it. */
  predicate Padded(s: string, r: string, k: int)
  {
    OccursAt(s, r, k)
    && (forall i :: 0 <= i < k ==> IsSpace(s[i])) && (forall i :: k + |r| <= i < |s| ==> IsSpace(s[i]))
  }

  /** A padded string is its padding, the text, then more padding. */
  lemma PaddedSplits(s: string, r: string, k: int)
    requires Padded(s, r, k)
    ensures s == s[..k] + r + s[k + |r|..]
  {
    assert s[..k] + s[k..k + |r|] + s[k + |r|..] == s;
  }

  /**
   `str::trim`: the input is the result
   with only white space before and after it, and the result neither
   starts nor ends with white space.
   */
  function Trim(s: string): (r: string)
    ensures |r| > 0 ==> !IsSpace(r[0]) && !IsSpace(r[|r| - 1])
    ensures exists k :: Padded(s, r, k)
  {
    var t := TrimStart(s);
    var u := TrimEnd(t);
    TrimPadded(s, t, u);
    u
  }

  /** A suffix `t` of `s` after white space, cut to a prefix `u` before white space, leaves `s` padded around `u`. */
  lemma TrimPadded(s: string, t: string, u: string)
    requires |t| <= |s| && t == s[|s| - |t|..] && forall i :: 0 <= i < |s| - |t| ==> IsSpace(s[i])
    requires |u| <= |t| && u == t[..|u|] && forall i :: |u| <= i < |t| ==> IsSpace(t[i])
    ensures Padded(s, u, |s| - |t|)
  {
    var k := |s| - |t|;
    var e := k + |u|;
    assert s[k..e] == u by {
      forall j | 0 <= j < |u|
        ensures s[k..e][j] == u[j]
      {
        assert u[j] == t[j] == s[k + j];
      }
    }
    forall i | e <= i < |s|
      ensures IsSpace(s[i])
    {
      assert s[i] == t[i - k];
    }
  }

  lemma TrimIdentity(s: string)
    requires |s| > 0 ==> !IsSpace(s[0]) && !IsSpace(s[|s| - 1])
    ensures Trim(s) == s
  {
  }

  /** `s.split(c)`: the pieces between separators, always at least one (an empty string gives [""]). */
  function Split(s: string, c: char): (r: seq<string>)
    ensures |r| >= 1
    ensures forall k, j :: 0 <= k < |r| && 0 <= j < |r[k]| ==> r[k][j] != c
    decreases |s|
  {
    match IndexOf(s, c)
    case None => [s]
    case Some(i) => [s[..i]] + Split(s[i + 1..], c)
  }

  function Join(parts: seq<string>, c: char): string
    requires |parts| >= 1
  {
    if |parts| == 1 then parts[0] else parts[0] + [c] + Join(parts[1..], c)
  }

  lemma {:induction false} SplitJoin(s: string, c: char)
    ensures Join(Split(s, c), c) == s
    decreases |s|
  {
    match IndexOf(s, c)
    case None =>
    case Some(i) =>
      var rest := Split(s[i + 1..], c);
      SplitJoin(s[i + 1..], c);
      var parts := [s[..i]] + rest;
      assert Split(s, c) == parts;
      assert parts[0] == s[..i] && parts[1..] == rest;
      JoinCons(parts, c);
      assert s == s[..i] + [c] + s[i + 1..];
  }

  lemma JoinCons(parts: seq<string>, c: char)
    requires |parts| >= 2
    ensures Join(parts, c) == parts[0] + [c] + Join(parts[1..], c)
  {
  }

  /** Splitting a join of separator-free pieces gives the pieces back. */
  lemma {:induction false} JoinSplit(parts: seq<string>, c: char)
    requires |parts| >= 1
    requires forall k, j :: 0 <= k < |parts| && 0 <= j < |parts[k]| ==> parts[k][j] != c
    ensures Split(Join(parts, c), c) == parts
  {
    var s := Join(parts, c);
    if |parts| == 1 {
      assert IndexOf(s, c).None?;
    } else {
      var rest := Join(parts[1..], c);
      JoinCons(parts, c);
      assert s == parts[0] + ([c] + rest);
      assert IndexOf(parts[0], c).None?;
      IndexOfAppend(parts[0], [c] + rest, c);
      assert s[..|parts[0]|] == parts[0];
      assert s[|parts[0]| + 1..] == rest;
      forall k, j | 0 <= k < |parts| - 1 && 0 <= j < |parts[1..][k]|
        ensures parts[1..][k][j] != c
      {
        assert parts[1..][k] == parts[k + 1];
      }
      JoinSplit(parts[1..], c);
      assert Split(s, c) == [parts[0]] + Split(rest, c);
      assert parts == [parts[0]] + parts[1..];
    }
  }

  lemma {:induction false} SplitCount(s: string, c: char)
    ensures |Split(s, c)| == Occurrences(s, c) + 1
    decreases |s|
  {
    match IndexOf(s, c)
    case None => NoOccurrences(s, c);
    case Some(i) =>
      SplitCount(s[i + 1..], c);
      OccurrencesSplit(s, c, i);
  }

  function Occurrences(s: string, c: char): nat
  {
    if |s| == 0 then 0 else (if s[0] == c then 1 else 0) + Occurrences(s[1..], c)
  }

  lemma {:induction false} NoOccurrences(s: string, c: char)
    requires forall j :: 0 <= j < |s| ==> s[j] != c
    ensures Occurrences(s, c) == 0
  {
    if |s| > 0 {
      NoOccurrences(s[1..], c);
    }
  }

  lemma {:induction false} OccurrencesSplit(s: string, c: char, i: nat)
    requires i < |s| && s[i] == c
    requires forall j :: 0 <= j < i ==> s[j] != c
    ensures Occurrences(s, c) == 1 + Occurrences(s[i + 1..], c)
  {
    if i > 0 {
      OccurrencesSplit(s[1..], c, i - 1);
      assert s[1..][i..] == s[i + 1..];
    }
  }

  predicate IsPrefix(p: string, s: string) { |p| <= |s| && s[..|p|] == p }

  predicate IsSuffix(p: string, s: string) { |p| <= |s| && s[|s| - |p|..] == p }

  /** `haystack.contains(needle)` / Python `needle in haystack`. */
  predicate Contains(haystack: string, needle: string)
  {
    exists k :: 0 <= k <= |haystack| - |needle| && OccursAt(haystack, needle, k)
  }

  /** `needle` occurs in `haystack` starting at index `k`. */
  predicate OccursAt(haystack: string, needle: string, k: int)
  {
    0 <= k <= |haystack| - |needle| && haystack[k..k + |needle|] == needle
  }

  /** Decision procedure for `Contains`. */
  function ContainsAt(haystack: string, needle: string, from: nat): (b: bool)
    ensures b <==> exists k :: from <= k && OccursAt(haystack, needle, k)
    decreases |haystack| - from
  {
    if from + |needle| > |haystack| then false
    else if OccursAt(haystack, needle, from) then true
    else
      var b := ContainsAt(haystack, needle, from + 1);
      assert b <== (exists k :: from <= k && OccursAt(haystack, needle, k)) by {
        if exists k :: from <= k && OccursAt(haystack, needle, k) {
          var k :| from <= k && OccursAt(haystack, needle, k);
          assert k != from;
        }
      }
      b
  }

  function StripSuffix(s: string, suffix: string): (r: Option<string>)
    ensures r.Some? <==> IsSuffix(suffix, s)
    ensures r.Some? ==> r.value + suffix == s
  {
    if IsSuffix(suffix, s) then Some(s[..|s| - |suffix|]) else None
  }

  /** Byte-wise lexicographic order, as Rust and Python compare strings. */
  predicate LexLe(a: string, b: string)
  {
    if |a| == 0 then true
    else if |b| == 0 then false
    else if a[0] != b[0] then a[0] < b[0]
    else LexLe(a[1..], b[1..])
  }

  lemma {:induction false} LexLeTotal(a: string, b: string)
    ensures LexLe(a, b) || LexLe(b, a)
  {
    if |a| > 0 && |b| > 0 && a[0] == b[0] {
      LexLeTotal(a[1..], b[1..]);
    }
  }

  lemma {:induction false} LexLeTransitive(a: string, b: string, c: string)
    requires LexLe(a, b) && LexLe(b, c)
    ensures LexLe(a, c)
  {
    if |a| > 0 && |b| > 0 && |c| > 0 && a[0] == b[0] && b[0] == c[0] {
      LexLeTransitive(a[1..], b[1..], c[1..]);
    }
  }

  lemma {:induction false} LexLeAntisymmetric(a: string, b: string)
    requires LexLe(a, b) && LexLe(b, a)
    ensures a == b
  {
    if |a| > 0 && |b| > 0 {
      LexLeAntisymmetric(a[1..], b[1..]);
      assert a == [a[0]] + a[1..];
      assert b == [b[0]] + b[1..];
    }
  }
}
