/** utils/helpers.py: currency and date formatting and the line subtotal.

    Amounts are exact reals. Python formats a float by rounding its exact
    binary value half to even; here the exact real value is rounded the same
    way, so the two agree on every amount a float represents exactly. */
module Helpers {
  import opened Wrappers
  import opened Text

  // ---------------------------------------------------------------------
  // Rounding and fixed-point text

  function Abs(x: real): real {
    if x < 0.0 then -x else x
  }

  /** Rounds a non-negative real to the nearest integer, ties to even. */
  function RoundHalfEven(y: real): (n: nat)
    requires y >= 0.0
    ensures n as real - y <= 0.5 && y - n as real <= 0.5
  {
    var f := y.Floor;
    var frac := y - f as real;
    if frac < 0.5 then f
    else if frac > 0.5 then f + 1
    else if f % 2 == 0 then f
    else f + 1
  }

  /** |x| * 10^d rounded: the digits that `{x:.df}` prints, as one number. */
  function Magnitude(x: real, d: nat): nat {
    RoundHalfEven(Shifted(Abs(x), d))
  }

  /** y with the decimal point moved d places to the right. */
  function Shifted(y: real, d: nat): (r: real)
    ensures y >= 0.0 ==> r >= 0.0
  {
    if d == 0 then y else Shifted(y, d - 1) * 10.0
  }

  lemma {:induction false} ShiftedIsProduct(y: real, d: nat)
    ensures Shifted(y, d) == y * Pow10(d) as real
  {
    if d > 0 {
      ShiftedIsProduct(y, d - 1);
      assert Pow10(d) == Pow10(d - 1) * 10;
      CastProduct(Pow10(d - 1), 10);
    }
  }

  function Quotient(m: nat, p: nat): real
    requires p >= 1
  {
    m as real / p as real
  }

  /** The integer part of m / 10^d: m without its last d digits. */
  function IntPart(m: nat, d: nat): nat {
    if d == 0 then m else IntPart(m / 10, d - 1)
  }

  /** The last d digits of m, as a number. */
  function FracValue(m: nat, d: nat): (r: nat)
    ensures r < Pow10(d)
  {
    if d == 0 then 0 else FracValue(m / 10, d - 1) * 10 + m % 10
  }

  /** m is its integer part shifted back by d places plus its last d digits. */
  lemma {:induction false} SplitValue(m: nat, d: nat)
    ensures m == IntPart(m, d) * Pow10(d) + FracValue(m, d)
  {
    if d > 0 {
      SplitValue(m / 10, d - 1);
      var q, p, f := IntPart(m, d), Pow10(d - 1), FracValue(m / 10, d - 1);
      assert m == 10 * (m / 10) + m % 10;
      assert Pow10(d) == 10 * p && FracValue(m, d) == f * 10 + m % 10;
      SplitStep(m, m / 10, m % 10, q, p, f);
    }
  }

  /** The arithmetic of one step of SplitValue. */
  lemma SplitStep(m: int, a: int, r: int, q: int, p: int, f: int)
    requires a == q * p + f && m == 10 * a + r
    ensures m == q * (10 * p) + (f * 10 + r)
  {
  }

  /** The value m / 10^d, negated when neg. */
  function SignedQuotient(neg: bool, m: nat, d: nat): real {
    if neg then -Quotient(m, Pow10(d)) else Quotient(m, Pow10(d))
  }

  /** x rounded to d decimal places, as `{x:.df}` shows it. */
  function Rounded(x: real, d: nat): real {
    SignedQuotient(x < 0.0, Magnitude(x, d), d)
  }

  function SignText(neg: bool): string {
    if neg then "-" else ""
  }

  function FracPart(r: nat, d: nat): string {
    if d == 0 then "" else "." + ZeroPad(NatToString(r), d)
  }

  /** The text of m / 10^d with exactly d decimals and an optional sign. */
  function PlainNumeral(neg: bool, m: nat, d: nat): string {
    SignText(neg) + NatToString(IntPart(m, d)) + FracPart(FracValue(m, d), d)
  }

  /** f"{x:.{d}f}": sign, integer digits and, when d > 0, a point and
      exactly d fractional digits. */
  function FixedText(x: real, d: nat): string {
    PlainNumeral(x < 0.0, Magnitude(x, d), d)
  }

  /** Digits grouped by three with the given separator. */
  function GroupedWith(n: nat, sep: string): string
    decreases n
  {
    if n < 1000 then NatToString(n)
    else GroupedWith(n / 1000, sep) + sep + ZeroPad(NatToString(n % 1000), 3)
  }

  /** The text of m / 10^d with exactly d decimals, the integer digits in
      groups of three joined by ts, and ds before the decimals. */
  function Numeral(neg: bool, m: nat, d: nat, ts: string, ds: string): string {
    SignText(neg) + GroupedWith(IntPart(m, d), ts)
      + (if d == 0 then "" else ds + ZeroPad(NatToString(FracValue(m, d)), d))
  }

  /** As PlainNumeral, with ',' every three integer digits. */
  function GroupedNumeral(neg: bool, m: nat, d: nat): string {
    Numeral(neg, m, d, ",", ".")
  }

  /** f"{x:,.{d}f}". */
  function GroupedText(x: real, d: nat): string {
    GroupedNumeral(x < 0.0, Magnitude(x, d), d)
  }

  // ---------------------------------------------------------------------
  // format_currency

  /** The dictionary that format_currency reads. A separator is None when
      the dictionary has no such key (the lookup raises KeyError). */
  datatype CurrencyConfig = CurrencyConfig(
    symbol: string, name: string, code: string, decimalPlaces: int,
    thousandsSep: Option<string>, decimalSep: Option<string>)

  /** The stored currency settings (section Currency of the settings file). */
  datatype CurrencySettings = CurrencySettings(
    symbol: string, name: string, code: string, decimalPlaces: int)

  /** What get_currency_config returns. The class defines that method twice
      and the later definition wins; it has no separator keys. */
  function ShownCurrencyConfig(st: CurrencySettings): (c: CurrencyConfig)
    ensures c.thousandsSep.None? && c.decimalSep.None?
  {
    CurrencyConfig(st.symbol, st.name, st.code, st.decimalPlaces, None, None)
  }

  /** The fallback text: "S/ " and the amount with two decimals. */
  function FallbackCurrency(x: real): string {
    "S/ " + FixedText(x, 2)
  }

  /** "0.00", the text of a zero amount. */
  lemma FixedTextZero()
    ensures FixedText(0.0, 2) == "0.00"
  {
    assert Shifted(0.0, 2) == 0.0;
    assert Magnitude(0.0, 2) == 0;
    assert IntPart(0, 2) == 0;
    assert FracValue(0, 2) == 0;
    assert NatToString(0) == "0";
    assert Zeros(1) == "0";
    assert ZeroPad("0", 2) == "00";
  }

  /** format_currency(0) is the "S/ 0.00" the views also write directly. */
  lemma FormatCurrencyZero()
    ensures FormatCurrency(0.0) == "S/ 0.00"
  {
    FixedTextZero();
  }

  /** format_currency as written, for a given configuration dictionary. A
      missing separator key or a negative precision raises inside the try
      block, and the fallback runs. */
  function FormatCurrencyWith(cfg: CurrencyConfig, x: real): string {
    if cfg.thousandsSep.None? || cfg.decimalSep.None? || cfg.decimalPlaces < 0 then
      FallbackCurrency(x)
    else
      var formatted := GroupedText(x, cfg.decimalPlaces);
      var ts := cfg.thousandsSep.value;
      var ds := cfg.decimalSep.value;
      var shown := if ts != "," || ds != "." then Reseparated(formatted, ts, ds) else formatted;
      cfg.symbol + " " + shown
  }

  /** format_currency as the application runs it: whatever the settings,
      the lookup of the thousands separator fails and the fallback is used. */
  function FormatCurrency(x: real): string
  {
    FallbackCurrency(x)
  }

  /** With the dictionary the settings give, format_currency as written
      always takes the fallback path. */
  lemma FormatCurrencyAlwaysFallback(x: real, st: CurrencySettings)
    ensures FormatCurrency(x) == FormatCurrencyWith(ShownCurrencyConfig(st), x)
  {
  }

  /** What the views strip before float(): "S/", "$" and ','. */
  function Unformat(s: string): string {
    Replace(Replace(Replace(s, "S/", ""), "$", ""), ",", "")
  }

  /** The same, followed by .strip(), as in calcular_totales and guardar_factura. */
  function CleanAmount(s: string): string {
    Strip(Unformat(s))
  }

  // ---------------------------------------------------------------------
  // Lemmas about the fixed-point text

  predicate NumeralChars(s: string) {
    forall i :: 0 <= i < |s| ==> IsDigit(s[i]) || s[i] == '-' || s[i] == '.'
  }

  lemma {:induction false} GroupedWithChars(n: nat, sep: string)
    requires NumeralChars(sep) || sep == ","
    ensures |GroupedWith(n, sep)| >= 1
    ensures forall i :: 0 <= i < |GroupedWith(n, sep)| ==>
              IsDigit(GroupedWith(n, sep)[i]) || GroupedWith(n, sep)[i] in sep
    ensures IsDigit(GroupedWith(n, sep)[0])
    decreases n
  {
    if n >= 1000 {
      GroupedWithChars(n / 1000, sep);
      ZeroPadDigits(n % 1000, 3);
      var g := GroupedWith(n / 1000, sep);
      var p := ZeroPad(NatToString(n % 1000), 3);
      assert GroupedWith(n, sep) == g + sep + p;
      forall i | 0 <= i < |g + sep + p|
        ensures IsDigit((g + sep + p)[i]) || (g + sep + p)[i] in sep
      {
        if i < |g| {
        } else if i < |g| + |sep| {
          assert (g + sep + p)[i] == sep[i - |g|];
        } else {
          assert (g + sep + p)[i] == p[i - |g| - |sep|];
        }
      }
    }
  }

  lemma FracPartShape(r: nat, d: nat)
    requires d >= 1 && r < Pow10(d)
    ensures FracPart(r, d) == "." + ZeroPad(NatToString(r), d)
    ensures |ZeroPad(NatToString(r), d)| == d
    ensures AllDigits(ZeroPad(NatToString(r), d))
    ensures DigitsValue(ZeroPad(NatToString(r), d)) == r
  {
    ZeroPadDigits(r, d);
    ZeroPadExact(r, d);
  }

  lemma CastProduct(q: int, p: int)
    ensures (q * p) as real == q as real * p as real
  {
  }

  lemma AddFraction(q: real, r: real, p: real)
    requires p > 0.0
    ensures q + r / p == (q * p + r) / p
  {
  }

  lemma QuotientSplit(m: nat, q: nat, r: nat, p: nat)
    requires p >= 1 && m == q * p + r
    ensures q as real + r as real / p as real == m as real / p as real
  {
    CastProduct(q, p);
    AddFraction(q as real, r as real, p as real);
  }

  /** Integer part plus fraction over 10^d is the quotient m / 10^d. */
  lemma DecimalOfQuotient(m: nat, d: nat)
    ensures Decimal(IntPart(m, d), FracValue(m, d), d) == Quotient(m, Pow10(d))
  {
    SplitValue(m, d);
    QuotientSplit(m, IntPart(m, d), FracValue(m, d), Pow10(d));
  }

  /** A signed decimal numeral a.f is made of digits, '-' and '.', and ends in a digit. */
  lemma SignedNumeralChars(neg: bool, a: string, f: string)
    requires AllDigits(a) && |a| >= 1 && AllDigits(f) && |f| >= 1
    ensures NumeralChars(SignText(neg) + a + "." + f)
    ensures IsDigit((SignText(neg) + a + "." + f)[|SignText(neg) + a + "." + f| - 1])
  {
    var sg := SignText(neg);
    var t := sg + a + "." + f;
    forall i | 0 <= i < |t| ensures IsDigit(t[i]) || t[i] == '-' || t[i] == '.' {
      if i < |sg| {
      } else if i < |sg| + |a| {
        assert t[i] == a[i - |sg|];
      } else if i > |sg| + |a| {
        assert t[i] == f[i - |sg| - |a| - 1];
      }
    }
    assert t[|t| - 1] == f[|f| - 1];
  }

  lemma ParseDecimalUnsigned(u: string)
    requires |u| >= 1 && IsDigit(u[0]) && IsDigit(u[|u| - 1])
    ensures ParseDecimal(u) == UnsignedDecimal(u)
  {
    StripUnchanged(u);
  }

  lemma ParseDecimalNegative(u: string, v: real)
    requires |u| >= 1 && IsDigit(u[|u| - 1]) && UnsignedDecimal(u) == Some(v)
    ensures ParseDecimal("-" + u) == Some(-v)
  {
    var t := "-" + u;
    assert t[|t| - 1] == u[|u| - 1];
    StripUnchanged(t);
    assert t[1..] == u;
  }

  /** A sign followed by an unsigned numeral reads back as the signed value. */
  lemma SignedNumeralValue(neg: bool, u: string, m: nat, d: nat)
    requires |u| >= 1 && IsDigit(u[0]) && IsDigit(u[|u| - 1])
    requires UnsignedDecimal(u) == Some(Quotient(m, Pow10(d)))
    ensures ParseDecimal(SignText(neg) + u) == Some(SignedQuotient(neg, m, d))
  {
    var v := Quotient(m, Pow10(d));
    if neg {
      assert SignText(neg) + u == "-" + u;
      assert SignedQuotient(neg, m, d) == -v;
      ParseDecimalNegative(u, v);
    } else {
      assert SignText(neg) + u == u;
      assert SignedQuotient(neg, m, d) == v;
      ParseDecimalUnsigned(u);
    }
  }

  /** The text of a numeral with d >= 1 decimals, split at its point. */
  lemma PlainNumeralParts(neg: bool, m: nat, d: nat)
    requires d >= 1
    ensures var a, f := NatToString(IntPart(m, d)), ZeroPad(NatToString(FracValue(m, d)), d);
            PlainNumeral(neg, m, d) == SignText(neg) + a + "." + f
            && AllDigits(f) && |f| == d && DigitsValue(f) == FracValue(m, d)
  {
    FracPartShape(FracValue(m, d), d);
  }

  /** A numeral with d >= 1 decimals is made of digits, '-' and '.', and
      ends in a digit. */
  lemma PlainNumeralChars(neg: bool, m: nat, d: nat)
    requires d >= 1
    ensures NumeralChars(PlainNumeral(neg, m, d))
    ensures |PlainNumeral(neg, m, d)| >= 1
    ensures IsDigit(PlainNumeral(neg, m, d)[|PlainNumeral(neg, m, d)| - 1])
  {
    PlainNumeralParts(neg, m, d);
    SignedNumeralChars(neg, NatToString(IntPart(m, d)), ZeroPad(NatToString(FracValue(m, d)), d));
  }

  /** A numeral with d >= 1 decimals reads back as its value. */
  lemma PlainNumeralValue(neg: bool, m: nat, d: nat)
    requires d >= 1
    ensures ParseDecimal(PlainNumeral(neg, m, d)) == Some(SignedQuotient(neg, m, d))
  {
    PlainNumeralParts(neg, m, d);
    var u := UnsignedNumeral(m, d);
    assert PlainNumeral(neg, m, d) == SignText(neg) + u;
    UnsignedNumeralValue(m, d);
    SignedNumeralValue(neg, u, m, d);
  }

  /** The digits of m / 10^d with d >= 1 decimals, without a sign. */
  function UnsignedNumeral(m: nat, d: nat): string {
    NatToString(IntPart(m, d)) + "." + ZeroPad(NatToString(FracValue(m, d)), d)
  }

  lemma UnsignedNumeralValue(m: nat, d: nat)
    requires d >= 1
    ensures var u := UnsignedNumeral(m, d);
            |u| >= 1 && IsDigit(u[0]) && IsDigit(u[|u| - 1])
            && UnsignedDecimal(u) == Some(Quotient(m, Pow10(d)))
  {
    var a := NatToString(IntPart(m, d));
    FracPartShape(FracValue(m, d), d);
    var f := ZeroPad(NatToString(FracValue(m, d)), d);
    var u := a + "." + f;
    assert u[|u| - 1] == f[|f| - 1];
    assert u[0] == a[0];
    SplitDecimal(a, f);
    NatToStringValue(IntPart(m, d));
    DecimalOfQuotient(m, d);
  }

  /** The digits printed for x with d >= 1 decimals read back as x rounded. */
  lemma FixedTextValue(x: real, d: nat)
    requires d >= 1
    ensures NumeralChars(FixedText(x, d))
    ensures |FixedText(x, d)| >= 1 && IsDigit(FixedText(x, d)[|FixedText(x, d)| - 1])
    ensures ParseDecimal(FixedText(x, d)) == Some(Rounded(x, d))
  {
    PlainNumeralChars(x < 0.0, Magnitude(x, d), d);
    PlainNumeralValue(x < 0.0, Magnitude(x, d), d);
  }

  /** Characters of a numeral are none of 'S', '$', ',' or blank. */
  lemma UnformatNumeral(t: string)
    requires NumeralChars(t) && |t| >= 1
    ensures Unformat("S/ " + t) == " " + t
    ensures NoSpaces(t)
  {
    var bt := " " + t;
    ReplaceAtFront("S/", bt, "");
    assert "S/ " + t == "S/" + bt;
    forall i | 0 <= i < |bt| ensures bt[i] != 'S' && bt[i] != '$' && bt[i] != ',' {
      if i > 0 { assert bt[i] == t[i - 1]; }
    }
    assert "S/"[0] == 'S' && "$"[0] == '$' && ","[0] == ',';
    ReplaceAbsent(bt, "S/", "");
    assert Replace("S/ " + t, "S/", "") == bt;
    ReplaceAbsent(bt, "$", "");
    ReplaceAbsent(bt, ",", "");
    forall i | 0 <= i < |t| ensures !IsSpace(t[i]) {
      assert IsDigit(t[i]) || t[i] == '-' || t[i] == '.';
    }
  }

  /** Removing the symbol from "S/ " followed by a numeral leaves text
      that reads as the numeral itself. */
  lemma UnformatFallback(t: string)
    requires NumeralChars(t) && |t| >= 1
    ensures ParseDecimal(Unformat("S/ " + t)) == ParseDecimal(t)
    ensures CleanAmount("S/ " + t) == t
  {
    UnformatNumeral(t);
    StripBlanksBefore(1, t);
    StripBlanksBefore(0, t);
    assert Blanks(1) + t == " " + t;
    assert Blanks(0) + t == t;
    ParseDecimalOfStripped(" " + t, t);
  }

  lemma ParseDecimalOfStripped(s1: string, s2: string)
    requires Strip(s1) == Strip(s2)
    ensures ParseDecimal(s1) == ParseDecimal(s2)
  {
  }

  /** Round trip: stripping the symbol, '$' and ',' from format_currency(x)
      and reading the rest with float() gives x rounded to two decimals. */
  lemma FormatCurrencyRoundTrip(x: real)
    ensures ParseDecimal(Unformat(FormatCurrency(x))) == Some(Rounded(x, 2))
    ensures ParseDecimal(CleanAmount(FormatCurrency(x))) == Some(Rounded(x, 2))
  {
    FixedTextValue(x, 2);
    UnformatFallback(FixedText(x, 2));
  }

  lemma ScaledError(x: real, m: real, p: real, q: real)
    requires p > 0.0 && q == m / p
    requires m - Abs(x) * p <= 0.5 && Abs(x) * p - m <= 0.5
    ensures Abs((if x < 0.0 then -q else q) - x) * p <= 0.5
  {
    assert (q - Abs(x)) * p == m - Abs(x) * p;
  }

  lemma ShiftedBound(y: real, d: nat, m: real, c: real)
    requires m - Shifted(y, d) <= c && Shifted(y, d) - m <= c
    ensures m - y * Pow10(d) as real <= c && y * Pow10(d) as real - m <= c
  {
    ShiftedIsProduct(y, d);
  }

  lemma ShiftedOfBound(y: real, d: nat, c: real)
    requires y * Pow10(d) as real <= c
    ensures Shifted(y, d) <= c
  {
    ShiftedIsProduct(y, d);
  }

  lemma QuotientClose(x: real, m: nat, d: nat, a: real)
    requires a == Abs(x)
    requires m as real - Shifted(a, d) <= 0.5 && Shifted(a, d) - m as real <= 0.5
    ensures Shifted(Abs(SignedQuotient(x < 0.0, m, d) - x), d) <= 0.5
  {
    ShiftedBound(a, d, m as real, 0.5);
    QuotientCloseScaled(x, m, d, a);
    ShiftedOfBound(Abs(SignedQuotient(x < 0.0, m, d) - x), d, 0.5);
  }

  lemma QuotientCloseScaled(x: real, m: nat, d: nat, a: real)
    requires a == Abs(x)
    requires m as real - a * Pow10(d) as real <= 0.5 && a * Pow10(d) as real - m as real <= 0.5
    ensures Abs(SignedQuotient(x < 0.0, m, d) - x) * Pow10(d) as real <= 0.5
  {
    var q := Quotient(m, Pow10(d));
    ScaledError(x, m as real, Pow10(d) as real, q);
    assert SignedQuotient(x < 0.0, m, d) == (if x < 0.0 then -q else q);
  }

  lemma RoundedCloseAt(x: real, d: nat, m: nat)
    requires m == Magnitude(x, d)
    ensures Shifted(Abs(SignedQuotient(x < 0.0, m, d) - x), d) <= 0.5
  {
    QuotientClose(x, m, d, Abs(x));
  }

  /** The rounded value is within half a unit of the last printed place. */
  lemma RoundedIsClose(x: real, d: nat)
    ensures Shifted(Abs(Rounded(x, d) - x), d) <= 0.5
  {
    var m := Magnitude(x, d);
    assert Rounded(x, d) == SignedQuotient(x < 0.0, m, d);
    RoundedCloseAt(x, d, m);
  }

  /** Ties are rounded to the even neighbour, as Python's formatting does. */
  lemma RoundHalfEvenTies(y: real)
    requires y >= 0.0
    requires RoundHalfEven(y) as real - y == 0.5 || y - RoundHalfEven(y) as real == 0.5
    ensures RoundHalfEven(y) % 2 == 0
  {
  }

  // ---------------------------------------------------------------------
  // The intended path of format_currency

  lemma {:induction false} ReplaceGroupSeparator(n: nat, ts: string)
    ensures Replace(GroupedWith(n, ","), ",", ts) == GroupedWith(n, ts)
    decreases n
  {
    if n >= 1000 {
      var p := ZeroPad(NatToString(n % 1000), 3);
      ZeroPadDigits(n % 1000, 3);
      ReplaceCharConcat(GroupedWith(n / 1000, ",") + ",", p, ',', ts);
      ReplaceCharConcat(GroupedWith(n / 1000, ","), ",", ',', ts);
      ReplaceAtFront(",", [], ts);
      assert Replace([], ",", ts) == [];
      forall i | 0 <= i < |p| ensures p[i] != ',' { assert IsDigit(p[i]); }
      ReplaceAbsent(p, ",", ts);
      ReplaceGroupSeparator(n / 1000, ts);
    } else {
      var s := NatToString(n);
      forall i | 0 <= i < |s| ensures s[i] != ',' { assert IsDigit(s[i]); }
      ReplaceAbsent(s, ",", ts);
    }
  }

  /** The separator-replacing branch of format_currency on a grouped numeral. */
  function Reseparated(formatted: string, ts: string, ds: string): string {
    var parts := Split(formatted, ".");
    if |parts| == 2 then Replace(parts[0], ",", ts) + ds + parts[1]
    else Replace(parts[0], ",", ts)
  }

  /** Replacing ',' in the sign and grouped digits regroups them with ts;
      that text holds no '.'. */
  lemma RegroupedInteger(neg: bool, q: nat, ts: string)
    ensures Replace(SignText(neg) + GroupedWith(q, ","), ",", ts) == SignText(neg) + GroupedWith(q, ts)
    ensures forall i :: 0 <= i < |SignText(neg) + GroupedWith(q, ",")| ==>
              (SignText(neg) + GroupedWith(q, ","))[i] != '.'
  {
    var g := GroupedWith(q, ",");
    var sg := SignText(neg);
    var left := sg + g;
    GroupedWithChars(q, ",");
    forall i | 0 <= i < |left| ensures left[i] != '.' {
      if i >= |sg| { assert left[i] == g[i - |sg|]; }
    }
    ReplaceCharConcat(sg, g, ',', ts);
    ReplaceAbsent(sg, ",", ts);
    ReplaceGroupSeparator(q, ts);
  }

  lemma ReseparatedPoint(left: string, f: string, ts: string, ds: string)
    requires forall i :: 0 <= i < |left| ==> left[i] != '.'
    requires forall i :: 0 <= i < |f| ==> f[i] != '.'
    ensures Reseparated(left + "." + f, ts, ds) == Replace(left, ",", ts) + ds + f
  {
    assert left + "." + f == left + ['.'] + f;
    SplitAtChar(left, '.', f);
  }

  lemma ReseparatedNoPoint(left: string, ts: string, ds: string)
    requires forall i :: 0 <= i < |left| ==> left[i] != '.'
    ensures Reseparated(left, ts, ds) == Replace(left, ",", ts)
  {
    SplitNoChar(left, '.');
  }

  lemma ReseparatedNumeral(neg: bool, m: nat, d: nat, ts: string, ds: string)
    ensures Reseparated(Numeral(neg, m, d, ",", "."), ts, ds) == Numeral(neg, m, d, ts, ds)
  {
    RegroupedInteger(neg, IntPart(m, d), ts);
    if d == 0 {
      var left := SignText(neg) + GroupedWith(IntPart(m, d), ",");
      assert Numeral(neg, m, d, ",", ".") == left;
      ReseparatedNoPoint(left, ts, ds);
    } else {
      ReseparatedFraction(neg, m, d, ts, ds);
    }
  }

  /** The case with decimals: the point becomes ds, the digits after it stay. */
  lemma ReseparatedFraction(neg: bool, m: nat, d: nat, ts: string, ds: string)
    requires d > 0
    requires forall i :: 0 <= i < |SignText(neg) + GroupedWith(IntPart(m, d), ",")| ==>
               (SignText(neg) + GroupedWith(IntPart(m, d), ","))[i] != '.'
    ensures Reseparated(Numeral(neg, m, d, ",", "."), ts, ds)
         == Replace(SignText(neg) + GroupedWith(IntPart(m, d), ","), ",", ts) + ds + ZeroPad(NatToString(FracValue(m, d)), d)
  {
    var left := SignText(neg) + GroupedWith(IntPart(m, d), ",");
    FracPartShape(FracValue(m, d), d);
    var f := ZeroPad(NatToString(FracValue(m, d)), d);
    forall i | 0 <= i < |f| ensures f[i] != '.' { assert IsDigit(f[i]); }
    assert Numeral(neg, m, d, ",", ".") == left + "." + f;
    ReseparatedPoint(left, f, ts, ds);
  }

  /** With both separator keys present and decimal_places >= 0, the text
      is the symbol, a blank and the amount rounded to decimal_places, its
      integer digits grouped by three with thousands_sep and decimal_sep
      before the decimals. */
  lemma IntendedFormat(symbol: string, name: string, code: string, d: nat,
                       ts: string, ds: string, x: real)
    ensures FormatCurrencyWith(CurrencyConfig(symbol, name, code, d, Some(ts), Some(ds)), x)
         == symbol + " " + Numeral(x < 0.0, Magnitude(x, d), d, ts, ds)
  {
    ReseparatedNumeral(x < 0.0, Magnitude(x, d), d, ts, ds);
  }

  // ---------------------------------------------------------------------
  // calculate_subtotal

  /** float(price) * int(quantity). */
  function CalculateSubtotal(price: real, quantity: int): real {
    price * quantity as real
  }

  /** The price added up quantity times: an independent reading of a line subtotal. */
  function RepeatedPrice(price: real, quantity: nat): real {
    if quantity == 0 then 0.0 else RepeatedPrice(price, quantity - 1) + price
  }

  lemma {:induction false} CalculateSubtotalIsRepeatedPrice(price: real, quantity: nat)
    ensures CalculateSubtotal(price, quantity) == RepeatedPrice(price, quantity)
  {
    if quantity > 0 {
      CalculateSubtotalIsRepeatedPrice(price, quantity - 1);
      assert CalculateSubtotal(price, quantity)
          == CalculateSubtotal(price, quantity - 1) + price;
    }
  }

  // ---------------------------------------------------------------------
  // format_date

  datatype Date = Date(year: int, month: int, day: int)

  predicate IsLeapYear(y: int) {
    (y % 4 == 0 && y % 100 != 0) || y % 400 == 0
  }

  function DaysInMonth(y: int, m: int): int
    requires 1 <= m <= 12
  {
    if m == 2 then (if IsLeapYear(y) then 29 else 28)
    else if m == 4 || m == 6 || m == 9 || m == 11 then 30
    else 31
  }

  /** A date that Python's datetime.date accepts, with a four-digit year. */
  predicate ValidDate(d: Date) {
    1 <= d.year <= 9999 && 1 <= d.month <= 12 && 1 <= d.day <= DaysInMonth(d.year, d.month)
  }

  function Pad(n: nat, width: nat): string {
    ZeroPad(NatToString(n), width)
  }

  /** The calendar date in the ISO 8601 extended form YYYY-MM-DD. */
  function IsoText(d: Date): string
    requires ValidDate(d)
  {
    Pad(d.year, 4) + "-" + Pad(d.month, 2) + "-" + Pad(d.day, 2)
  }

  /** strftime("%d/%m/%Y"). */
  function DmyText(d: Date): string
    requires ValidDate(d)
  {
    Pad(d.day, 2) + "/" + Pad(d.month, 2) + "/" + Pad(d.year, 4)
  }

  /** Three digit fields of widths w1, w2, w3 joined by sep. */
  function Fields(s: string, w1: nat, w2: nat, w3: nat, sep: char): Option<(nat, nat, nat)> {
    if |s| == w1 + w2 + w3 + 2 && s[w1] == sep && s[w1 + w2 + 1] == sep
       && AllDigits(s[..w1]) && AllDigits(s[w1 + 1..w1 + w2 + 1]) && AllDigits(s[w1 + w2 + 2..])
    then Some((DigitsValue(s[..w1]), DigitsValue(s[w1 + 1..w1 + w2 + 1]), DigitsValue(s[w1 + w2 + 2..])))
    else None
  }

  /** strptime(s, "%Y-%m-%d") on the strict form: None where it raises. */
  function ParseIso(s: string): (r: Option<Date>)
    ensures r.Some? ==> ValidDate(r.value)
  {
    match Fields(s, 4, 2, 2, '-')
    case None => None
    case Some((y, m, dd)) => if ValidDate(Date(y, m, dd)) then Some(Date(y, m, dd)) else None
  }

  /** The inverse of DmyText. */
  function ParseDmy(s: string): (r: Option<Date>)
    ensures r.Some? ==> ValidDate(r.value)
  {
    match Fields(s, 2, 2, 4, '/')
    case None => None
    case Some((dd, m, y)) => if ValidDate(Date(y, m, dd)) then Some(Date(y, m, dd)) else None
  }

  /** format_date on a string: a valid YYYY-MM-DD date becomes DD/MM/YYYY;
      any other text is returned unchanged. */
  function FormatDate(s: string): string {
    match ParseIso(s)
    case Some(d) => DmyText(d)
    case None => s
  }

  /** format_date on a date object. */
  function FormatDateValue(d: Date): string
    requires ValidDate(d)
  {
    DmyText(d)
  }

  lemma FieldsOfPadded(a: nat, b: nat, c: nat, w1: nat, w2: nat, w3: nat, sep: char)
    requires w1 >= 1 && w2 >= 1 && w3 >= 1
    requires a < Pow10(w1) && b < Pow10(w2) && c < Pow10(w3)
    ensures Fields(Pad(a, w1) + [sep] + Pad(b, w2) + [sep] + Pad(c, w3), w1, w2, w3, sep)
         == Some((a, b, c))
  {
    ZeroPadDigits(a, w1); ZeroPadExact(a, w1);
    ZeroPadDigits(b, w2); ZeroPadExact(b, w2);
    ZeroPadDigits(c, w3); ZeroPadExact(c, w3);
    FieldsOfDigits(Pad(a, w1), Pad(b, w2), Pad(c, w3), sep);
  }

  /** Three digit strings joined by sep read back as their values. */
  lemma FieldsOfDigits(x: string, y: string, z: string, sep: char)
    requires AllDigits(x) && AllDigits(y) && AllDigits(z)
    ensures Fields(x + [sep] + y + [sep] + z, |x|, |y|, |z|, sep)
         == Some((DigitsValue(x), DigitsValue(y), DigitsValue(z)))
  {
    var t := y + [sep] + z;
    var s := x + [sep] + t;
    assert s == x + [sep] + y + [sep] + z;
    assert s[..|x|] == x && s[|x|] == sep && s[|x| + 1..] == t;
    assert t[..|y|] == y && t[|y|] == sep && t[|y| + 1..] == z;
    assert s[|x| + 1..|x| + |y| + 1] == y by {
      assert s[|x| + 1..|x| + |y| + 1] == s[|x| + 1..][..|y|];
    }
    assert s[|x| + |y| + 2..] == z by {
      assert s[|x| + |y| + 2..] == s[|x| + 1..][|y| + 1..];
    }
  }

  lemma DateFieldsSmall(d: Date)
    requires ValidDate(d)
    ensures d.year < Pow10(4) && d.month < Pow10(2) && d.day < Pow10(2)
  {
    assert Pow10(2) == 100;
    assert Pow10(4) == 10000;
  }

  /** Reading an ISO date back gives the date. */
  lemma ParseIsoText(d: Date)
    requires ValidDate(d)
    ensures ParseIso(IsoText(d)) == Some(d)
  {
    DateFieldsSmall(d);
    FieldsOfPadded(d.year, d.month, d.day, 4, 2, 2, '-');
    assert IsoText(d) == Pad(d.year, 4) + ['-'] + Pad(d.month, 2) + ['-'] + Pad(d.day, 2);
  }

  /** format_date turns the ISO text of a date into the same text as a date
      object gives, and reading that text back gives the date. */
  lemma FormatDateOfIso(d: Date)
    requires ValidDate(d)
    ensures FormatDate(IsoText(d)) == FormatDateValue(d)
    ensures ParseDmy(FormatDate(IsoText(d))) == Some(d)
  {
    ParseIsoText(d);
    DateFieldsSmall(d);
    FieldsOfPadded(d.day, d.month, d.year, 2, 2, 4, '/');
    assert DmyText(d) == Pad(d.day, 2) + ['/'] + Pad(d.month, 2) + ['/'] + Pad(d.year, 4);
  }

  /** The only texts read as dates are the canonical ISO texts, so
      format_date changes exactly the texts IsoText produces and returns
      any other text unchanged. */
  lemma ParseIsoCanonical(s: string)
    requires ParseIso(s).Some?
    ensures s == IsoText(ParseIso(s).value)
  {
    FieldsCanonical(s, 4, 2, 2, '-');
  }

  /** A digit string of width k is the padding of its own value. */
  lemma {:induction false} PadCanonical(w: string, k: nat)
    requires AllDigits(w) && |w| == k && k >= 1
    ensures Pad(DigitsValue(w), k) == w
    decreases k
  {
    var c := w[k - 1];
    assert DigitChar(DigitValue(c)) == c;
    if k == 1 {
      assert w == [c];
    } else {
      var u := w[..k - 1];
      PadCanonical(u, k - 1);
      assert w == u + [c];
      PadStep(u, c, k);
    }
  }

  /** One more digit on the right of a canonical padded text. */
  lemma PadStep(u: string, c: char, k: nat)
    requires k >= 2 && AllDigits(u) && |u| == k - 1 && IsDigit(c)
    requires Pad(DigitsValue(u), k - 1) == u
    ensures Pad(DigitsValue(u + [c]), k) == u + [c]
  {
    var v := DigitsValue(u);
    var n := DigitsValue(u + [c]);
    LastDigit(u, c);
    if v > 0 {
      PadStepDigits(v, c, k);
      assert Pad(n, k) == Pad(v, k - 1) + [c] == u + [c];
    } else {
      assert v == 0;
      PadStepZero(c, k);
      assert n == DigitValue(c);
      assert Pad(n, k) == Pad(0, k - 1) + [c] == u + [c];
    }
  }

  /** The value of a digit string with one more digit on the right. */
  lemma LastDigit(u: string, c: char)
    requires AllDigits(u) && IsDigit(c)
    ensures DigitsValue(u + [c]) == DigitsValue(u) * 10 + DigitValue(c)
    ensures DigitChar(DigitValue(c)) == c
  {
    assert (u + [c])[..|u|] == u;
  }

  lemma PadStepDigits(v: nat, c: char, k: nat)
    requires k >= 2 && IsDigit(c) && v > 0
    requires DigitChar(DigitValue(c)) == c
    ensures Pad(v * 10 + DigitValue(c), k) == Pad(v, k - 1) + [c]
  {
    var n := v * 10 + DigitValue(c);
    assert n / 10 == v && n % 10 == DigitValue(c);
    assert NatToString(n) == NatToString(v) + [c];
    PadAppend(NatToString(v), c, k);
  }

  lemma PadStepZero(c: char, k: nat)
    requires k >= 2 && IsDigit(c) && DigitChar(DigitValue(c)) == c
    ensures Pad(DigitValue(c), k) == Pad(0, k - 1) + [c]
  {
    assert NatToString(DigitValue(c)) == [c];
    ZeroOnly(k - 1);
    ZerosSplit(k);
  }

  /** Padding a text one character longer to one more place. */
  lemma PadAppend(s: string, c: char, k: nat)
    requires k >= 1
    ensures ZeroPad(s + [c], k) == ZeroPad(s, k - 1) + [c]
  {
    if |s| < k - 1 {
      assert Zeros(k - |s| - 1) + s + [c] == ZeroPad(s + [c], k);
    }
  }

  lemma ZeroOnly(k: nat)
    requires k >= 1
    ensures Pad(0, k) == Zeros(k)
  {
    assert NatToString(0) == ['0'];
    if k > 1 {
      ZerosSplit(k);
    }
  }

  lemma {:induction false} ZerosSplit(k: nat)
    requires k >= 1
    ensures Zeros(k - 1) + ['0'] == Zeros(k)
  {
  }

  /** Fields only accepts canonical, zero-padded texts. */
  lemma FieldsCanonical(s: string, w1: nat, w2: nat, w3: nat, sep: char)
    requires w1 >= 1 && w2 >= 1 && w3 >= 1
    requires Fields(s, w1, w2, w3, sep).Some?
    ensures var (a, b, c) := Fields(s, w1, w2, w3, sep).value;
            s == Pad(a, w1) + [sep] + Pad(b, w2) + [sep] + Pad(c, w3)
  {
    var x, y, z := s[..w1], s[w1 + 1..w1 + w2 + 1], s[w1 + w2 + 2..];
    assert Fields(s, w1, w2, w3, sep).value == (DigitsValue(x), DigitsValue(y), DigitsValue(z));
    PadCanonical(x, w1);
    PadCanonical(y, w2);
    PadCanonical(z, w3);
    SplitThree(s, w1, w2, sep);
  }

  /** A text with sep at positions w1 and w1 + w2 + 1 is its three fields
      joined by sep. */
  lemma SplitThree(s: string, w1: nat, w2: nat, sep: char)
    requires w1 + w2 + 2 <= |s| && s[w1] == sep && s[w1 + w2 + 1] == sep
    ensures s == s[..w1] + [sep] + s[w1 + 1..w1 + w2 + 1] + [sep] + s[w1 + w2 + 2..]
  {
    var r := s[..w1] + [sep] + s[w1 + 1..w1 + w2 + 1] + [sep] + s[w1 + w2 + 2..];
    assert |r| == |s|;
    forall i | 0 <= i < |s| ensures r[i] == s[i] {
      if i < w1 {
      } else if i == w1 {
      } else if i < w1 + w2 + 1 {
        assert r[i] == s[w1 + 1..w1 + w2 + 1][i - w1 - 1];
      } else if i == w1 + w2 + 1 {
      } else {
        assert r[i] == s[w1 + w2 + 2..][i - w1 - w2 - 2];
      }
    }
  }

  // ---------------------------------------------------------------------
  // Timestamps

  datatype DateTime = DateTime(date: Date, hour: int, minute: int, second: int)

  predicate ValidDateTime(t: DateTime) {
    ValidDate(t.date) && 0 <= t.hour < 24 && 0 <= t.minute < 60 && 0 <= t.second < 60
  }

  /** strftime("%Y%m%d%H%M%S"): fourteen digits. */
  function StampText(t: DateTime): (s: string)
    requires ValidDateTime(t)
  {
    Pad(t.date.year, 4) + Pad(t.date.month, 2) + Pad(t.date.day, 2)
      + Pad(t.hour, 2) + Pad(t.minute, 2) + Pad(t.second, 2)
  }

  lemma PadShape(n: nat, w: nat)
    requires w >= 1 && n < Pow10(w)
    ensures |Pad(n, w)| == w && AllDigits(Pad(n, w))
  {
    ZeroPadDigits(n, w);
    ZeroPadExact(n, w);
  }

  lemma TwoDigitPad(n: int)
    requires 0 <= n < 100
    ensures |Pad(n, 2)| == 2 && AllDigits(Pad(n, 2))
  {
    assert Pow10(2) == 100;
    PadShape(n, 2);
  }

  /** A timestamp is fourteen digits. */
  lemma StampTextShape(t: DateTime)
    requires ValidDateTime(t)
    ensures |StampText(t)| == 14 && AllDigits(StampText(t))
  {
    DateFieldsSmall(t.date);
    PadShape(t.date.year, 4);
    TwoDigitPad(t.date.month);
    TwoDigitPad(t.date.day);
    TwoDigitPad(t.hour);
    TwoDigitPad(t.minute);
    TwoDigitPad(t.second);
    DigitsConcat(Pad(t.date.year, 4), Pad(t.date.month, 2));
    DigitsConcat(Pad(t.date.year, 4) + Pad(t.date.month, 2), Pad(t.date.day, 2));
    DigitsConcat(Pad(t.date.year, 4) + Pad(t.date.month, 2) + Pad(t.date.day, 2), Pad(t.hour, 2));
    DigitsConcat(Pad(t.date.year, 4) + Pad(t.date.month, 2) + Pad(t.date.day, 2) + Pad(t.hour, 2),
                 Pad(t.minute, 2));
    DigitsConcat(Pad(t.date.year, 4) + Pad(t.date.month, 2) + Pad(t.date.day, 2) + Pad(t.hour, 2)
                 + Pad(t.minute, 2), Pad(t.second, 2));
  }

  lemma DigitsConcat(a: string, b: string)
    requires AllDigits(a) && AllDigits(b)
    ensures AllDigits(a + b)
  {
    assert forall i :: 0 <= i < |a + b| ==> (a + b)[i] == (if i < |a| then a[i] else b[i - |a|]);
  }
}
