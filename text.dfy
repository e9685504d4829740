/** Strings as sequences of characters: the handful of Python string and
    number conversions the application relies on (str(n), int(s), float(s),
    str.strip, str.replace, str.split, `sub in s`, zero padding). */
module Text {
  import opened Wrappers

  // ---------------------------------------------------------------------
  // Characters and digits

  predicate IsDigit(c: char) {
    '0' <= c <= '9'
  }

  predicate AllDigits(s: string) {
    forall i :: 0 <= i < |s| ==> IsDigit(s[i])
  }

  /** The blanks str.strip() removes and str.isspace() accepts: \t to \r,
      the separators U+001C to U+001F, the space, U+0085, the no-break
      space U+00A0, U+1680, the spaces U+2000 to U+200A, the line and
      paragraph separators U+2028 and U+2029, U+202F, U+205F and the
      ideographic space U+3000. */
  predicate IsSpace(c: char) {
    var n := c as int;
    (9 <= n <= 13) || (0x1C <= n <= 0x20) || n == 0x85 || n == 0xA0 || n == 0x1680 ||
    (0x2000 <= n <= 0x200A) || n == 0x2028 || n == 0x2029 || n == 0x202F || n == 0x205F || n == 0x3000
  }

  function DigitChar(d: nat): (c: char)
    requires d < 10
    ensures IsDigit(c)
  {
    ('0' as int + d) as char
  }

  function DigitValue(c: char): (d: nat)
    requires IsDigit(c)
    ensures d < 10
  {
    c as int - '0' as int
  }

  function Pow10(n: nat): (p: nat)
    ensures p >= 1
  {
    if n == 0 then 1 else 10 * Pow10(n - 1)
  }

  // ---------------------------------------------------------------------
  // Natural numbers as digit strings

  /** The decimal digits of n without leading zeros, as Python's str(n). */
  function NatToString(n: nat): (s: string)
    ensures |s| >= 1 && AllDigits(s)
    decreases n
  {
    if n < 10 then [DigitChar(n)] else NatToString(n / 10) + [DigitChar(n % 10)]
  }

  /** The value of a string of decimal digits; the empty string has value 0. */
  function DigitsValue(s: string): nat
    requires AllDigits(s)
    decreases |s|
  {
    if |s| == 0 then 0 else DigitsValue(s[..|s| - 1]) * 10 + DigitValue(s[|s| - 1])
  }

  /** Reading back the digits of n gives n. */
  lemma {:induction false} NatToStringValue(n: nat)
    ensures DigitsValue(NatToString(n)) == n
    decreases n
  {
    if n >= 10 {
      var s := NatToString(n);
      assert s[..|s| - 1] == NatToString(n / 10);
      NatToStringValue(n / 10);
    }
  }

  /** A number below 10^k has at most k digits. */
  lemma {:induction false} NatToStringLength(n: nat, k: nat)
    requires 1 <= k && n < Pow10(k)
    ensures |NatToString(n)| <= k
    decreases n
  {
    if n >= 10 {
      if k == 1 {
        assert false;
      }
      NatToStringLength(n / 10, k - 1);
    }
  }

  lemma {:induction false} DigitsValueAppend(a: string, b: string)
    requires AllDigits(a) && AllDigits(b)
    ensures AllDigits(a + b)
    ensures DigitsValue(a + b) == DigitsValue(a) * Pow10(|b|) + DigitsValue(b)
    decreases |b|
  {
    assert AllDigits(a + b);
    if |b| > 0 {
      var ab := a + b;
      var b' := b[..|b| - 1];
      var c := b[|b| - 1];
      assert ab[..|ab| - 1] == a + b' && ab[|ab| - 1] == c;
      DigitsValueAppend(a, b');
      ShiftDigit(DigitsValue(a), Pow10(|b'|), DigitsValue(b'), DigitValue(c));
    } else {
      assert a + b == a;
    }
  }

  /** One more digit on the right of a + b shifts both parts by ten. */
  lemma ShiftDigit(x: int, p: int, y: int, d: int)
    ensures (x * p + y) * 10 + d == x * (10 * p) + (y * 10 + d)
  {
  }

  /** k digits are worth less than 10^k. */
  lemma {:induction false} DigitsValueBound(s: string)
    requires AllDigits(s)
    ensures DigitsValue(s) < Pow10(|s|)
    decreases |s|
  {
    if |s| > 0 {
      DigitsValueBound(s[..|s| - 1]);
    }
  }

  lemma {:induction false} Pow10Mono(a: nat, b: nat)
    requires a <= b
    ensures Pow10(a) <= Pow10(b)
  {
    if a < b {
      Pow10Mono(a, b - 1);
    }
  }

  /** Digits worth at least 10^k are more than k of them. */
  lemma DigitsLength(s: string, k: nat)
    requires AllDigits(s) && DigitsValue(s) >= Pow10(k)
    ensures |s| > k
  {
    DigitsValueBound(s);
    if |s| <= k {
      Pow10Mono(|s|, k);
    }
  }

  function Zeros(k: nat): (z: string)
    ensures |z| == k && AllDigits(z)
  {
    if k == 0 then [] else Zeros(k - 1) + ['0']
  }

  lemma {:induction false} ZerosValue(k: nat)
    ensures DigitsValue(Zeros(k)) == 0
  {
    if k > 0 {
      assert Zeros(k)[..k - 1] == Zeros(k - 1);
      ZerosValue(k - 1);
    }
  }

  /** Left-pads s with '0' up to the given width, as the `0w` format flag. */
  function ZeroPad(s: string, width: nat): (r: string)
  {
    if |s| >= width then s else Zeros(width - |s|) + s
  }

  /** Zero padding keeps the value and reaches the width. */
  lemma ZeroPadDigits(n: nat, width: nat)
    ensures AllDigits(ZeroPad(NatToString(n), width))
    ensures |ZeroPad(NatToString(n), width)| >= width
    ensures DigitsValue(ZeroPad(NatToString(n), width)) == n
  {
    var s := NatToString(n);
    NatToStringValue(n);
    if |s| < width {
      var z := Zeros(width - |s|);
      DigitsValueAppend(z, s);
      ZerosValue(width - |s|);
      assert ZeroPad(s, width) == z + s;
      ZeroTimes(DigitsValue(z), Pow10(|s|));
    }
  }

  lemma ZeroTimes(a: int, b: int)
    requires a == 0
    ensures a * b == 0
  {
  }

  /** A number below 10^width padded to width has exactly width digits. */
  lemma ZeroPadExact(n: nat, width: nat)
    requires width >= 1 && n < Pow10(width)
    ensures |ZeroPad(NatToString(n), width)| == width
  {
    NatToStringLength(n, width);
  }

  /** str(i) for any integer i. */
  function IntToString(i: int): (s: string)
    ensures |s| >= 1
  {
    if i < 0 then "-" + NatToString(-i) else NatToString(i)
  }

  // ---------------------------------------------------------------------
  // str.strip

  function TrimStart(s: string): string
    decreases |s|
  {
    if |s| > 0 && IsSpace(s[0]) then TrimStart(s[1..]) else s
  }

  function TrimEnd(s: string): string
    decreases |s|
  {
    if |s| > 0 && IsSpace(s[|s| - 1]) then TrimEnd(s[..|s| - 1]) else s
  }

  /** Python's str.strip() without arguments. */
  function Strip(s: string): string {
    TrimEnd(TrimStart(s))
  }

  predicate NoSpaces(s: string) {
    forall i :: 0 <= i < |s| ==> !IsSpace(s[i])
  }

  /** What TrimStart leaves does not start with a blank. */
  lemma {:induction false} TrimStartFirst(s: string)
    ensures TrimStart(s) == [] || !IsSpace(TrimStart(s)[0])
    decreases |s|
  {
    if |s| > 0 && IsSpace(s[0]) {
      TrimStartFirst(s[1..]);
    }
  }

  /** What TrimEnd leaves is a prefix of s that does not end with a blank. */
  lemma {:induction false} TrimEndPrefix(s: string)
    ensures |TrimEnd(s)| <= |s| && TrimEnd(s) == s[..|TrimEnd(s)|]
    ensures TrimEnd(s) == [] || !IsSpace(TrimEnd(s)[|TrimEnd(s)| - 1])
    decreases |s|
  {
    if |s| > 0 && IsSpace(s[|s| - 1]) {
      TrimEndPrefix(s[..|s| - 1]);
    }
  }

  /** Stripping twice is stripping once. */
  lemma StripIdempotent(s: string)
    ensures Strip(Strip(s)) == Strip(s)
  {
    var u := TrimStart(s);
    TrimStartFirst(s);
    TrimEndPrefix(u);
    var t := TrimEnd(u);
    if |t| > 0 {
      assert t[0] == u[0];
      StripUnchanged(t);
    }
  }

  /** Stripping leading blanks off a blank-free text gives the text back. */
  lemma {:induction false} StripBlanksBefore(k: nat, t: string)
    requires NoSpaces(t)
    ensures Strip(Blanks(k) + t) == t
    decreases k
  {
    if k > 0 {
      assert (Blanks(k) + t)[1..] == Blanks(k - 1) + t;
      StripBlanksBefore(k - 1, t);
    } else {
      assert Blanks(0) + t == t;
      if |t| > 0 {
        assert TrimStart(t) == t;
        assert !IsSpace(t[|t| - 1]);
      }
    }
  }

  function Blanks(k: nat): (b: string)
    ensures |b| == k
  {
    if k == 0 then [] else [' '] + Blanks(k - 1)
  }

  // ---------------------------------------------------------------------
  // Searching, str.replace and str.split

  /** The first position at which sub occurs in s (`s.find(sub)`, when not -1). */
  function IndexOf(s: string, sub: string): (r: Option<nat>)
    ensures r.Some? ==> r.value + |sub| <= |s| && s[r.value..r.value + |sub|] == sub
    decreases |s|
  {
    if |s| < |sub| then None
    else if s[..|sub|] == sub then Some(0)
    else
      match IndexOf(s[1..], sub)
      case None => None
      case Some(i) =>
        assert s[i + 1..i + 1 + |sub|] == s[1..][i..i + |sub|];
        Some(i + 1)
  }

  /** Python's `sub in s`. */
  predicate Contains(s: string, sub: string) {
    IndexOf(s, sub).Some?
  }

  /** Python's s.replace(pat, rep) for a non-empty pattern: every non-overlapping
      occurrence of pat, scanning left to right, becomes rep. */
  function Replace(s: string, pat: string, rep: string): string
    requires |pat| > 0
    decreases |s|
  {
    if |s| < |pat| then s
    else if s[..|pat|] == pat then rep + Replace(s[|pat|..], pat, rep)
    else [s[0]] + Replace(s[1..], pat, rep)
  }

  /** A text that does not contain the first character of pat is left as is. */
  lemma {:induction false} ReplaceAbsent(s: string, pat: string, rep: string)
    requires |pat| > 0
    requires forall i :: 0 <= i < |s| ==> s[i] != pat[0]
    ensures Replace(s, pat, rep) == s
    decreases |s|
  {
    if |s| >= |pat| {
      assert s[..|pat|][0] != pat[0];
      ReplaceAbsent(s[1..], pat, rep);
      assert [s[0]] + s[1..] == s;
    }
  }

  lemma ReplaceAtFront(pat: string, s: string, rep: string)
    requires |pat| > 0
    ensures Replace(pat + s, pat, rep) == rep + Replace(s, pat, rep)
  {
    assert (pat + s)[..|pat|] == pat;
    assert (pat + s)[|pat|..] == s;
  }

  /** Replacing a single character distributes over concatenation. */
  lemma {:induction false} ReplaceCharConcat(a: string, b: string, c: char, rep: string)
    ensures Replace(a + b, [c], rep) == Replace(a, [c], rep) + Replace(b, [c], rep)
    decreases |a|
  {
    if |a| > 0 {
      assert (a + b)[1..] == a[1..] + b;
      assert (a + b)[..1] == a[..1];
      ReplaceCharConcat(a[1..], b, c, rep);
    } else {
      assert a + b == b;
    }
  }

  /** Python's s.split(sep) for a non-empty sep. */
  function Split(s: string, sep: string): (parts: seq<string>)
    requires |sep| > 0
    ensures |parts| >= 1
    decreases |s|
  {
    match IndexOf(s, sep)
    case None => [s]
    case Some(i) => [s[..i]] + Split(s[i + |sep|..], sep)
  }

  /** The part of s before the first occurrence of sep, as `s.split(sep)[0]`. */
  function Before(s: string, sep: string): (r: string)
    requires |sep| > 0
    ensures r == Split(s, sep)[0]
  {
    match IndexOf(s, sep)
    case None => s
    case Some(i) => s[..i]
  }

  lemma {:induction false} NoCharIndex(s: string, c: char)
    requires forall i :: 0 <= i < |s| ==> s[i] != c
    ensures IndexOf(s, [c]).None?
    decreases |s|
  {
    if |s| >= 1 {
      assert s[..1][0] == s[0] != c;
      NoCharIndex(s[1..], c);
    }
  }

  lemma {:induction false} CharIndex(a: string, c: char, b: string)
    requires forall i :: 0 <= i < |a| ==> a[i] != c
    ensures IndexOf(a + [c] + b, [c]) == Some(|a|)
    decreases |a|
  {
    var s := a + [c] + b;
    if |a| == 0 {
      assert s[..1] == [c];
    } else {
      assert s[..1][0] == a[0] != c;
      assert s[1..] == a[1..] + [c] + b;
      CharIndex(a[1..], c, b);
    }
  }

  /** Splitting a text that holds sep exactly once gives the two sides. */
  lemma SplitAtChar(a: string, c: char, b: string)
    requires forall i :: 0 <= i < |a| ==> a[i] != c
    requires forall i :: 0 <= i < |b| ==> b[i] != c
    ensures Split(a + [c] + b, [c]) == [a, b]
  {
    var s := a + [c] + b;
    CharIndex(a, c, b);
    assert s[..|a|] == a;
    assert s[|a| + 1..] == b;
    NoCharIndex(b, c);
  }

  lemma SplitNoChar(s: string, c: char)
    requires forall i :: 0 <= i < |s| ==> s[i] != c
    ensures Split(s, [c]) == [s]
  {
    NoCharIndex(s, c);
  }

  /** A separator whose first character does not occur before it is
      found right there. */
  lemma {:induction false} SepIndex(a: string, sep: string, b: string)
    requires |sep| > 0
    requires forall i :: 0 <= i < |a| ==> a[i] != sep[0]
    ensures IndexOf(a + sep + b, sep) == Some(|a|)
    decreases |a|
  {
    var s := a + sep + b;
    if |a| == 0 {
      assert s[..|sep|] == sep;
    } else {
      assert s[..|sep|][0] == a[0] != sep[0];
      assert s[1..] == a[1..] + sep + b;
      SepIndex(a[1..], sep, b);
    }
  }

  /** What `s.split(sep)[0]` gives for such a text. */
  lemma BeforeSep(a: string, sep: string, b: string)
    requires |sep| > 0
    requires forall i :: 0 <= i < |a| ==> a[i] != sep[0]
    ensures Before(a + sep + b, sep) == a
  {
    SepIndex(a, sep, b);
    assert (a + sep + b)[..|a|] == a;
  }

  // ---------------------------------------------------------------------
  // int(s) and float(s)

  /** Python's int(s) on a string: blanks around, an optional sign, and at
      least one decimal digit; anything else raises ValueError (None). */
  function ParseInt(s: string): (r: Option<int>)
  {
    var t := Strip(s);
    if |t| >= 2 && (t[0] == '-' || t[0] == '+') && AllDigits(t[1..]) then
      Some(if t[0] == '-' then -(DigitsValue(t[1..]) as int) else DigitsValue(t[1..]))
    else if |t| >= 1 && AllDigits(t) then
      Some(DigitsValue(t))
    else
      None
  }

  /** A text with no blank at either end is its own strip. */
  lemma StripUnchanged(t: string)
    requires |t| >= 1 && !IsSpace(t[0]) && !IsSpace(t[|t| - 1])
    ensures Strip(t) == t
  {
    assert TrimStart(t) == t;
  }

  /** int(str(i)) == i. */
  lemma ParseIntOfString(i: int)
    ensures ParseInt(IntToString(i)) == Some(i)
  {
    var s := IntToString(i);
    if i < 0 {
      var d := NatToString(-i);
      assert IsDigit(d[|d| - 1]);
      assert s[|s| - 1] == d[|d| - 1];
      StripUnchanged(s);
      assert s[1..] == d;
      NatToStringValue(-i);
    } else {
      assert IsDigit(s[0]) && IsDigit(s[|s| - 1]);
      StripUnchanged(s);
      NatToStringValue(i);
    }
  }

  /** The number written with integer part ip and the k fractional digits of fd. */
  function Decimal(ip: nat, fd: nat, k: nat): real {
    ip as real + fd as real / Pow10(k) as real
  }

  /** The value of an unsigned decimal numeral: digits, optionally one '.'
      followed by digits, with at least one digit in all. */
  function UnsignedDecimal(t: string): Option<real>
  {
    match IndexOf(t, ".")
    case None =>
      if |t| >= 1 && AllDigits(t) then Some(DigitsValue(t) as real) else None
    case Some(i) =>
      var a := t[..i];
      var b := t[i + 1..];
      if AllDigits(a) && AllDigits(b) && |a| + |b| >= 1 then
        Some(Decimal(DigitsValue(a), DigitsValue(b), |b|))
      else None
  }

  /** Python's float(s) on plain decimal numerals (no exponent, inf or nan),
      read as the exact decimal value. */
  function ParseDecimal(s: string): Option<real>
  {
    var t := Strip(s);
    if |t| >= 1 && (t[0] == '-' || t[0] == '+') then
      match UnsignedDecimal(t[1..])
      case None => None
      case Some(v) => Some(if t[0] == '-' then -v else v)
    else UnsignedDecimal(t)
  }

  /** Reading back `q.f` gives q + f / 10^|f|. */
  lemma UnsignedDecimalOf(q: nat, f: string)
    requires AllDigits(f)
    ensures UnsignedDecimal(NatToString(q) + "." + f)
         == Some(Decimal(q, DigitsValue(f), |f|))
  {
    var a := NatToString(q);
    NatToStringValue(q);
    SplitDecimal(a, f);
  }

  lemma SplitDecimal(a: string, f: string)
    requires AllDigits(a) && |a| >= 1 && AllDigits(f)
    ensures UnsignedDecimal(a + "." + f)
         == Some(Decimal(DigitsValue(a), DigitsValue(f), |f|))
  {
    var t := a + "." + f;
    forall i | 0 <= i < |a| ensures a[i] != '.' {
      assert IsDigit(a[i]);
    }
    CharIndex(a, '.', f);
    assert t[..|a|] == a;
    assert t[|a| + 1..] == f;
  }
}
