/**
 * Numbers as the agent sees them: Python's `float(s)` on decimal numerals,
 * `round(x)` (ties to even), `int(x)` on a float (truncation toward zero)
 * and the `f"{x:.2f}"` formatting used in memory texts. Floats are modelled
 * as exact reals.
 */
module Numerals {
  import opened Wrappers
  import opened Text

  function DigitValue(c: char): nat
    requires IsDigit(c)
  {
    c as int - '0' as int
  }

  /** The number a run of decimal digits denotes, read left to right. */
  function DigitsValue(ds: string): nat
    requires AllDigits(ds)
  {
    if ds == [] then 0 else DigitsValue(ds[..|ds| - 1]) * 10 + DigitValue(ds[|ds| - 1])
  }

  function Pow10(n: nat): (r: nat)
    ensures r >= 1
  {
    if n == 0 then 1 else 10 * Pow10(n - 1)
  }

  /** The factor `10^e` an exponent part stands for. */
  function Scale(e: int): (r: real)
    ensures r > 0.0
  {
    if e >= 0 then Pow10(e) as real else 1.0 / Pow10(-e) as real
  }

  /** Length of the longest run of digits at the front of `s`. */
  function DigitRun(s: string): (n: nat)
    ensures n <= |s| && AllDigits(s[..n])
    ensures n < |s| ==> !IsDigit(s[n])
  {
    if s != [] && IsDigit(s[0]) then
      var n := 1 + DigitRun(s[1..]);
      assert forall k :: 1 <= k < n ==> s[..n][k] == s[1..][..n - 1][k - 1];
      n
    else 0
  }

  /** An optional leading sign: whether it is a minus, and what follows it. */
  function SplitSign(s: string): (bool, string) {
    if s != [] && (s[0] == '+' || s[0] == '-') then (s[0] == '-', s[1..]) else (false, s)
  }

  /** The exponent part `e[sign]digits` (or nothing) at the end of a numeral. */
  function ParseExponent(s: string): Option<int> {
    if s == [] then Some(0)
    else if s[0] == 'e' || s[0] == 'E' then
      var (neg, ds) := SplitSign(s[1..]);
      if ds != [] && AllDigits(ds) then
        var v: int := DigitsValue(ds);
        Some(if neg then -v else v)
      else None
    else None
  }

  /** The parts of a numeral `[sign] digits [. digits] [exponent]`. */
  datatype Numeral = Numeral(negative: bool, whole: string, frac: string, tail: string)

  /** Cut a candidate numeral into sign, whole digits, fraction digits and
      whatever follows them (the exponent part, if any). */
  function Scan(s: string): (r: Numeral)
    ensures AllDigits(r.whole) && AllDigits(r.frac)
  {
    var (neg, body) := SplitSign(s);
    var n := DigitRun(body);
    var rest := body[n..];
    if rest != [] && rest[0] == '.' then
      var m := DigitRun(rest[1..]);
      Numeral(neg, body[..n], rest[1..][..m], rest[1..][m..])
    else
      Numeral(neg, body[..n], [], rest)
  }

  /** `Scan` loses nothing: the sign is the one `SplitSign` finds, and the
      digits, the point (when there is a fraction part) and the tail put
      back together give the unsigned text again. */
  lemma ScanRebuilds(s: string)
    ensures Scan(s).negative == SplitSign(s).0
    ensures SplitSign(s).1 == Scan(s).whole + Scan(s).tail
         || SplitSign(s).1 == Scan(s).whole + "." + Scan(s).frac + Scan(s).tail
  {
    var body := SplitSign(s).1;
    var n := DigitRun(body);
    var rest := body[n..];
    if rest != [] && rest[0] == '.' {
      var after := rest[1..];
      var m := DigitRun(after);
      assert Scan(s) == Numeral(SplitSign(s).0, body[..n], after[..m], after[m..]);
      Rejoin(body, n, m);
    } else {
      assert Scan(s) == Numeral(SplitSign(s).0, body[..n], [], rest);
      assert body == body[..n] + rest;
    }
  }

  /** Cutting a text at a point after `n` characters and `m` more. */
  lemma Rejoin(body: string, n: nat, m: nat)
    requires n < |body| && body[n] == '.' && m <= |body| - n - 1
    ensures body == body[..n] + "." + body[n + 1..][..m] + body[n + 1..][m..]
  {
    var after := body[n + 1..];
    assert after == after[..m] + after[m..];
    assert body == body[..n] + [body[n]] + after;
  }

  /** The value of `whole.frac` times `10^e`. */
  function Magnitude(whole: string, frac: string, e: int): real
    requires AllDigits(whole) && AllDigits(frac)
  {
    (DigitsValue(whole) as real + DigitsValue(frac) as real / Pow10(|frac|) as real) * Scale(e)
  }

  /** A numeral with at least one digit before the exponent, e.g. `5`,
      `-5.7`, `.5`, `5.`, `1e3`; anything else is not a number. */
  function ParseNumeral(s: string): Option<real> {
    var n := Scan(s);
    if |n.whole| + |n.frac| == 0 then None
    else
      match ParseExponent(n.tail)
      case None => None
      case Some(e) =>
        var magnitude := Magnitude(n.whole, n.frac, e);
        Some(if n.negative then -magnitude else magnitude)
  }

  /** Python's `float(s)` on a string: surrounding whitespace is ignored. */
  function ParseFloat(s: string): Option<real> {
    ParseNumeral(Strip(s))
  }

  // ------------------------------------------------------------ rounding

  function Abs(x: real): real {
    if x < 0.0 then -x else x
  }

  /** Python's `round(x)`: the nearest integer, ties going to the even one. */
  function RoundHalfEven(x: real): (n: int)
    ensures -0.5 <= x - n as real <= 0.5
    ensures (x - n as real == 0.5 || n as real - x == 0.5) ==> n % 2 == 0
  {
    var f := x.Floor;
    var d := x - f as real;
    if d < 0.5 then f
    else if d > 0.5 then f + 1
    else if f % 2 == 0 then f
    else f + 1
  }

  /** No integer is closer to `x` than `round(x)`. */
  lemma RoundIsNearest(x: real, k: int)
    ensures Abs(x - RoundHalfEven(x) as real) <= Abs(x - k as real)
  {
    var n := RoundHalfEven(x);
    if k < n {
      assert k as real <= n as real - 1.0;
    } else if k > n {
      assert k as real >= n as real + 1.0;
    }
  }

  /** Python's `int(x)` on a float: drop the fractional part, toward zero. */
  function TruncToInt(x: real): (n: int)
    ensures Abs(n as real) <= Abs(x) < Abs(n as real) + 1.0
    ensures x >= 0.0 ==> n >= 0
    ensures x <= 0.0 ==> n <= 0
  {
    if x >= 0.0 then x.Floor else -((-x).Floor)
  }

  /** A float with no fractional part. */
  predicate Whole(x: real) {
    x == x.Floor as real
  }

  lemma TruncWhole(x: real)
    requires Whole(x)
    ensures TruncToInt(x) as real == x
  {
    if x < 0.0 {
      assert (-x).Floor == -(x.Floor);
    }
  }

  // ---------------------------------------------------------- formatting

  /** `v` with the sign `neg` says. */
  function Signed(neg: bool, v: real): real {
    if neg then -v else v
  }

  /** The magnitude of `x` rounded to whole cents. */
  function Cents(x: real): nat {
    var c := RoundHalfEven(Abs(x) * 100.0);
    assert c >= 0;
    c
  }

  /** Python's `f"{x:.2f}"`: sign, whole part, point, two rounded decimals. */
  function FormatFixed2(x: real): string {
    SignedText(x < 0.0, NatToString(Cents(x) / 100) + "." + CentsDigits(Cents(x)))
  }

  // ------------------------------------------------------------- lemmas

  lemma AllDigitsRun(s: string)
    requires AllDigits(s)
    ensures DigitRun(s) == |s|
  {
    if s != [] {
      AllDigitsRun(s[1..]);
    }
  }

  /** A run of digits followed by a non-digit is read up to the non-digit. */
  lemma DigitRunStops(ds: string, rest: string)
    requires AllDigits(ds) && rest != [] && !IsDigit(rest[0])
    ensures DigitRun(ds + rest) == |ds|
  {
    if ds != [] {
      assert (ds + rest)[1..] == ds[1..] + rest;
      DigitRunStops(ds[1..], rest);
    } else {
      assert ds + rest == rest;
    }
  }

  /** Reading back the decimal digits Python prints for `n` gives `n`. */
  lemma {:induction false} NatToStringValue(n: nat)
    ensures DigitsValue(NatToString(n)) == n
  {
    var s := NatToString(n);
    if n >= 10 {
      NatToStringValue(n / 10);
      assert s[..|s| - 1] == NatToString(n / 10);
    }
  }

  /** `float(str(i)) == i` for every integer `i`. */
  lemma ParseFloatIntToString(i: int)
    ensures ParseFloat(IntToString(i)) == Some(i as real)
  {
    var m: nat := if i < 0 then -i else i;
    ParseSignedDigits(i < 0, NatToString(m));
    NatToStringValue(m);
  }

  /** `[-]digits` is read as the value of the digits, with its sign. */
  lemma ParseSignedDigits(neg: bool, digits: string)
    requires AllDigits(digits) && digits != []
    ensures var v := DigitsValue(digits) as real;
            ParseFloat(SignedText(neg, digits)) == Some(if neg then -v else v)
  {
    var s := SignedText(neg, digits);
    assert s[|s| - 1] == digits[|digits| - 1];
    assert Trimmed(s);
    ScanDigits(digits);
    ScanSigned(neg, digits);
    ParseWholeText(s, neg, digits);
  }

  /** A trimmed numeral of whole digits and nothing else is read as their value. */
  lemma ParseWholeText(s: string, neg: bool, digits: string)
    requires Trimmed(s) && AllDigits(digits) && digits != [] && Scan(s) == Numeral(neg, digits, [], [])
    ensures var v := DigitsValue(digits) as real;
            ParseFloat(s) == Some(if neg then -v else v)
  {
    ParseFloatTrimmed(s);
    ParseScannedWhole(s, neg, digits);
  }

  /** A numeral of whole digits and nothing else is read as their value. */
  lemma ParseScannedWhole(s: string, neg: bool, digits: string)
    requires AllDigits(digits) && digits != [] && Scan(s) == Numeral(neg, digits, [], [])
    ensures var v := DigitsValue(digits) as real;
            ParseNumeral(s) == Some(if neg then -v else v)
  {
    ParseScanned(s, neg, digits, []);
    assert Pow10(0) == 1 && Scale(0) == 1.0;
  }

  /** A run of digits alone is all whole part. */
  lemma ScanDigits(ds: string)
    requires AllDigits(ds)
    ensures Scan(ds) == Numeral(false, ds, [], [])
  {
    if ds != [] {
      assert ds[0] != '+' && ds[0] != '-';
    }
    assert SplitSign(ds) == (false, ds);
    AllDigitsRun(ds);
    assert ds[..|ds|] == ds;
  }

  lemma DigitCharValue(d: nat)
    requires d < 10
    ensures DigitValue(DigitChar(d)) == d
  {
  }

  lemma TwoDigitsValue(tens: nat, ones: nat)
    requires tens < 10 && ones < 10
    ensures DigitsValue([DigitChar(tens), DigitChar(ones)]) == tens * 10 + ones
  {
    var frac := [DigitChar(tens), DigitChar(ones)];
    var first := frac[..1];
    assert first == [DigitChar(tens)];
    assert first[..0] == [];
    DigitCharValue(tens);
    DigitCharValue(ones);
    assert DigitsValue(first) == DigitsValue([]) * 10 + DigitValue(DigitChar(tens));
    assert DigitsValue(frac) == DigitsValue(first) * 10 + DigitValue(DigitChar(ones));
  }

  /** The unsigned part `q.f` of a fixed-point numeral splits as expected. */
  lemma ScanFixed(whole: string, frac: string)
    requires AllDigits(whole) && whole != [] && AllDigits(frac)
    ensures Scan(whole + "." + frac) == Numeral(false, whole, frac, [])
  {
    var body := whole + "." + frac;
    assert body[0] == whole[0];
    DigitRunStops(whole, "." + frac);
    assert body[..|whole|] == whole && body[|whole|] == '.' && body[|whole| + 1..] == frac;
    ScanPoint(body, |whole|);
  }

  /** Digits, a point, and digits to the end: whole part, fraction, nothing after. */
  lemma ScanPoint(body: string, n: nat)
    requires body != [] && IsDigit(body[0])
    requires DigitRun(body) == n < |body| && body[n] == '.' && AllDigits(body[n + 1..])
    ensures Scan(body) == Numeral(false, body[..n], body[n + 1..], [])
  {
    assert SplitSign(body) == (false, body);
    var frac := body[n + 1..];
    assert body[n..][1..] == frac;
    AllDigitsRun(frac);
    assert frac[..|frac|] == frac && frac[|frac|..] == [];
  }

  /** A minus sign in front only sets the sign of what is scanned. */
  lemma ScanSigned(neg: bool, body: string)
    requires body != [] && IsDigit(body[0])
    ensures var n := Scan(body);
            Scan(SignedText(neg, body)) == Numeral(neg, n.whole, n.frac, n.tail)
  {
    var s := SignedText(neg, body);
    if neg {
      assert s[1..] == body;
      assert SplitSign(s) == (true, body);
    } else {
      assert s == body;
    }
  }

  lemma ParseFloatTrimmed(s: string)
    requires Trimmed(s)
    ensures ParseFloat(s) == ParseNumeral(s)
  {
    StripTrimmed(s);
  }

  /** A fixed-point numeral `[-]w.f` is read as the magnitude of `w.f`, with its sign. */
  lemma ParseFixedDigits(neg: bool, whole: string, frac: string)
    requires AllDigits(whole) && whole != [] && AllDigits(frac)
    ensures var magnitude := Magnitude(whole, frac, 0);
            ParseFloat(SignedText(neg, whole + "." + frac)) == Some(if neg then -magnitude else magnitude)
  {
    var body := whole + "." + frac;
    var s := SignedText(neg, body);
    assert s[|s| - 1] == body[|body| - 1];
    assert body[|body| - 1] == if frac == [] then '.' else frac[|frac| - 1];
    assert Trimmed(s);
    ParseFloatTrimmed(s);
    ScanFixed(whole, frac);
    assert body[0] == whole[0];
    ScanSigned(neg, body);
    ParseScanned(s, neg, whole, frac);
  }

  /** A numeral with digits and nothing after them is read as its magnitude. */
  lemma ParseScanned(s: string, neg: bool, whole: string, frac: string)
    requires AllDigits(whole) && AllDigits(frac) && |whole| + |frac| > 0
    requires Scan(s) == Numeral(neg, whole, frac, [])
    ensures ParseNumeral(s) == Some(if neg then -Magnitude(whole, frac, 0) else Magnitude(whole, frac, 0))
  {
    assert ParseExponent([]) == Some(0);
  }

  lemma MagnitudeFixed2(q: nat, tens: nat, ones: nat)
    requires tens < 10 && ones < 10
    ensures Magnitude(NatToString(q), [DigitChar(tens), DigitChar(ones)], 0)
            == q as real + (tens * 10 + ones) as real / 100.0
  {
    NatToStringValue(q);
    TwoDigitsValue(tens, ones);
    assert Pow10(2) == 100;
    assert Scale(0) == 1.0;
  }

  /** The two decimals Python prints are read back as the amount rounded to
      cents, which is within half a cent of the amount formatted. */
  lemma FormatFixed2RoundTrip(x: real)
    ensures ParseFloat(FormatFixed2(x)).Some?
    ensures -0.005 <= ParseFloat(FormatFixed2(x)).value - x <= 0.005
  {
    FormatFixed2Value(x);
    CentsNear(x);
  }

  /** `f"{x:.2f}"` is read back as exactly the signed amount of cents. */
  lemma FormatFixed2Value(x: real)
    ensures ParseFloat(FormatFixed2(x)) == Some(Signed(x < 0.0, Cents(x) as real / 100.0))
  {
    ParseCents(x < 0.0, Cents(x), FormatFixed2(x));
  }

  /** The text of a signed amount of cents is read as that many hundredths. */
  lemma ParseCents(neg: bool, cents: nat, s: string)
    requires s == SignedText(neg, NatToString(cents / 100) + "." + CentsDigits(cents))
    ensures ParseFloat(s) == Some(Signed(neg, cents as real / 100.0))
  {
    CentsValue(cents);
    ParseFixedAt(s, neg, NatToString(cents / 100), CentsDigits(cents), Signed(neg, cents as real / 100.0));
  }

  /** The fixed-point numeral `s` is read as its value `v`. */
  lemma ParseFixedAt(s: string, neg: bool, whole: string, frac: string, v: real)
    requires AllDigits(whole) && whole != [] && AllDigits(frac)
    requires s == SignedText(neg, whole + "." + frac)
    requires v == (if neg then -Magnitude(whole, frac, 0) else Magnitude(whole, frac, 0))
    ensures ParseFloat(s) == Some(v)
  {
    ParseFixedDigits(neg, whole, frac);
  }

  /** The two decimal digits of `cents % 100`. */
  function CentsDigits(cents: nat): (r: string)
    ensures AllDigits(r)
  {
    [DigitChar((cents % 100) / 10), DigitChar(cents % 10)]
  }

  /** Reading `q.dd` for `q = cents / 100` and `dd` its cents gives `cents / 100`. */
  lemma CentsValue(cents: nat)
    ensures Magnitude(NatToString(cents / 100), CentsDigits(cents), 0) == cents as real / 100.0
  {
    var r := cents % 100;
    assert r % 10 == cents % 10;
    MagnitudeFixed2(cents / 100, r / 10, r % 10);
    CentsSplit(cents);
  }

  /** The signed amount rounded to cents is within half a cent of `x`. */
  lemma CentsNear(x: real)
    ensures -0.005 <= Signed(x < 0.0, Cents(x) as real / 100.0) - x <= 0.005
  {
    assert -0.5 <= Abs(x) * 100.0 - Cents(x) as real <= 0.5;
  }

  lemma CentsSplit(cents: nat)
    ensures (cents % 100) / 10 * 10 + (cents % 100) % 10 == cents % 100
    ensures (cents / 100) as real + (cents % 100) as real / 100.0 == cents as real / 100.0
  {
  }
}
