/**
 * PHP's view of numbers as text: how an integer or a float is printed when it
 * is interpolated into a string, and how a string is read as a number by the
 * `(float)` cast and by arithmetic.
 */
module Numbers {
  import opened Wrappers

  /** The white space of PHP's numeric-string grammar, which is also PCRE's `\s` class. */
  predicate IsWhite(c: char) {
    c == ' ' || c == '\t' || c == '\n' || c == '\r' || c == '\U{B}' || c == '\U{C}'
  }

  predicate IsDigit(c: char) {
    '0' <= c <= '9'
  }

  predicate AllDigits(s: string) {
    forall k | 0 <= k < |s| :: IsDigit(s[k])
  }

  function Pow10(e: nat): (p: nat)
    ensures p >= 1
  {
    if e == 0 then 1 else 10 * Pow10(e - 1)
  }

  function DigitChar(d: nat): (c: char)
    requires d < 10
    ensures IsDigit(c) && c as int - '0' as int == d
  {
    ('0' as int + d) as char
  }

  /** Decimal digits of n, most significant first, with no leading zero. */
  function NatToStr(n: nat): (s: string)
    ensures |s| >= 1 && AllDigits(s)
    ensures s[0] == '0' <==> n == 0
    ensures n < 10 <==> |s| == 1
    decreases n
  {
    if n < 10 then [DigitChar(n)] else NatToStr(n / 10) + [DigitChar(n % 10)]
  }

  /** The number a run of decimal digits denotes. */
  function DigitsValue(s: string): nat
    requires AllDigits(s)
  {
    if s == [] then 0 else 10 * DigitsValue(s[..|s| - 1]) + (s[|s| - 1] as int - '0' as int)
  }

  lemma {:induction false} NatToStrRoundTrip(n: nat)
    ensures DigitsValue(NatToStr(n)) == n
  {
    if n >= 10 {
      NatToStrRoundTrip(n / 10);
      var s := NatToStr(n);
      assert s[..|s| - 1] == NatToStr(n / 10);
    }
  }

  /** `(string)$i` for a PHP integer. */
  function IntToStr(i: int): (s: string)
    ensures |s| >= 1
    ensures s[0] == '-' <==> i < 0
  {
    if i < 0 then "-" + NatToStr(-i) else NatToStr(i)
  }

  /** A PHP number: an integer, or a float written exactly as m / 10^e. */
  datatype Number = IntNum(i: int) | FloatNum(m: int, e: nat)

  function RealOf(n: Number): real {
    match n
    case IntNum(i) => i as real
    case FloatNum(m, e) => m as real / Pow10(e) as real
  }

  /** Strips the trailing zeros of a decimal fraction. */
  function Normalize(m: int, e: nat): (r: (int, nat))
    ensures r.1 <= e
    ensures r.0 * Pow10(e - r.1) == m
    ensures r.1 > 0 ==> r.0 % 10 != 0
    decreases e
  {
    if e > 0 && m % 10 == 0 then
      var r := Normalize(m / 10, e - 1);
      assert Pow10(e - r.1) == 10 * Pow10(e - 1 - r.1);
      r
    else (m, e)
  }

  /** Left-pads a digit string with zeros to width w. */
  function ZeroPad(s: string, w: nat): (r: string)
    ensures |r| >= w && |r| >= |s|
    decreases w - |s|
  {
    if |s| >= w then s else ZeroPad("0" + s, w)
  }

  /**
   * `(string)$f` for a float m / 10^e: the plain decimal form with the
   * trailing zeros of the fraction dropped, and no point at all when the
   * value is integral (PHP prints 3.0 as "3").
   */
  function FloatToStr(m: int, e: nat): (s: string)
    ensures |s| >= 1
  {
    var r := Normalize(m, e);
    if r.1 == 0 then IntToStr(r.0) else FractionText(r.0, r.1)
  }

  /** The decimal form of m / 10^e with exactly e digits after the point. */
  function FractionText(m: int, e: nat): (s: string)
    ensures |s| >= 1
  {
    var a: nat := if m < 0 then -m else m;
    var sign := if m < 0 then "-" else "";
    sign + NatToStr(Quotient(a, Pow10(e))) + "." + ZeroPad(NatToStr(Remainder(a, Pow10(e))), e)
  }

  function Quotient(a: nat, p: nat): nat
    requires p >= 1
  {
    a / p
  }

  function Remainder(a: nat, p: nat): nat
    requires p >= 1
  {
    a % p
  }

  /** Multiplying by 10^e is multiplying by 10^(e-1) and then by 10. */
  lemma Pow10Step(m: int, e: nat)
    requires e > 0
    ensures m * Pow10(e) == 10 * (m * Pow10(e - 1))
  {
    var p := Pow10(e - 1);
    assert Pow10(e) == 10 * p;
    assert m * (10 * p) == 10 * (m * p);
  }

  lemma {:induction false} NormalizeScaled(m: int, e: nat)
    ensures Normalize(m * Pow10(e), e) == (m, 0)
  {
    if e > 0 {
      var n := m * Pow10(e - 1);
      var x := m * Pow10(e);
      Pow10Step(m, e);
      assert x == 10 * n;
      assert x % 10 == 0 && x / 10 == n;
      assert Normalize(x, e) == Normalize(n, e - 1);
      NormalizeScaled(m, e - 1);
    }
  }

  /** A float whose value is the integer m prints exactly as that integer does. */
  lemma IntegralFloatPrintsAsInt(m: int, e: nat)
    ensures FloatToStr(m * Pow10(e), e) == IntToStr(m)
  {
    NormalizeScaled(m, e);
  }

  /** How `"$n"` prints a number. */
  function NumToStr(n: Number): (s: string)
    ensures |s| >= 1
  {
    match n
    case IntNum(i) => IntToStr(i)
    case FloatNum(m, e) => FloatToStr(m, e)
  }

  /** `$n * 100`: an integer stays an integer, a float stays a float. */
  function Times100(n: Number): (r: Number)
    ensures RealOf(r) == 100.0 * RealOf(n)
    ensures r.IntNum? <==> n.IntNum?
  {
    match n
    case IntNum(i) => IntNum(i * 100)
    case FloatNum(m, e) => FloatNum(m * 100, e)
  }

  // ---------------------------------------------------------------------------
  // Reading a number at the start of a string
  // ---------------------------------------------------------------------------

  function WhiteEnd(s: string, i: nat): (j: nat)
    requires i <= |s|
    ensures i <= j <= |s|
    ensures forall k | i <= k < j :: IsWhite(s[k])
    ensures j < |s| ==> !IsWhite(s[j])
    decreases |s| - i
  {
    if i < |s| && IsWhite(s[i]) then WhiteEnd(s, i + 1) else i
  }

  function DigitsEnd(s: string, i: nat): (j: nat)
    requires i <= |s|
    ensures i <= j <= |s|
    ensures AllDigits(s[i..j])
    ensures j < |s| ==> !IsDigit(s[j])
    decreases |s| - i
  {
    if i < |s| && IsDigit(s[i]) then
      var j := DigitsEnd(s, i + 1);
      assert s[i..j] == [s[i]] + s[i + 1..j];
      j
    else i
  }

  /**
   * The number at the start of s, after optional white space and an optional
   * sign: digits with an optional fraction (at least one digit in all), and
   * the index just past it. An integer when there is no decimal point, a float
   * otherwise. None when s does not start with a number.
   */
  function LeadingNumber(s: string): (r: Option<(Number, nat)>)
    ensures r.Some? ==> r.value.1 <= |s|
  {
    var i0 := WhiteEnd(s, 0);
    var neg := i0 < |s| && s[i0] == '-';
    var i1 := if i0 < |s| && (s[i0] == '-' || s[i0] == '+') then i0 + 1 else i0;
    var i2 := DigitsEnd(s, i1);
    var whole: int := DigitsValue(s[i1..i2]);
    if i2 < |s| && s[i2] == '.' then
      var i3 := DigitsEnd(s, i2 + 1);
      if i2 == i1 && i3 == i2 + 1 then None
      else
        var e := i3 - (i2 + 1);
        var m := whole * Pow10(e) + DigitsValue(s[i2 + 1..i3]);
        Some((FloatNum(if neg then -m else m, e), i3))
    else if i2 == i1 then None
    else
      var v: int := if neg then -whole else whole;
      Some((IntNum(v), i2))
  }

  lemma DigitsEndAll(s: string, i: nat)
    requires i <= |s|
    requires forall k | i <= k < |s| :: IsDigit(s[k])
    ensures DigitsEnd(s, i) == |s|
  {
  }

  /** Every printed integer reads back as itself, with nothing left over. */
  lemma IntToStrRoundTrip(i: int)
    ensures LeadingNumber(IntToStr(i)) == Some((IntNum(i), |IntToStr(i)|))
  {
    var s := IntToStr(i);
    var a: nat := if i < 0 then -i else i;
    var start := if i < 0 then 1 else 0;
    assert s[start..|s|] == NatToStr(a);
    assert !IsWhite(s[0]);
    assert WhiteEnd(s, 0) == 0;
    DigitsEndAll(s, start);
    NatToStrRoundTrip(a);
    assert DigitsValue(s[start..|s|]) == a;
  }
}
