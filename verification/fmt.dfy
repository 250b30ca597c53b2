/** Go's `%f` verb for float64 values, as used in the warning messages: the value rounded to six
    decimals (ties to even), a leading "-" for negative values, no exponent. */
module Fmt {

  function DigitChar(d: nat): (c: char)
    requires d < 10
    ensures '0' <= c <= '9'
  {
    "0123456789"[d]
  }

  function DigitValue(c: char): (d: nat)
    requires '0' <= c <= '9'
    ensures d < 10
  {
    (c as int - '0' as int) as nat
  }

  predicate IsDigits(s: string) {
    forall i :: 0 <= i < |s| ==> '0' <= s[i] <= '9'
  }

  /** The decimal digits of n, most significant first, without leading zeros. */
  function NatToDecimal(n: nat): (s: string)
    ensures 1 <= |s| && IsDigits(s)
    ensures |s| > 1 ==> s[0] != '0'
    decreases n
  {
    if n < 10 then [DigitChar(n)] else NatToDecimal(n / 10) + [DigitChar(n % 10)]
  }

  /** The number a string of decimal digits denotes. */
  function DecimalValue(s: string): nat
    requires IsDigits(s)
  {
    if |s| == 0 then 0 else 10 * DecimalValue(s[..|s| - 1]) + DigitValue(s[|s| - 1])
  }

  /** Reading back the printed digits gives the number printed. */
  lemma {:induction false} DecimalRoundTrip(n: nat)
    ensures DecimalValue(NatToDecimal(n)) == n
    decreases n
  {
    if n >= 10 {
      var s := NatToDecimal(n);
      assert s[..|s| - 1] == NatToDecimal(n / 10);
      DecimalRoundTrip(n / 10);
    }
  }

  /** Ten to the power `k`. */
  function Pow10(k: nat): (p: nat)
    ensures p >= 1
  {
    if k == 0 then 1 else 10 * Pow10(k - 1)
  }

  /** A number below `10^k` prints in at most `k` digits. */
  lemma {:induction false} DecimalLength(n: nat, k: nat)
    requires 1 <= k && n < Pow10(k)
    ensures |NatToDecimal(n)| <= k
    decreases n
  {
    if n >= 10 {
      assert n / 10 < Pow10(k - 1);
      DecimalLength(n / 10, k - 1);
    }
  }

  /** A leading zero does not change the number a digit string denotes. */
  lemma {:induction false} LeadingZeroKeepsValue(s: string)
    requires IsDigits(s)
    ensures IsDigits("0" + s) && DecimalValue("0" + s) == DecimalValue(s)
    decreases |s|
  {
    var t := "0" + s;
    if |s| > 0 {
      assert t[..|t| - 1] == "0" + s[..|s| - 1];
      assert t[|t| - 1] == s[|s| - 1];
      LeadingZeroKeepsValue(s[..|s| - 1]);
    } else {
      assert t[..0] == "";
    }
  }

  /** `k` zero digits. */
  function Zeros(k: nat): (z: string)
    ensures |z| == k && forall i :: 0 <= i < k ==> z[i] == '0'
  {
    seq(k, _ => '0')
  }

  /** Left-pads a digit string with zeros to at least `width` characters. */
  function ZeroPad(s: string, width: nat): (p: string)
    ensures |p| == if |s| < width then width else |s|
    ensures p[|p| - |s|..] == s
    ensures forall i :: 0 <= i < |p| - |s| ==> p[i] == '0'
  {
    if |s| < width then Zeros(width - |s|) + s else s
  }

  /** Leading zeros do not change the number a digit string denotes. */
  lemma {:induction false} ZerosKeepValue(k: nat, s: string)
    requires IsDigits(s)
    ensures IsDigits(Zeros(k) + s) && DecimalValue(Zeros(k) + s) == DecimalValue(s)
  {
    if k == 0 {
      assert Zeros(k) + s == s;
    } else {
      assert Zeros(k) + s == "0" + (Zeros(k - 1) + s);
      ZerosKeepValue(k - 1, s);
      LeadingZeroKeepsValue(Zeros(k - 1) + s);
    }
  }

  /** Zero padding keeps a digit string's value. */
  lemma ZeroPadKeepsValue(s: string, width: nat)
    requires IsDigits(s)
    ensures IsDigits(ZeroPad(s, width)) && DecimalValue(ZeroPad(s, width)) == DecimalValue(s)
  {
    if |s| < width {
      ZerosKeepValue(width - |s|, s);
    }
  }

  /** Rounds a non-negative real to the nearest integer, ties to the even neighbour. */
  function RoundHalfEven(x: real): (n: nat)
    requires x >= 0.0
    ensures (n as real) - 0.5 <= x <= (n as real) + 0.5
  {
    var f := x.Floor;
    var frac := x - f as real;
    if frac > 0.5 then f + 1
    else if frac < 0.5 then f
    else if f % 2 == 0 then f
    else f + 1
  }

  const Scale: nat := 1000000

  /** `fmt.Sprintf("%f", r)`. */
  function Fixed6(r: real): (s: string)
    ensures |s| >= 8 && (r < 0.0 <==> s[0] == '-')
  {
    var n := RoundHalfEven(Magnitude(r) * Scale as real);
    (if r < 0.0 then "-" else "") + NatToDecimal(n / Scale) + "." + ZeroPad(NatToDecimal(n % Scale), 6)
  }

  /** |r|. */
  function Magnitude(r: real): (a: real)
    ensures a >= 0.0
  {
    if r < 0.0 then -r else r
  }

  /** The text for `n` millionths: an optional "-", the integer part, ".", six fraction digits. */
  function FixedText(negative: bool, n: nat): string {
    (if negative then "-" else "") + NatToDecimal(n / Scale) + "." + ZeroPad(NatToDecimal(n % Scale), 6)
  }

  /** A million is ten to the sixth. */
  lemma Pow10SixIsScale()
    ensures Pow10(6) == Scale
  {
    assert Pow10(3) == 1000;
  }

  /** The fraction part of `FixedText` is exactly six digits that read back as the millionths. */
  lemma FractionDigits(m: nat)
    requires m < Scale
    ensures var frac := ZeroPad(NatToDecimal(m), 6);
            |frac| == 6 && IsDigits(frac) && DecimalValue(frac) == m
  {
    Pow10SixIsScale();
    DecimalLength(m, 6);
    DecimalRoundTrip(m);
    ZeroPadKeepsValue(NatToDecimal(m), 6);
  }

  /** `FixedText(negative, n)` is the sign, the digits of `n / Scale`, ".", and exactly six
      digits that read back as `n % Scale`; the two parts together denote `n` millionths. */
  lemma FixedTextReads(negative: bool, n: nat)
    ensures var q, m := n / Scale, n % Scale;
            var frac := ZeroPad(NatToDecimal(m), 6);
            && FixedText(negative, n) == (if negative then "-" else "") + NatToDecimal(q) + "." + frac
            && DecimalValue(NatToDecimal(q)) == q
            && |frac| == 6 && IsDigits(frac) && DecimalValue(frac) == m
            && q * Scale + m == n
  {
    var q, m := n / Scale, n % Scale;
    FractionDigits(m);
    DecimalRoundTrip(q);
  }

  /** The text for a non-negative amount `x` of millionths, rounded: the whole part and the six
      fraction digits together are within one half of `x`. */
  lemma RoundedTextReads(negative: bool, x: real)
    requires x >= 0.0
    ensures var n := RoundHalfEven(x);
            var q, m := n / Scale, n % Scale;
            var frac := ZeroPad(NatToDecimal(m), 6);
            && FixedText(negative, n) == (if negative then "-" else "") + NatToDecimal(q) + "." + frac
            && DecimalValue(NatToDecimal(q)) == q
            && |frac| == 6 && IsDigits(frac) && DecimalValue(frac) == m
            && (q * Scale + m) as real - 0.5 <= x <= (q * Scale + m) as real + 0.5
  {
    FixedTextReads(negative, RoundHalfEven(x));
  }

  /** `Fixed6` is the text for |r| rounded to millionths. */
  lemma Fixed6IsFixedText(r: real)
    ensures Fixed6(r) == FixedText(r < 0.0, RoundHalfEven(Magnitude(r) * Scale as real))
  {
  }

  /** The text of `Fixed6(r)`: "-" exactly when r is negative, the digits of the whole
      millions of the rounded magnitude, ".", and exactly six digits that read back as the
      remaining millionths; whole part and fraction together are within one half of |r|
      counted in millionths. */
  lemma Fixed6Reads(r: real)
    ensures var magnitude := Magnitude(r);
            var n := RoundHalfEven(magnitude * Scale as real);
            var q, m := n / Scale, n % Scale;
            var frac := ZeroPad(NatToDecimal(m), 6);
            && Fixed6(r) == (if r < 0.0 then "-" else "") + NatToDecimal(q) + "." + frac
            && DecimalValue(NatToDecimal(q)) == q
            && |frac| == 6 && IsDigits(frac) && DecimalValue(frac) == m
            && (q * Scale + m) as real - 0.5 <= magnitude * Scale as real <= (q * Scale + m) as real + 0.5
  {
    Fixed6IsFixedText(r);
    RoundedTextReads(r < 0.0, Magnitude(r) * Scale as real);
  }
}
