/**
 * The two pieces of the Java platform whose results the client puts on the
 * wire: `Integer.toString` (page offsets) and `String.hashCode` (client hash
 * codes), with Java's 32-bit and 64-bit integer ranges.
 */
module JavaLang {
  import opened Wrappers

  /** Java `int`. */
  newtype int32 = x: int | -0x8000_0000 <= x < 0x8000_0000

  /** Java `long`. */
  newtype int64 = x: int | -0x8000_0000_0000_0000 <= x < 0x8000_0000_0000_0000

  predicate IsDigit(c: char) {
    '0' <= c <= '9'
  }

  predicate AllDigits(s: string) {
    forall i :: 0 <= i < |s| ==> IsDigit(s[i])
  }

  function DigitValue(c: char): (d: nat)
    requires IsDigit(c)
    ensures d < 10
  {
    (c as int) - ('0' as int)
  }

  function DigitChar(d: nat): (c: char)
    requires d < 10
    ensures IsDigit(c) && DigitValue(c) == d
  {
    ((('0' as int) + d) as char)
  }

  /** The decimal digits of `n`, most significant first, with no leading zero. */
  function NaturalToString(n: nat): (s: string)
    ensures |s| >= 1 && AllDigits(s)
    ensures s[0] == '0' ==> n == 0 && |s| == 1
    decreases n
  {
    if n < 10 then [DigitChar(n)] else NaturalToString(n / 10) + [DigitChar(n % 10)]
  }

  /** `Integer.toString(n)`: a minus sign for negative values, then the digits of |n|. */
  function IntegerToString(n: int32): (s: string)
    ensures |s| >= 1
    ensures s[0] == '-' <==> n < 0
    ensures n >= 0 ==> AllDigits(s)
    ensures n < 0 ==> |s| >= 2 && AllDigits(s[1..]) && s[1] != '0'
    ensures s[0] == '0' ==> n == 0 && s == "0"
  {
    if n < 0 then "-" + NaturalToString(-(n as int)) else NaturalToString(n as int)
  }

  /** The number a string of decimal digits denotes. */
  function DigitsValue(s: string): (v: nat)
    requires AllDigits(s)
  {
    if s == [] then 0 else DigitsValue(s[..|s| - 1]) * 10 + DigitValue(s[|s| - 1])
  }

  /** Reads an optionally signed decimal numeral; `None` for anything else. */
  function ParseDecimal(s: string): (n: Option<int>) {
    if |s| >= 2 && s[0] == '-' && AllDigits(s[1..]) then Some(-(DigitsValue(s[1..]) as int))
    else if |s| >= 1 && AllDigits(s) then Some(DigitsValue(s) as int)
    else None
  }

  lemma {:induction false} NaturalToStringValue(n: nat)
    ensures DigitsValue(NaturalToString(n)) == n
    decreases n
  {
    if n >= 10 {
      var s := NaturalToString(n);
      assert s[..|s| - 1] == NaturalToString(n / 10);
      NaturalToStringValue(n / 10);
    }
  }

  /** Reading back what `Integer.toString` wrote gives the original number. */
  lemma IntegerToStringRoundTrip(n: int32)
    ensures ParseDecimal(IntegerToString(n)) == Some(n as int)
  {
    var s := IntegerToString(n);
    if n < 0 {
      var digits := NaturalToString(-(n as int));
      assert s[1..] == digits;
      NaturalToStringValue(-(n as int));
      assert ParseDecimal(s) == Some(-(DigitsValue(digits) as int));
    } else {
      var digits := NaturalToString(n as int);
      assert s == digits;
      NaturalToStringValue(n as int);
      assert IsDigit(s[0]);
      assert ParseDecimal(s) == Some(DigitsValue(digits) as int);
    }
  }

  /** Distinct numbers are written as distinct strings. */
  lemma IntegerToStringInjective(a: int32, b: int32)
    ensures IntegerToString(a) == IntegerToString(b) ==> a == b
  {
    IntegerToStringRoundTrip(a);
    IntegerToStringRoundTrip(b);
  }

  /** Reduction of an unbounded integer to Java `int` arithmetic (two's complement wrap-around). */
  function Wrap32(x: int): (r: int32)
    ensures (r as int - x) % 0x1_0000_0000 == 0
  {
    (((x + 0x8000_0000) % 0x1_0000_0000) - 0x8000_0000) as int32
  }

  /** Two integers that differ by a multiple of 2^32 wrap to the same `int`. */
  lemma Wrap32Congruent(a: int, b: int, q: int)
    requires a == b + 0x1_0000_0000 * q
    ensures Wrap32(a) == Wrap32(b)
  {
  }

  function Pow31(k: nat): (p: nat)
    ensures p >= 1
  {
    if k == 0 then 1 else 31 * Pow31(k - 1)
  }

  /** The value `String.hashCode` is documented to be, before reduction to `int`: the sum of s[i] * 31^(n-1-i). */
  function HashPolynomial(s: string): (v: int)
    ensures s == [] ==> v == 0
  {
    if s == [] then 0 else (s[0] as int) * Pow31(|s| - 1) + HashPolynomial(s[1..])
  }

  /** Appending a character multiplies the sum by 31 and adds the character: Horner's rule. */
  lemma {:induction false} HashPolynomialSnoc(s: string, c: char)
    ensures HashPolynomial(s + [c]) == 31 * HashPolynomial(s) + (c as int)
    decreases |s|
  {
    var t := s + [c];
    if s == [] {
      assert t == [c];
      assert HashPolynomial(t) == (c as int) * Pow31(0) + HashPolynomial([]);
    } else {
      assert t[0] == s[0] && t[1..] == s[1..] + [c];
      HashPolynomialSnoc(s[1..], c);
      var w := Pow31(|s| - 1);
      assert Pow31(|t| - 1) == 31 * w;
      assert (s[0] as int) * (31 * w) == 31 * ((s[0] as int) * w);
      assert HashPolynomial(t) == (s[0] as int) * (31 * w) + 31 * HashPolynomial(s[1..]) + (c as int);
    }
  }

  /**
   * `String.hashCode`: h = 31 * h + c over the characters, in `int` arithmetic.
   * Characters are taken as single code units. Wrapping at every step gives
   * the documented sum reduced once to `int`.
   */
  function StringHashCode(s: string): (h: int32)
    ensures h == Wrap32(HashPolynomial(s))
  {
    if s == [] then 0
    else
      var init, c := s[..|s| - 1], s[|s| - 1];
      var prev := StringHashCode(init);
      HashPolynomialSnoc(init, c);
      assert init + [c] == s;
      var q := ((prev as int) - HashPolynomial(init)) / 0x1_0000_0000;
      assert (prev as int) - HashPolynomial(init) == 0x1_0000_0000 * q;
      Wrap32Congruent(31 * (prev as int) + (c as int), HashPolynomial(s), 31 * q);
      Wrap32(31 * (prev as int) + (c as int))
  }
}
