/**
 * The JavaScript number built-ins the two client components rely on, for the
 * values that reach them: integral numbers and NaN. `Math.floor(x / d)`,
 * `Number.prototype.toString()` (decimal, no exponent: every integer here is
 * far below 10^21), `parseInt(s)` without a radix, and `JSON.stringify` of a
 * number.
 */
module JsNumber {
  import opened Json

  /** A JavaScript number that is either an integer or NaN. */
  datatype Number = Finite(value: int) | NaN

  predicate IsDigit(c: char)
  {
    '0' <= c <= '9'
  }

  predicate AllDigits(s: string)
  {
    forall i :: 0 <= i < |s| ==> IsDigit(s[i])
  }

  function DigitChar(d: nat): (c: char)
    requires d < 10
    ensures IsDigit(c) && (c as int) - ('0' as int) == d
  {
    (('0' as int) + d) as char
  }

  function DigitValue(c: char): (d: nat)
    requires IsDigit(c)
    ensures d < 10 && DigitChar(d) == c
  {
    (c as int) - ('0' as int)
  }

  /** The decimal digits of `n`, most significant first, with no leading zero. */
  function NatToString(n: nat): (s: string)
    ensures |s| > 0 && AllDigits(s)
    ensures |s| > 1 ==> s[0] != '0'
    decreases n
  {
    if n < 10 then [DigitChar(n)] else NatToString(n / 10) + [DigitChar(n % 10)]
  }

  /** The number a string of decimal digits denotes. */
  function DigitsValue(s: string): nat
    requires AllDigits(s)
  {
    if s == [] then 0 else DigitsValue(s[..|s| - 1]) * 10 + DigitValue(s[|s| - 1])
  }

  /** `x.toString()` for an integral number or NaN. */
  function ToString(x: Number): (s: string)
    ensures s != ""
    ensures x.Finite? && x.value >= 0 ==> AllDigits(s)
  {
    match x
    case NaN => "NaN"
    case Finite(v) => if v < 0 then "-" + NatToString(-v) else NatToString(v)
  }

  /** A leading zero in a number's digits only happens for zero itself. */
  lemma NatToStringLeadingDigit(n: nat)
    ensures NatToString(n)[0] == '0' <==> n == 0
    decreases n
  {
    if n >= 10 {
      NatToStringLeadingDigit(n / 10);
      assert NatToString(n)[0] == NatToString(n / 10)[0];
    }
  }

  /** The longest prefix of `s` made of decimal digits. */
  function DigitPrefix(s: string): (p: string)
    ensures |p| <= |s| && p == s[..|p|] && AllDigits(p)
    ensures |p| < |s| ==> !IsDigit(s[|p|])
  {
    if s != [] && IsDigit(s[0]) then [s[0]] + DigitPrefix(s[1..]) else []
  }

  predicate IsLeadingSpace(c: char)
  {
    c == ' ' || c == '\t' || c == '\n' || c == '\r'
  }

  function TrimStart(s: string): (t: string)
    ensures |t| <= |s| && t == s[|s| - |t|..]
    ensures t != [] ==> !IsLeadingSpace(t[0])
  {
    if s != [] && IsLeadingSpace(s[0]) then TrimStart(s[1..]) else s
  }

  /**
   * `parseInt(s)` with no radix: skip leading white space, read an optional
   * sign, then as many decimal digits as follow; no digit at all gives NaN.
   */
  function ParseInt(s: string): Number
  {
    var t := TrimStart(s);
    var negative := t != [] && t[0] == '-';
    var body := if t != [] && (t[0] == '-' || t[0] == '+') then t[1..] else t;
    var digits := DigitPrefix(body);
    if digits == [] then NaN
    else if negative then Finite(-(DigitsValue(digits) as int))
    else Finite(DigitsValue(digits))
  }

  /** `Math.floor(x / d)` for a positive integer divisor. */
  function FloorDiv(x: Number, d: nat): (r: Number)
    requires d > 0
    ensures r.NaN? <==> x.NaN?
    ensures r.Finite? ==> r.value * d <= x.value < r.value * d + d
  {
    match x
    case NaN => NaN
    case Finite(v) => Finite(v / d)
  }

  /** `JSON.stringify` writes a finite number as itself and NaN as `null`. */
  function ToJson(x: Number): (j: Json)
    ensures j.JNull? <==> x.NaN?
    ensures x.Finite? ==> j == JNumber(x.value)
  {
    match x
    case NaN => JNull
    case Finite(v) => JNumber(v)
  }

  /** Digits followed by anything that is not a digit are read back as themselves. */
  lemma {:induction false} DigitPrefixOfDigits(ds: string, tail: string)
    requires AllDigits(ds)
    requires tail == [] || !IsDigit(tail[0])
    ensures DigitPrefix(ds + tail) == ds
  {
    if ds == [] {
      assert ds + tail == tail;
    } else {
      assert (ds + tail)[1..] == ds[1..] + tail;
      DigitPrefixOfDigits(ds[1..], tail);
    }
  }

  /** Reading back the digits `NatToString` wrote gives the number. */
  lemma {:induction false} DigitsValueOfNatToString(n: nat)
    ensures DigitsValue(NatToString(n)) == n
    decreases n
  {
    if n >= 10 {
      var s := NatToString(n);
      assert s[..|s| - 1] == NatToString(n / 10);
      DigitsValueOfNatToString(n / 10);
    }
  }

  /** A string of digits is read by `parseInt` as the number it denotes. */
  lemma ParseIntOfDigits(digits: string)
    requires digits != [] && AllDigits(digits)
    ensures ParseInt(digits) == Finite(DigitsValue(digits))
  {
    assert TrimStart(digits) == digits;
    DigitPrefixOfDigits(digits, []);
    assert digits + [] == digits;
  }

  /** A minus sign before a string of digits negates it. */
  lemma ParseIntOfNegated(digits: string)
    requires digits != [] && AllDigits(digits)
    ensures ParseInt("-" + digits) == Finite(-(DigitsValue(digits) as int))
  {
    var s := "-" + digits;
    assert s[0] == '-' && !IsLeadingSpace(s[0]);
    var t := TrimStart(s);
    assert t == s;
    assert t[0] == '-' && t[1..] == digits;
    DigitPrefixOfDigits(digits, []);
    assert digits + [] == digits;
    assert DigitPrefix(t[1..]) == digits;
  }

  /** `parseInt(String(t)) == t` for every integer `t`. */
  lemma ParseIntOfToString(t: int)
    ensures ParseInt(ToString(Finite(t))) == Finite(t)
  {
    if t < 0 {
      DigitsValueOfNatToString(-t);
      ParseIntOfNegated(NatToString(-t));
    } else {
      DigitsValueOfNatToString(t);
      ParseIntOfDigits(NatToString(t));
    }
  }

  /** `parseInt(String(NaN))` is NaN again. */
  lemma ParseIntOfNaN()
    ensures ParseInt(ToString(NaN)) == NaN
  {
    assert TrimStart("NaN") == "NaN";
    assert DigitPrefix("NaN") == [];
  }

  /** Different integers have different decimal strings. */
  lemma ToStringInjective(a: int, b: int)
    requires ToString(Finite(a)) == ToString(Finite(b))
    ensures a == b
  {
    ParseIntOfToString(a);
    ParseIntOfToString(b);
  }
}
