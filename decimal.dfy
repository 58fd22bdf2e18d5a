/** Java's signed 64-bit `long` in decimal: `Long.parseLong` (the radix-10
    parser with an optional sign and an overflow check) and `String.valueOf`
    (its canonical printer), with the round trip between them. */
module Decimal {
  import opened Wrappers
  import opened Errors

  const LONG_MIN: int := -0x8000_0000_0000_0000
  const LONG_MAX: int := 0x7fff_ffff_ffff_ffff

  /** The values of a Java `long`. */
  type Long = x: int | -0x8000_0000_0000_0000 <= x <= 0x7fff_ffff_ffff_ffff

  predicate IsDigit(c: char) {
    '0' <= c <= '9'
  }

  predicate IsDigits(s: string) {
    forall i :: 0 <= i < |s| ==> IsDigit(s[i])
  }

  function DigitValue(c: char): (d: nat)
    requires IsDigit(c)
    ensures d < 10
  {
    c as int - '0' as int
  }

  function DigitChar(d: nat): (c: char)
    requires d < 10
    ensures IsDigit(c) && DigitValue(c) == d
  {
    ('0' as int + d) as char
  }

  /** The number denoted by a string of decimal digits, most significant first. */
  function DigitsValue(s: string): nat
    requires IsDigits(s)
  {
    if s == [] then 0 else 10 * DigitsValue(s[..|s| - 1]) + DigitValue(s[|s| - 1])
  }

  /** The shortest digit string of `n`: never empty, and with no leading zero
      unless `n` is zero itself. */
  function NatToDigits(n: nat): (s: string)
    ensures |s| > 0 && IsDigits(s)
    ensures (s[0] == '0') == (n == 0)
  {
    if n < 10 then [DigitChar(n)] else NatToDigits(n / 10) + [DigitChar(n % 10)]
  }

  /** `String.valueOf(n)`: a minus sign for a negative number, then the digits
      of its magnitude. */
  function DecimalString(n: int): (s: string)
    ensures |s| > 0 && (s[0] == '-') == (n < 0)
    ensures n < 0 ==> |s| > 1 && IsDigits(s[1..]) && s[1] != '0'
    ensures n >= 0 ==> IsDigits(s) && (n > 0 ==> s[0] != '0')
  {
    if n < 0 then "-" + NatToDigits(-n) else NatToDigits(n)
  }

  /** What `Long.parseLong` accepts before its range check: an optional `-` or
      `+` followed by at least one decimal digit, and nothing else. */
  predicate IsDecimalSyntax(s: string) {
    && |s| > 0
    && var digits := if s[0] == '-' || s[0] == '+' then s[1..] else s;
       |digits| > 0 && IsDigits(digits)
  }

  /** `Long.parseLong(s)` in radix 10. A null or empty string, a sign alone,
      any character that is not a digit, and a value outside the range of a
      `long` all throw `NumberFormatException` carrying the input. */
  function ParseLong(s: Option<string>): (r: Result<Long, Exception>)
    ensures r.Success? ==> s.Some? && IsDecimalSyntax(s.value)
    ensures r.Failure? ==> r.error == NumberFormatException(s)
  {
    match s
    case None => Failure(NumberFormatException(s))
    case Some(t) =>
      if |t| == 0 then Failure(NumberFormatException(s))
      else
        var negative := t[0] == '-';
        var digits := if negative || t[0] == '+' then t[1..] else t;
        if |digits| == 0 || !IsDigits(digits) then Failure(NumberFormatException(s))
        else
          var v: int := if negative then -(DigitsValue(digits) as int) else DigitsValue(digits);
          if LONG_MIN <= v <= LONG_MAX then Success(v) else Failure(NumberFormatException(s))
  }

  /** Reading back the digits of `n` gives `n`. */
  lemma {:induction false} DigitsValueOfNatToDigits(n: nat)
    ensures DigitsValue(NatToDigits(n)) == n
  {
    if n >= 10 {
      var s := NatToDigits(n);
      assert s[..|s| - 1] == NatToDigits(n / 10);
      DigitsValueOfNatToDigits(n / 10);
    }
  }

  /** `Long.parseLong(String.valueOf(n))`: every `long` comes back unchanged,
      and the decimal string of any integer outside that range is refused. */
  lemma ParseLongOfDecimalString(n: int)
    ensures ParseLong(Some(DecimalString(n)))
            == if LONG_MIN <= n <= LONG_MAX then Success(n)
               else Failure(NumberFormatException(Some(DecimalString(n))))
  {
    var s := DecimalString(n);
    if n < 0 {
      assert s[1..] == NatToDigits(-n);
      DigitsValueOfNatToDigits(-n);
    } else {
      assert IsDigit(s[0]);
      DigitsValueOfNatToDigits(n);
    }
  }

  /** An explicit `+` in front of the digits of `n` changes nothing. */
  lemma ParseLongPlusSign(n: nat)
    ensures ParseLong(Some("+" + NatToDigits(n))).Success? == (n <= LONG_MAX)
    ensures n <= LONG_MAX ==> ParseLong(Some("+" + NatToDigits(n))) == Success(n)
  {
    var s := "+" + NatToDigits(n);
    assert s[1..] == NatToDigits(n);
    DigitsValueOfNatToDigits(n);
  }

  /** `k` zero digits. */
  function Zeros(k: nat): (s: string)
    ensures |s| == k && IsDigits(s)
  {
    seq(k, _ => '0')
  }

  /** A leading zero does not change the value of a digit string. */
  lemma {:induction false} DigitsValueLeadingZero(s: string)
    requires IsDigits(s)
    ensures IsDigits("0" + s) && DigitsValue("0" + s) == DigitsValue(s)
  {
    var t := "0" + s;
    if s != [] {
      assert t[..|t| - 1] == "0" + s[..|s| - 1];
      DigitsValueLeadingZero(s[..|s| - 1]);
    }
  }

  /** Any number of leading zeros leaves the value alone. */
  lemma {:induction false} DigitsValueZeros(k: nat, s: string)
    requires IsDigits(s)
    ensures IsDigits(Zeros(k) + s) && DigitsValue(Zeros(k) + s) == DigitsValue(s)
  {
    if k == 0 {
      assert Zeros(k) + s == s;
    } else {
      assert Zeros(k) + s == "0" + (Zeros(k - 1) + s);
      DigitsValueZeros(k - 1, s);
      DigitsValueLeadingZero(Zeros(k - 1) + s);
    }
  }

  /** `Long.parseLong` of an optional sign and a non-empty digit string: the
      signed value of the digits when it fits in a `long`. */
  lemma ParseLongSigned(sign: string, digits: string)
    requires sign == "" || sign == "+" || sign == "-"
    requires |digits| > 0 && IsDigits(digits)
    ensures var v: int := if sign == "-" then -(DigitsValue(digits) as int) else DigitsValue(digits);
            ParseLong(Some(sign + digits))
            == if LONG_MIN <= v <= LONG_MAX then Success(v) else Failure(NumberFormatException(Some(sign + digits)))
  {
    var s := sign + digits;
    if sign == "" {
      assert s == digits;
      assert s[0] != '-' && s[0] != '+' by { assert IsDigit(s[0]); }
    } else if sign == "-" {
      assert s[0] == '-' && s[1..] == digits;
    } else {
      assert s[0] == '+' && s[1..] == digits;
    }
  }

  /** `Long.parseLong` of an optional sign, any number of zeros and the digits of
      `m`: the signed value of `m` when it fits in a `long`, and a
      `NumberFormatException` otherwise. With `DecimalSyntaxShape` this fixes
      the result for every string the parser's syntax admits. */
  lemma ParseLongPadded(sign: string, k: nat, m: nat)
    requires sign == "" || sign == "+" || sign == "-"
    ensures var v: int := if sign == "-" then -(m as int) else m;
            var s := sign + Zeros(k) + NatToDigits(m);
            ParseLong(Some(s))
            == if LONG_MIN <= v <= LONG_MAX then Success(v) else Failure(NumberFormatException(Some(s)))
  {
    var digits := Zeros(k) + NatToDigits(m);
    DigitsValueZeros(k, NatToDigits(m));
    DigitsValueOfNatToDigits(m);
    ParseLongSigned(sign, digits);
    assert sign + Zeros(k) + NatToDigits(m) == sign + digits;
  }

  /** A digit string with no leading zero (or the single digit `0`) is the
      printed form of its value. */
  lemma {:induction false} NatToDigitsOfDigitsValue(r: string)
    requires |r| > 0 && IsDigits(r) && (|r| == 1 || r[0] != '0')
    ensures NatToDigits(DigitsValue(r)) == r
  {
    var c := r[|r| - 1];
    if |r| == 1 {
      assert r == [c];
    } else {
      var p := r[..|r| - 1];
      assert r == p + [c];
      DigitsValuePositive(p);
      NatToDigitsOfDigitsValue(p);
    }
  }

  /** A digit string that does not start with zero denotes a positive number. */
  lemma {:induction false} DigitsValuePositive(p: string)
    requires |p| > 0 && IsDigits(p) && p[0] != '0'
    ensures DigitsValue(p) > 0
  {
    if |p| > 1 {
      DigitsValuePositive(p[..|p| - 1]);
    }
  }

  /** Every non-empty digit string is some zeros followed by the printed form of
      a natural number. */
  lemma {:induction false} DigitsShape(d: string) returns (k: nat, m: nat)
    requires |d| > 0 && IsDigits(d)
    ensures d == Zeros(k) + NatToDigits(m)
  {
    if |d| == 1 || d[0] != '0' {
      k, m := 0, DigitsValue(d);
      NatToDigitsOfDigitsValue(d);
      assert Zeros(0) + NatToDigits(m) == d;
    } else {
      var k' := 0;
      k', m := DigitsShape(d[1..]);
      k := k' + 1;
      assert d == "0" + d[1..];
      assert Zeros(k) == "0" + Zeros(k');
    }
  }

  /** Every string of the parser's syntax is a sign (possibly none), some zeros
      and the printed form of a natural number, the shape `ParseLongPadded`
      covers. */
  lemma DecimalSyntaxShape(s: string) returns (sign: string, k: nat, m: nat)
    requires IsDecimalSyntax(s)
    ensures sign == "" || sign == "+" || sign == "-"
    ensures s == sign + Zeros(k) + NatToDigits(m)
  {
    if s[0] == '-' || s[0] == '+' {
      sign := [s[0]];
      k, m := DigitsShape(s[1..]);
      assert s == sign + s[1..];
    } else {
      sign := "";
      k, m := DigitsShape(s);
    }
  }

  /** Different `long` values print differently, so the decimal string names
      its value. */
  lemma DecimalStringInjective(a: Long, b: Long)
    requires DecimalString(a) == DecimalString(b)
    ensures a == b
  {
    ParseLongOfDecimalString(a);
    ParseLongOfDecimalString(b);
  }
}
