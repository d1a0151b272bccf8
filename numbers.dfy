/**
 * The numbers of the client. JavaScript numbers are modelled as integers or NaN,
 * with the decimal text `Number.prototype.toString` gives for an integral value,
 * the decimal part of `parseInt`, and the truthiness test `if (n)`.
 */
module Numbers {

  /** An integral JavaScript number, or NaN (what `parseInt` gives for text without digits). */
  datatype Num = NaN | Int(value: int)

  /** `if (n)`: zero and NaN are falsy, every other number is truthy. */
  predicate Truthy(n: Num) {
    n.Int? && n.value != 0
  }

  predicate IsDigit(c: char) {
    '0' <= c <= '9'
  }

  predicate AllDigits(s: string) {
    forall i :: 0 <= i < |s| ==> IsDigit(s[i])
  }

  function DigitChar(d: nat): (c: char)
    requires d < 10
    ensures IsDigit(c)
  {
    ('0' as int + d) as char
  }

  function DigitValue(c: char): (d: nat)
    requires IsDigit(c)
    ensures d < 10 && DigitChar(d) == c
  {
    (c as int - '0' as int)
  }

  /** Decimal text of a natural number, without leading zeros. */
  function NatText(n: nat): (s: string)
    ensures |s| > 0 && AllDigits(s)
    ensures |s| > 1 ==> s[0] != '0'
    ensures s == "0" <==> n == 0
  {
    if n < 10 then [DigitChar(n)] else NatText(n / 10) + [DigitChar(n % 10)]
  }

  /** The value of a non-empty run of decimal digits, read left to right. */
  function DigitsValue(s: string): nat
    requires AllDigits(s)
  {
    if s == [] then 0 else DigitsValue(s[..|s| - 1]) * 10 + DigitValue(s[|s| - 1])
  }

  lemma {:induction false} DigitsValueOfNatText(n: nat)
    ensures DigitsValue(NatText(n)) == n
  {
    if n >= 10 {
      var s := NatText(n);
      assert s[..|s| - 1] == NatText(n / 10);
      DigitsValueOfNatText(n / 10);
    }
  }

  /** Distinct numbers have distinct decimal texts. */
  lemma NatTextInjective(a: nat, b: nat)
    requires NatText(a) == NatText(b)
    ensures a == b
  {
    DigitsValueOfNatText(a);
    DigitsValueOfNatText(b);
  }

  /** `String(n)` for an integral number: decimal digits, a leading '-' when negative, "NaN" for NaN. */
  function NumText(n: Num): (s: string)
    ensures |s| > 0
    ensures n.Int? && n.value >= 0 ==> s == NatText(n.value)
    ensures n.Int? && n.value < 0 ==> s == "-" + NatText(-n.value)
    ensures n.NaN? ==> s == "NaN"
  {
    match n
    case NaN => "NaN"
    case Int(v) => if v < 0 then "-" + NatText(-v) else NatText(v)
  }

  /** The text of a truthy number is never "0", "" or "NaN": such a value is really sent. */
  lemma TruthyNumText(n: Num)
    requires Truthy(n)
    ensures NumText(n) != "0" && NumText(n) != "NaN"
  {
    if n.value < 0 {
      assert NumText(n)[0] == '-';
    } else {
      assert IsDigit(NumText(n)[0]);
    }
  }

  /** Number of leading decimal digits of `s`. */
  function DigitPrefixLength(s: string): (k: nat)
    ensures k <= |s| && AllDigits(s[..k])
    ensures k < |s| ==> !IsDigit(s[k])
  {
    if s == [] || !IsDigit(s[0]) then 0
    else
      var k := 1 + DigitPrefixLength(s[1..]);
      assert s[..k] == [s[0]] + s[1..][..k - 1];
      k
  }

  lemma {:induction false} DigitPrefixOfDigits(d: string, rest: string)
    requires AllDigits(d)
    requires rest == [] || !IsDigit(rest[0])
    ensures DigitPrefixLength(d + rest) == |d|
  {
    if d != [] {
      assert (d + rest)[1..] == d[1..] + rest;
      DigitPrefixOfDigits(d[1..], rest);
    }
  }

  /**
   * `parseInt(s)` on decimal text: an optional sign, then the longest run of
   * digits; NaN when there is no digit. Text after the digits is ignored.
   */
  function ParseInt(s: string): (n: Num)
    ensures n.NaN? <==> DigitPrefixLength(SignFree(s)) == 0
  {
    var body := SignFree(s);
    var k := DigitPrefixLength(body);
    if k == 0 then NaN
    else if |s| > 0 && s[0] == '-' then Int(-(DigitsValue(body[..k]) as int))
    else Int(DigitsValue(body[..k]))
  }

  /** `s` without one leading '+' or '-'. */
  function SignFree(s: string): (r: string)
    ensures |s| > 0 && (s[0] == '+' || s[0] == '-') ==> r == s[1..]
    ensures |s| == 0 || (s[0] != '+' && s[0] != '-') ==> r == s
  {
    if |s| > 0 && (s[0] == '+' || s[0] == '-') then s[1..] else s
  }

  /** Reading back the decimal text of a number, followed by any non-digit text, gives the number. */
  lemma ParseIntOfText(n: Num, rest: string)
    requires n.Int?
    requires rest == [] || !IsDigit(rest[0])
    ensures ParseInt(NumText(n) + rest) == n
  {
    if n.value < 0 {
      var digits := NatText(-n.value);
      assert NumText(n) + rest == "-" + (digits + rest);
      ParseNegativeText(-n.value, rest);
    } else {
      ParseNatText(n.value, rest);
    }
  }

  lemma ParseNatText(a: nat, rest: string)
    requires rest == [] || !IsDigit(rest[0])
    ensures DigitPrefixLength(NatText(a) + rest) == |NatText(a)|
    ensures ParseInt(NatText(a) + rest) == Int(a)
  {
    var digits := NatText(a);
    var s := digits + rest;
    DigitPrefixOfDigits(digits, rest);
    DigitsValueOfNatText(a);
    assert IsDigit(s[0]);
    assert s[..|digits|] == digits;
  }

  lemma ParseNegativeText(a: nat, rest: string)
    requires rest == [] || !IsDigit(rest[0])
    ensures ParseInt("-" + (NatText(a) + rest)) == Int(-(a as int))
  {
    var body := NatText(a) + rest;
    var s := "-" + body;
    ParseNatText(a, rest);
    assert SignFree(s) == body;
    assert body[..|NatText(a)|] == NatText(a);
    DigitsValueOfNatText(a);
  }

  /** A leading '+' leaves the number as it is; a leading '-' negates it; neither turns digits into NaN. */
  lemma ParseSigned(s: string)
    requires s == [] || (s[0] != '+' && s[0] != '-')
    ensures ParseInt("+" + s) == ParseInt(s)
    ensures ParseInt("-" + s) == match ParseInt(s) case NaN => NaN case Int(v) => Int(-v)
  {
    assert ("+" + s)[1..] == s;
    assert ("-" + s)[1..] == s;
  }

  lemma ParsePlusText(a: nat, rest: string)
    requires rest == [] || !IsDigit(rest[0])
    ensures ParseInt("+" + (NatText(a) + rest)) == Int(a)
  {
    ParseNatText(a, rest);
    assert IsDigit(NatText(a)[0]);
    ParseSigned(NatText(a) + rest);
  }

  /** Decimal text followed by a non-digit (or nothing) determines both the number and what follows. */
  lemma NatTextPrefixUnique(a: nat, r1: string, b: nat, r2: string)
    requires r1 == [] || !IsDigit(r1[0])
    requires r2 == [] || !IsDigit(r2[0])
    requires NatText(a) + r1 == NatText(b) + r2
    ensures a == b && r1 == r2
  {
    DigitPrefixOfDigits(NatText(a), r1);
    DigitPrefixOfDigits(NatText(b), r2);
    var s := NatText(a) + r1;
    assert NatText(a) == s[..|NatText(a)|];
    assert NatText(b) == s[..|NatText(b)|];
    NatTextInjective(a, b);
    assert r1 == s[|NatText(a)|..];
  }
}
