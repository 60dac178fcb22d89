/**
 * The decimal text conversions the scripts rely on: `int.ToString()` /
 * `long.ToString()` for non-negative and signed values, and `int.TryParse`
 * with its default number style (leading and trailing white space, an
 * optional leading sign, decimal digits, 32-bit range).
 */
module Text {
  import opened Wrappers

  const Int32Min: int := -0x8000_0000
  const Int32Max: int := 0x7FFF_FFFF

  predicate IsDigit(c: char) {
    '0' <= c <= '9'
  }

  predicate AllDigits(s: string) {
    forall i :: 0 <= i < |s| ==> IsDigit(s[i])
  }

  function DigitChar(d: nat): (c: char)
    requires d < 10
    ensures IsDigit(c) && c as int - '0' as int == d
  {
    ('0' as int + d) as char
  }

  function DigitValue(c: char): (d: nat)
    requires IsDigit(c)
    ensures d < 10 && DigitChar(d) == c
  {
    c as int - '0' as int
  }

  /** The decimal text of `n`, without sign and without leading zeros. */
  function NatToString(n: nat): (s: string)
    ensures |s| >= 1 && AllDigits(s)
    ensures s[0] == '0' <==> n == 0
    decreases n
  {
    if n < 10 then [DigitChar(n)] else NatToString(n / 10) + [DigitChar(n % 10)]
  }

  /** The value of a string of decimal digits (leading zeros allowed). */
  function DigitsValue(s: string): nat
    requires AllDigits(s)
    decreases |s|
  {
    if s == [] then 0 else DigitsValue(s[..|s| - 1]) * 10 + DigitValue(s[|s| - 1])
  }

  /** Reading back the decimal text of `n` gives `n`. */
  lemma {:induction false} DigitsValueOfNatToString(n: nat)
    ensures DigitsValue(NatToString(n)) == n
    decreases n
  {
    if n >= 10 {
      DigitsValueOfNatToString(n / 10);
      var s := NatToString(n);
      assert s[..|s| - 1] == NatToString(n / 10);
    }
  }

  /** `ToString()` of a signed integer: a minus sign before the digits of a negative value. */
  function IntToString(i: int): (s: string)
    ensures |s| >= 1 && IsDigit(s[|s| - 1])
    ensures s[0] == '-' <==> i < 0
    ensures i >= 0 ==> AllDigits(s)
  {
    if i < 0 then "-" + NatToString(-i) else NatToString(i)
  }

  /** The characters `int.TryParse` skips around a number: tab to carriage return, and space. */
  predicate IsNumberWhite(c: char) {
    c == ' ' || '\t' <= c <= '\r'
  }

  function TrimStart(s: string): (r: string)
    ensures r == [] || !IsNumberWhite(r[0])
    ensures |r| <= |s| && r == s[|s| - |r|..]
    decreases |s|
  {
    if |s| > 0 && IsNumberWhite(s[0]) then TrimStart(s[1..]) else s
  }

  function TrimEnd(s: string): (r: string)
    ensures r == [] || !IsNumberWhite(r[|r| - 1])
    ensures |r| <= |s| && r == s[..|r|]
    decreases |s|
  {
    if |s| > 0 && IsNumberWhite(s[|s| - 1]) then TrimEnd(s[..|s| - 1]) else s
  }

  /** The value `s` denotes once the optional sign is split off, before the range check. */
  function SignedDigitsValue(t: string): Option<int> {
    var negative := |t| > 0 && t[0] == '-';
    var digits := if |t| > 0 && (t[0] == '-' || t[0] == '+') then t[1..] else t;
    if digits == [] || !AllDigits(digits) then None
    else
      var magnitude: int := DigitsValue(digits);
      Some(if negative then -magnitude else magnitude)
  }

  /**
   * `int.TryParse(s, out v)`: Some(v) when it returns true. A null string
   * (`Value?.ToString()` of a missing value) is None here and fails as well.
   */
  function TryParseInt32(s: Option<string>): (r: Option<int>)
    ensures r.Some? ==> Int32Min <= r.value <= Int32Max
    ensures r.Some? ==> s.Some? && exists c :: c in s.value && IsDigit(c)
  {
    match s
    case None => None
    case Some(text) =>
      var t := TrimEnd(TrimStart(text));
      match SignedDigitsValue(t)
      case None => None
      case Some(v) =>
        if Int32Min <= v <= Int32Max then
          assert IsDigit(t[|t| - 1]);
          assert t[|t| - 1] in text;
          Some(v)
        else None
  }

  /** `int.TryParse(s, out v)` leaves 0 in `v` when it fails; the scripts use that 0. */
  function ParseIntOrZero(s: Option<string>): (v: int)
    ensures TryParseInt32(s).Some? ==> v == TryParseInt32(s).value
    ensures TryParseInt32(s).None? ==> v == 0
  {
    TryParseInt32(s).GetOr(0)
  }

  /** The sign and digits of `IntToString(i)` read back as `i`, before any range check. */
  lemma {:induction false} SignedValueOfIntToString(i: int)
    ensures SignedDigitsValue(IntToString(i)) == Some(i)
  {
    var s := IntToString(i);
    if i < 0 {
      assert s[1..] == NatToString(-i);
      DigitsValueOfNatToString(-i);
    } else {
      DigitsValueOfNatToString(i);
    }
  }

  /**
   * `int.TryParse` of `ToString()` gives the integer back exactly when it
   * fits in 32 bits; a wider `long` fails the parse.
   */
  lemma {:induction false} TryParseOfIntToString(i: int)
    ensures TryParseInt32(Some(IntToString(i))) ==
            (if Int32Min <= i <= Int32Max then Some(i) else None)
  {
    var s := IntToString(i);
    NoWhiteAtEnds(s);
    SignedValueOfIntToString(i);
  }

  lemma NoWhiteAtEnds(s: string)
    requires |s| >= 1 && !IsNumberWhite(s[0]) && !IsNumberWhite(s[|s| - 1])
    ensures TrimEnd(TrimStart(s)) == s
  {
    assert TrimStart(s) == s;
    assert TrimEnd(s) == s;
  }

  /** Text with no digit at all never parses. */
  lemma NoDigitsNoNumber(s: string)
    requires forall c :: c in s ==> !IsDigit(c)
    ensures TryParseInt32(Some(s)) == None
  {
  }
}
