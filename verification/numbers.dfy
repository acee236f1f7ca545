/**
 * Decimal rendering of integers (`String(n)`, template literals) and
 * `parseInt(s, 10)`, whose `NaN` is modelled as `None`.
 */
module Numbers {
  import opened Common
  import opened Text

  function DigitChar(d: nat): (c: char)
    requires d < 10
    ensures IsDigit(c)
  {
    ('0' as int + d) as char
  }

  function DigitValue(c: char): (d: nat)
    requires IsDigit(c)
    ensures d < 10 && DigitChar(d) == c
  {
    c as int - '0' as int
  }

  predicate AllDigits(s: string) {
    forall k :: 0 <= k < |s| ==> IsDigit(s[k])
  }

  /** The number a string of decimal digits denotes. */
  function DigitsValue(s: string): nat
    requires AllDigits(s)
    decreases |s|
  {
    if |s| == 0 then 0 else 10 * DigitsValue(s[..|s| - 1]) + DigitValue(s[|s| - 1])
  }

  /** `String(n)` for a natural number: no leading zeros. */
  function NatToString(n: nat): (r: string)
    ensures r != "" && AllDigits(r)
    ensures r[0] == '0' ==> n == 0 && |r| == 1
    decreases n
  {
    if n < 10 then [DigitChar(n)] else NatToString(n / 10) + [DigitChar(n % 10)]
  }

  /** `String(i)` */
  function IntToString(i: int): (r: string)
    ensures r != ""
    ensures i < 0 <==> r[0] == '-'
  {
    if i < 0 then "-" + NatToString(-i) else NatToString(i)
  }

  lemma {:induction false} NatToStringValue(n: nat)
    ensures DigitsValue(NatToString(n)) == n
    decreases n
  {
    if n >= 10 {
      NatToStringValue(n / 10);
      var r := NatToString(n);
      assert r[..|r| - 1] == NatToString(n / 10);
    }
  }

  /** Length of the longest prefix made of decimal digits. */
  function LeadingDigits(s: string): (n: nat)
    ensures n <= |s|
    ensures AllDigits(s[..n])
    ensures n < |s| ==> !IsDigit(s[n])
    decreases |s|
  {
    if |s| == 0 || !IsDigit(s[0]) then 0
    else
      var m := LeadingDigits(s[1..]);
      assert s[..1 + m] == [s[0]] + s[1..][..m];
      1 + m
  }

  /** The longest leading run of digits as a number; no digit is `NaN`. */
  function ReadDigits(body: string): (r: Option<int>)
    ensures r.None? <==> body == [] || !IsDigit(body[0])
    ensures r.Some? ==> r.value >= 0
  {
    var n := LeadingDigits(body);
    if n == 0 then None else Some(DigitsValue(body[..n]))
  }

  /**
   * `parseInt(s, 10)`: skip leading whitespace, read an optional sign, then
   * the longest run of digits; no digit at all is `NaN`.
   */
  function ParseInt(s: string): (r: Option<int>)
    ensures r.None? <==>
      var t := s[LeadingSpaces(s)..];
      var body := if |t| > 0 && (t[0] == '-' || t[0] == '+') then t[1..] else t;
      body == [] || !IsDigit(body[0])
  {
    var t := s[LeadingSpaces(s)..];
    if |t| > 0 && t[0] == '-' then
      match ReadDigits(t[1..])
      case None => None
      case Some(v) => Some(-v)
    else if |t| > 0 && t[0] == '+' then ReadDigits(t[1..])
    else ReadDigits(t)
  }

  lemma ReadDigitsOfDigits(digits: string, rest: string)
    requires digits != "" && AllDigits(digits)
    requires rest == [] || !IsDigit(rest[0])
    ensures ReadDigits(digits + rest) == Some(DigitsValue(digits))
  {
    LeadingDigitsOfDigits(digits, rest);
    assert (digits + rest)[..|digits|] == digits;
  }

  lemma NotSpace(c: char)
    requires IsDigit(c) || c == '-'
    ensures !IsSpace(c)
  {
  }

  /** `parseInt` of text that starts with neither whitespace nor a sign. */
  lemma ParseIntUnsigned(s: string)
    requires s != [] && IsDigit(s[0])
    ensures ParseInt(s) == ReadDigits(s)
  {
    NotSpace(s[0]);
    assert s[0..] == s;
  }

  /** `parseInt` of text that starts with a minus sign. */
  lemma ParseIntNegative(s: string)
    requires s != [] && s[0] == '-'
    ensures ParseInt(s) == match ReadDigits(s[1..]) case None => None case Some(v) => Some(-v)
  {
    NotSpace(s[0]);
    assert s[0..] == s;
  }

  /**
   * Rendering an integer and parsing it back gives the integer, even when
   * more text follows that does not start with a digit (`parseInt("12px")`).
   */
  lemma ParseIntToString(i: int, rest: string)
    requires rest == [] || !IsDigit(rest[0])
    ensures ParseInt(IntToString(i) + rest) == Some(i)
  {
    var n: nat := if i < 0 then -i else i;
    var digits := NatToString(n);
    ReadDigitsOfDigits(digits, rest);
    NatToStringValue(n);
    if i < 0 {
      var s := "-" + (digits + rest);
      assert IntToString(i) + rest == s;
      assert s[1..] == digits + rest;
      ParseIntNegative(s);
    } else {
      assert IntToString(i) + rest == digits + rest;
      ParseIntUnsigned(digits + rest);
    }
  }

  lemma LeadingDigitsOfDigits(digits: string, rest: string)
    requires AllDigits(digits)
    requires rest == [] || !IsDigit(rest[0])
    ensures LeadingDigits(digits + rest) == |digits|
    decreases |digits|
  {
    if |digits| > 0 {
      LeadingDigitsOfDigits(digits[1..], rest);
      assert (digits + rest)[1..] == digits[1..] + rest;
    } else {
      assert digits + rest == rest;
    }
  }

  /** Leading whitespace never changes what `parseInt` reads. */
  lemma ParseIntSkipsSpace(c: char, s: string)
    requires IsSpace(c)
    ensures ParseInt([c] + s) == ParseInt(s)
  {
    assert ([c] + s)[1..] == s;
    assert LeadingSpaces([c] + s) == 1 + LeadingSpaces(s);
    assert ([c] + s)[1 + LeadingSpaces(s)..] == s[LeadingSpaces(s)..];
  }
}
