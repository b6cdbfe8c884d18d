/** Timestamps as saved: a signed 64-bit count printed in decimal and parsed back by stoll,
    which skips leading white space, takes one sign, and must consume the whole field. */
module TimeCodec {
  import opened Wrappers

  const INT64_MIN: int := -0x8000_0000_0000_0000
  const INT64_MAX: int := 0x7FFF_FFFF_FFFF_FFFF

  newtype int64 = t: int | -0x8000_0000_0000_0000 <= t < 0x8000_0000_0000_0000

  // ---- Printing ----

  function DigitChar(n: nat): (c: char)
    requires n < 10
    ensures IsDigit(c) && DigitValue(c) == n
  {
    (n + '0' as int) as char
  }

  function Digits(n: nat): (s: string)
    ensures s != [] && AllDigits(s) && Value(s) == n
  {
    if n < 10 then [DigitChar(n)]
    else
      var s := Digits(n / 10) + [DigitChar(n % 10)];
      assert s[..|s| - 1] == Digits(n / 10);
      s
  }

  function ToDecimal(t: int64): string {
    if t < 0 then ['-'] + Digits(-(t as int)) else Digits(t as int)
  }

  // ---- Parsing ----

  predicate IsSpace(c: char) {
    c == ' ' || 9 <= c as int <= 13
  }

  predicate IsDigit(c: char) {
    '0' <= c <= '9'
  }

  function DigitValue(c: char): (n: nat)
    requires IsDigit(c)
    ensures n < 10
  {
    c as int - '0' as int
  }

  predicate AllDigits(s: string) {
    forall i :: 0 <= i < |s| ==> IsDigit(s[i])
  }

  function Value(s: string): (v: int)
    requires AllDigits(s)
    ensures v >= 0
  {
    if s == [] then 0 else Value(s[..|s| - 1]) * 10 + DigitValue(s[|s| - 1])
  }

  function SkipSpaces(s: string): string {
    if s != [] && IsSpace(s[0]) then SkipSpaces(s[1..]) else s
  }

  function ParseTime(field: string): Option<int64> {
    var body := SkipSpaces(field);
    var negative := body != [] && body[0] == '-';
    var digits := if body != [] && (body[0] == '-' || body[0] == '+') then body[1..] else body;
    if digits == [] || !AllDigits(digits) then None
    else
      var value: int := if negative then -Value(digits) else Value(digits);
      if INT64_MIN <= value <= INT64_MAX then Some(value as int64) else None
  }

  /** The digit loop accumulates on the negative side in an int64, which can hold every magnitude up to
      2^63; the type makes the verifier check that no step leaves the range. */
  method AccumulateDigits(digits: string) returns (ok: bool, negated: int64)
    ensures ok <==> AllDigits(digits) && Value(digits) <= 0x8000_0000_0000_0000
    ensures ok ==> negated as int == -Value(digits)
  {
    var i := 0;
    negated := 0;
    while i < |digits|
      invariant i <= |digits|
      invariant AllDigits(digits[..i])
      invariant -(negated as int) == Value(digits[..i])
    {
      if !IsDigit(digits[i]) {
        return false, 0;
      }
      var digit := DigitValue(digits[i]) as int64;
      assert digits[..i + 1][..i] == digits[..i];
      if negated < -922337203685477580 || (negated == -922337203685477580 && digit > 8) {
        if AllDigits(digits) {
          PrefixValue(digits, i + 1);
        }
        return false, 0;
      }
      negated := negated * 10 - digit;
      i := i + 1;
    }
    assert digits[..i] == digits;
    ok := true;
  }

  method ParseTimeValue(field: string) returns (ok: bool, outTime: int64)
    ensures ok <==> ParseTime(field).Some?
    ensures ok ==> outTime == ParseTime(field).value
  {
    var body := field;
    while body != [] && IsSpace(body[0])
      invariant SkipSpaces(body) == SkipSpaces(field)
      decreases |body|
    {
      body := body[1..];
    }
    var negative := body != [] && body[0] == '-';
    var digits := if body != [] && (body[0] == '-' || body[0] == '+') then body[1..] else body;
    if digits == [] {
      return false, 0;
    }
    ok, outTime := AccumulateDigits(digits);
    if !ok || negative {
      return;
    }
    if outTime == -0x8000_0000_0000_0000 {
      return false, 0;
    }
    outTime := -outTime;
  }

  /** More digits never make the value smaller. */
  lemma {:induction false} PrefixValue(s: string, k: nat)
    requires AllDigits(s) && k <= |s|
    ensures Value(s[..k]) <= Value(s)
  {
    if k == |s| {
      assert s[..k] == s;
    } else {
      assert s[..|s| - 1][..k] == s[..k];
      PrefixValue(s[..|s| - 1], k);
    }
  }

  /** Every 64-bit time, the minimum included, is printed and parsed back unchanged. */
  lemma {:induction false} TimeRoundTrip(t: int64)
    ensures ParseTime(ToDecimal(t)) == Some(t)
  {
    var s := ToDecimal(t);
    assert !IsSpace(s[0]);
    if t < 0 {
      assert s[1..] == Digits(-(t as int));
    }
  }
}
