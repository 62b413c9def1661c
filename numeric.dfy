/**
 * Go's decimal integer conversions, as used by the API server:
 * `strconv.Atoi` / `strconv.ParseInt(s, 10, 64)` (query parameters, path ids,
 * environment variables), `fmt.Sprintf("%d", n)` (Redis keys), and the
 * wrap-around of 64-bit signed arithmetic (`time.Duration` products).
 */
module Numeric {
  import opened Common

  const INT64_MIN: int := -0x8000_0000_0000_0000
  const INT64_MAX: int := 0x7FFF_FFFF_FFFF_FFFF
  const TWO_TO_64: int := 0x1_0000_0000_0000_0000

  predicate InInt64(n: int) {
    INT64_MIN <= n <= INT64_MAX
  }

  predicate IsDigit(c: char) {
    '0' <= c <= '9'
  }

  predicate AllDigits(s: string) {
    forall i :: 0 <= i < |s| ==> IsDigit(s[i])
  }

  function DigitValue(c: char): nat
    requires IsDigit(c)
  {
    c as int - '0' as int
  }

  function DigitChar(d: nat): (c: char)
    requires d < 10
    ensures IsDigit(c) && DigitValue(c) == d
  {
    ('0' as int + d) as char
  }

  /** The value of a run of decimal digits, most significant digit first. */
  function DigitsValue(s: string): nat
    requires AllDigits(s)
    decreases |s|
  {
    if s == [] then 0 else DigitsValue(s[..|s| - 1]) * 10 + DigitValue(s[|s| - 1])
  }

  /**
   * `strconv.ParseInt(s, 10, 64)`, which is also `strconv.Atoi` on a 64-bit
   * platform: an optional sign, then at least one ASCII digit and nothing
   * else; a value outside int64 is a range error.
   */
  function ParseInt64(s: string): (r: Option<int>)
    ensures r.Some? ==> InInt64(r.value) && s != []
    // accepted only: a digit or a sign followed by at least one character, then digits only
    ensures r.Some? ==>
      && (IsDigit(s[0]) || ((s[0] == '+' || s[0] == '-') && |s| >= 2))
      && forall i :: 0 < i < |s| ==> IsDigit(s[i])
    // unsigned digits, leading zeros allowed: their value, unless it exceeds INT64_MAX
    ensures s != [] && AllDigits(s) ==> r == (if DigitsValue(s) <= INT64_MAX then Some(DigitsValue(s)) else None)
    // a sign followed by digits: the signed value, unless it leaves int64
    ensures |s| >= 2 && s[0] == '+' && AllDigits(s[1..]) ==>
      r == (if DigitsValue(s[1..]) <= INT64_MAX then Some(DigitsValue(s[1..])) else None)
    ensures |s| >= 2 && s[0] == '-' && AllDigits(s[1..]) ==>
      r == (if DigitsValue(s[1..]) <= -INT64_MIN then Some(-(DigitsValue(s[1..]) as int)) else None)
  {
    if s == [] then None
    else
      var body := if s[0] == '+' || s[0] == '-' then s[1..] else s;
      if body == [] || !AllDigits(body) then None
      else
        var v: int := if s[0] == '-' then -(DigitsValue(body) as int) else DigitsValue(body);
        if InInt64(v) then Some(v) else None
  }

  /** A leading zero does not change the value of a digit run. */
  lemma {:induction false} LeadingZeroValue(s: string)
    requires AllDigits(s)
    ensures AllDigits("0" + s) && DigitsValue("0" + s) == DigitsValue(s)
    decreases |s|
  {
    var z := "0" + s;
    assert forall i :: 0 < i < |z| ==> z[i] == s[i - 1];
    if s != [] {
      assert z[..|z| - 1] == "0" + s[..|s| - 1];
      LeadingZeroValue(s[..|s| - 1]);
    }
  }

  /** `Atoi` ignores leading zeros: "007" parses as 7. */
  lemma LeadingZerosIgnored(s: string)
    requires s != [] && AllDigits(s)
    ensures ParseInt64("0" + s) == ParseInt64(s)
  {
    LeadingZeroValue(s);
  }

  /** Inputs `Atoi` rejects: nothing, a bare sign, spaces, a decimal point. */
  lemma MalformedRejected()
    ensures ParseInt64("") == None && ParseInt64("+") == None && ParseInt64("-") == None
    ensures ParseInt64(" 1") == None && ParseInt64("1 ") == None && ParseInt64("1.5") == None
  {
    assert !IsDigit(' ') && !IsDigit('.');
    assert "1 "[1] == ' ' && "1.5"[1] == '.';
  }

  /** A sign is optional, and "-0" is zero. */
  lemma SignedExamples()
    ensures ParseInt64("+7") == Some(7) && ParseInt64("-7") == Some(-7) && ParseInt64("-0") == Some(0)
  {
    assert "+7"[1..] == "7" && "-7"[1..] == "7" && "-0"[1..] == "0";
    assert DigitsValue("7") == 7 && DigitsValue("0") == 0;
  }

  /** "007" parses as 7. */
  lemma LeadingZerosExample()
    ensures ParseInt64("007") == Some(7)
  {
    assert DigitsValue("7") == 7;
    LeadingZerosIgnored("7");
    LeadingZerosIgnored("07");
    assert "0" + "7" == "07" && "0" + "07" == "007";
  }

  /** The decimal digits of a natural number, without leading zeros. */
  function NatDigits(n: nat): (s: string)
    ensures s != [] && AllDigits(s)
    decreases n
  {
    if n < 10 then [DigitChar(n)] else NatDigits(n / 10) + [DigitChar(n % 10)]
  }

  /** `fmt.Sprintf("%d", n)`. */
  function FormatInt(n: int): string {
    if n < 0 then "-" + NatDigits(-n) else NatDigits(n)
  }

  lemma {:induction false} NatDigitsValue(n: nat)
    ensures DigitsValue(NatDigits(n)) == n
    decreases n
  {
    if n >= 10 {
      var prefix := NatDigits(n / 10);
      var s := prefix + [DigitChar(n % 10)];
      NatDigitsValue(n / 10);
      assert s[..|s| - 1] == prefix;
    }
  }

  /** Parsing what `%d` printed gives the number back. */
  lemma ParseFormatRoundTrip(n: int)
    requires InInt64(n)
    ensures ParseInt64(FormatInt(n)) == Some(n)
  {
    if n < 0 {
      NatDigitsValue(-n);
      assert FormatInt(n)[1..] == NatDigits(-n);
    } else {
      NatDigitsValue(n);
    }
  }

  /** Distinct numbers print differently (so `prefix:%d` keys never collide). */
  lemma FormatIntInjective(a: int, b: int)
    requires FormatInt(a) == FormatInt(b)
    ensures a == b
  {
    var s := FormatInt(a);
    if s[0] == '-' {
      // a digit string never starts with '-', so both numbers are negative
      assert a < 0 && b < 0;
      assert NatDigits(-a) == s[1..] == NatDigits(-b);
      NatDigitsValue(-a);
      NatDigitsValue(-b);
    } else {
      assert a >= 0 && b >= 0;
      NatDigitsValue(a);
      NatDigitsValue(b);
    }
  }

  /** Two's-complement wrap-around of a Go int64 result. */
  function WrapInt64(n: int): (r: int)
    ensures InInt64(r)
    ensures (r - n) % TWO_TO_64 == 0
    ensures InInt64(n) ==> r == n
  {
    var m := n % TWO_TO_64;
    if m > INT64_MAX then m - TWO_TO_64 else m
  }

  /** `strconv.ParseBool`. */
  function ParseBool(s: string): (r: Option<bool>)
    ensures r == Some(true) <==> s in {"1", "t", "T", "TRUE", "true", "True"}
    ensures r == Some(false) <==> s in {"0", "f", "F", "FALSE", "false", "False"}
  {
    if s in {"1", "t", "T", "TRUE", "true", "True"} then Some(true)
    else if s in {"0", "f", "F", "FALSE", "false", "False"} then Some(false)
    else None
  }
}
