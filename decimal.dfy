/**
 * Signed 32-bit decimal numbers as the source reads and writes them:
 * `str::parse::<i32>` and `i32::to_string`.
 */
module Decimal {
  import opened Wrappers

  const MinInt32: int := -0x8000_0000
  const MaxInt32: int := 0x7FFF_FFFF

  /** Rust's `i32`. */
  type Int32 = x: int | MinInt32 <= x <= MaxInt32

  predicate InInt32(n: int) {
    MinInt32 <= n <= MaxInt32
  }

  predicate IsDigit(c: char) {
    '0' <= c <= '9'
  }

  predicate AllDigits(s: string) {
    forall i :: 0 <= i < |s| ==> IsDigit(s[i])
  }

  function DigitValue(c: char): (d: nat)
    requires IsDigit(c)
    ensures d < 10
  {
    c as int - '0' as int
  }

  function DigitChar(d: nat): (c: char)
    requires d < 10
    ensures IsDigit(c) && DigitValue(c) == d
  {
    ('0' as int + d) as char
  }

  /** The value of a string of ASCII digits, read left to right. */
  function DigitsValue(s: string): nat
    requires AllDigits(s)
    decreases |s|
  {
    if |s| == 0 then 0 else DigitsValue(s[..|s| - 1]) * 10 + DigitValue(s[|s| - 1])
  }

  /**
   * `str::parse::<i32>`: an optional `+` or `-`, then one or more ASCII
   * digits, and the value must lie in the i32 range. A lone sign, an empty
   * string, any other character or an out-of-range value is a parse error.
   */
  function ParseInt32(s: string): (r: Option<Int32>)
    ensures r.Some? ==> |s| > 0 && AllDigits(s[1..]) && (IsDigit(s[0]) || s[0] == '+' || s[0] == '-')
    ensures r.Some? && s[0] != '-' ==> r.value >= 0
  {
    if |s| == 0 then None
    else
      var digits := if s[0] == '+' || s[0] == '-' then s[1..] else s;
      if |digits| == 0 || !AllDigits(digits) then None
      else
        var v: int := if s[0] == '-' then -(DigitsValue(digits) as int) else DigitsValue(digits);
        if MinInt32 <= v <= MaxInt32 then Some(v) else None
  }

  /** The digits of `n` with no leading zero. */
  function NatToDecimal(n: nat): (s: string)
    ensures |s| > 0 && AllDigits(s) && DigitsValue(s) == n
    ensures s[0] == '0' ==> n == 0 && s == "0"
    decreases n
  {
    if n < 10 then [DigitChar(n)] else NatToDecimal(n / 10) + [DigitChar(n % 10)]
  }

  /** `to_string` on an integer: canonical decimal, `-` for negatives, no `+`. */
  function FormatInt(n: int): string
  {
    if n < 0 then "-" + NatToDecimal(-n) else NatToDecimal(n)
  }

  /** The strings `FormatInt` produces: no `+`, no leading zero, no `-0`. */
  predicate IsCanonical(s: string) {
    |s| > 0 && s[0] != '+' &&
    if s[0] == '-' then |s| > 1 && s[1] != '0' else s[0] != '0' || |s| == 1
  }

  /** Reading back what `to_string` wrote gives the number again. */
  lemma ParseFormatRoundTrip(n: Int32)
    ensures ParseInt32(FormatInt(n)) == Some(n)
  {
    if n < 0 {
      var d := NatToDecimal(-(n as int));
      assert ("-" + d)[1..] == d;
    }
  }

  /** A digit string with no leading zero is the decimal form of its own value. */
  lemma {:induction false} DigitsCanonical(d: string)
    requires |d| > 0 && AllDigits(d)
    requires d[0] != '0' || |d| == 1
    ensures NatToDecimal(DigitsValue(d)) == d
    decreases |d|
  {
    if |d| > 1 {
      var init := d[..|d| - 1];
      assert AllDigits(init);
      DigitsPositive(init);
      DigitsCanonical(init);
      var n := DigitsValue(d);
      assert n / 10 == DigitsValue(init) && n % 10 == DigitValue(d[|d| - 1]);
      assert d == init + [d[|d| - 1]];
    }
  }

  lemma {:induction false} DigitsPositive(d: string)
    requires |d| > 0 && AllDigits(d) && d[0] != '0'
    ensures DigitsValue(d) > 0
    decreases |d|
  {
    if |d| > 1 {
      var init := d[..|d| - 1];
      assert AllDigits(init);
      DigitsPositive(init);
    }
  }

  /** Every string `to_string` writes is canonical. */
  lemma FormatIsCanonical(n: int)
    ensures IsCanonical(FormatInt(n))
  {
    if n < 0 {
      var d := NatToDecimal(-n);
      assert FormatInt(n) == "-" + d;
      assert ("-" + d)[1] == d[0];
    }
  }

  /** A canonical numeral is the one `to_string` writes for its value. */
  lemma CanonicalIsFormat(s: string)
    requires ParseInt32(s).Some? && IsCanonical(s)
    ensures FormatInt(ParseInt32(s).value) == s
  {
    if s[0] == '-' {
      var digits := s[1..];
      DigitsPositive(digits);
      DigitsCanonical(digits);
      assert s == "-" + digits;
    } else {
      DigitsCanonical(s);
    }
  }

  /**
   * Parsing then formatting gives back the input exactly when the input
   * was canonical: "007" and "+5" come back as "7" and "5".
   */
  lemma FormatParseCanonical(s: string)
    requires ParseInt32(s).Some?
    ensures FormatInt(ParseInt32(s).value) == s <==> IsCanonical(s)
  {
    FormatIsCanonical(ParseInt32(s).value);
    if IsCanonical(s) {
      CanonicalIsFormat(s);
    }
  }

  /** Leading zeros are accepted but not written back: "007" steps to "8". */
  lemma ParseLeadingZerosExample()
    ensures ParseInt32("007") == Some(7) && FormatInt(7 + 1) == "8"
  {
    assert "007"[..2] == "00" && "00"[..1] == "0" && "0"[..0] == "";
    assert DigitsValue("00") == 0;
    assert DigitsValue("007") == 7;
  }

  /** A `+` sign is accepted but not written back: "+5" steps to "6". */
  lemma ParsePlusExample()
    ensures ParseInt32("+5") == Some(5) && FormatInt(5 + 1) == "6"
  {
    assert "+5"[1..] == "5";
    assert "5"[..0] == "";
  }

  /** A `-` sign gives a negative value. */
  lemma ParseMinusExample()
    ensures ParseInt32("-12") == Some(-12)
  {
    assert "-12"[1..] == "12";
    assert "12"[..1] == "1" && "1"[..0] == "";
    assert DigitsValue("12") == 12;
  }

  /** Strings that are not a signed run of digits do not parse. */
  lemma ParseRejectExamples()
    ensures ParseInt32("") == None && ParseInt32("+") == None && ParseInt32("-") == None
    ensures ParseInt32("page6") == None && ParseInt32("+-1") == None
  {
    assert "+"[1..] == "" && "-"[1..] == "";
    assert "+-1"[1..] == "-1";
  }

  /** A number outside the i32 range, written out, does not parse: the range is enforced. */
  lemma ParseRejectsOutOfRange(n: int)
    requires !InInt32(n)
    ensures ParseInt32(FormatInt(n)) == None
  {
    if n < 0 {
      var d := NatToDecimal(-n);
      assert ("-" + d)[1..] == d;
    }
  }
}
