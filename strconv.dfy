/**
 * The two base-10 conversions of Go's strconv package that the handlers use:
 * ParseInt(s, 10, 64) on the path id, and FormatInt(id, 10) in the list
 * filter. Both are stated over unbounded integers with the int64 range
 * written out.
 */
module StrConv {
  import opened Outcomes

  const MinInt64: int := -0x8000_0000_0000_0000
  const MaxInt64: int := 0x7fff_ffff_ffff_ffff

  /** Go's int64. */
  type Int64 = x: int | MinInt64 <= x <= MaxInt64

  predicate IsDigit(c: char) {
    '0' <= c <= '9'
  }

  predicate AllDigits(s: string) {
    forall i :: 0 <= i < |s| ==> IsDigit(s[i])
  }

  function DigitValue(c: char): nat
    requires IsDigit(c)
  {
    c as int - '0' as int
  }

  function DigitChar(d: nat): char
    requires d < 10
  {
    (d + '0' as int) as char
  }

  /** The value of a string of decimal digits, most significant first. */
  function DecimalValue(s: string): nat
    requires AllDigits(s)
    decreases |s|
  {
    if s == [] then 0 else DecimalValue(s[..|s| - 1]) * 10 + DigitValue(s[|s| - 1])
  }

  /** The shortest decimal spelling of n: no sign and no leading zero. */
  function NatToDecimal(n: nat): string
    decreases n
  {
    if n < 10 then [DigitChar(n)] else NatToDecimal(n / 10) + [DigitChar(n % 10)]
  }

  /** strconv.FormatInt(n, 10): a minus sign for negative values, then the digits. */
  function FormatInt(n: int): string {
    if n < 0 then "-" + NatToDecimal(-n) else NatToDecimal(n)
  }

  /**
   * strconv.ParseInt(s, 10, 64): an optional '+' or '-', then at least one
   * decimal digit (leading zeros allowed, no underscores in base 10), and the
   * value must fit in an int64. None stands for the syntax and range errors.
   */
  function ParseInt64(s: string): Option<Int64> {
    if s == [] then None
    else
      var neg := s[0] == '-';
      var digits := if s[0] == '+' || s[0] == '-' then s[1..] else s;
      if digits == [] || !AllDigits(digits) then None
      else
        var u := DecimalValue(digits);
        if !neg && u > MaxInt64 then None
        else if neg && u > -MinInt64 then None
        else
          var v: int := if neg then -(u as int) else u;
          Some(v)
  }

  /** The spelling of n is a non-empty digit string whose value is n. */
  lemma {:induction false} NatToDecimalValue(n: nat)
    ensures |NatToDecimal(n)| >= 1 && AllDigits(NatToDecimal(n))
    ensures DecimalValue(NatToDecimal(n)) == n
    decreases n
  {
    var s := NatToDecimal(n);
    if n >= 10 {
      NatToDecimalValue(n / 10);
      var prefix := NatToDecimal(n / 10);
      assert s == prefix + [DigitChar(n % 10)];
      assert s[..|s| - 1] == prefix;
      assert AllDigits(s) by {
        forall i | 0 <= i < |s| ensures IsDigit(s[i]) {
          if i < |prefix| { assert s[i] == prefix[i]; }
        }
      }
      assert DecimalValue(s) == DecimalValue(prefix) * 10 + n % 10;
    }
  }

  /** The spelling of n starts with '0' only when n is zero, and then it is "0". */
  lemma {:induction false} NatToDecimalNoLeadingZero(n: nat)
    ensures NatToDecimal(n)[0] == '0' ==> n == 0
    decreases n
  {
    if n >= 10 {
      NatToDecimalNoLeadingZero(n / 10);
      NatToDecimalValue(n / 10);
      assert NatToDecimal(n)[0] == NatToDecimal(n / 10)[0];
    }
  }

  /** Parsing the formatted spelling of an int64 gives the int64 back. */
  lemma FormatParseRoundTrip(n: Int64)
    ensures ParseInt64(FormatInt(n)) == Some(n)
  {
    if n < 0 {
      var m: nat := -(n as int);
      NatToDecimalValue(m);
      var s := FormatInt(n);
      assert s[0] == '-' && s[1..] == NatToDecimal(m);
    } else {
      NatToDecimalValue(n);
    }
  }

  /** Two int64 values with the same spelling are equal. */
  lemma FormatIntInjective(a: Int64, b: Int64)
    requires FormatInt(a) == FormatInt(b)
    ensures a == b
  {
    FormatParseRoundTrip(a);
    FormatParseRoundTrip(b);
  }

  /**
   * A string of two or more characters that starts with '0' (such as "007") is
   * never the spelling of any integer, although ParseInt64 accepts it.
   */
  lemma LeadingZeroNeverFormatted(s: string, n: int)
    requires |s| >= 2 && s[0] == '0'
    ensures FormatInt(n) != s
  {
    if n >= 0 {
      NatToDecimalNoLeadingZero(n);
      if n < 10 {
        assert |FormatInt(n)| == 1;
      }
    }
  }

  /**
   * Examples of the path ids ParseInt64 accepts and rejects: signs and leading
   * zeros are accepted; the empty string, a bare sign and a non-digit are
   * rejected.
   */
  lemma ParseInt64Examples()
    ensures ParseInt64("42") == Some(42)
    ensures ParseInt64("+7") == Some(7) && ParseInt64("007") == Some(7)
    ensures ParseInt64("-5") == Some(-5)
    ensures ParseInt64("") == None && ParseInt64("+") == None && ParseInt64("-") == None
    ensures ParseInt64("1a") == None && ParseInt64(" 1") == None
  {
    assert "42"[..1] == "4" && DecimalValue("4") == 4;
    assert "+7"[1..] == "7";
    assert "007"[..2] == "00" && "00"[..1] == "0";
    assert "-5"[1..] == "5";
    assert !IsDigit("1a"[1]);
    assert !IsDigit(" 1"[0]);
  }
}
