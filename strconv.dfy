/**
 * Decimal rendering of integers (fmt's %d verb) and base-10 parsing of int64
 * (strconv.ParseInt(s, 10, 64) with its error discarded, as the pet resource
 * uses it), with the round trip the resource relies on: a stored id parses
 * back to the id it was rendered from.
 */
module Strconv {
  import opened Framework

  predicate IsDigit(c: char) { '0' <= c <= '9' }

  predicate AllDigits(s: string) {
    forall i :: 0 <= i < |s| ==> IsDigit(s[i])
  }

  function DigitChar(d: nat): (c: char)
    requires d < 10
    ensures IsDigit(c)
  {
    ('0' as int + d) as char
  }

  function DigitValue(c: char): (d: nat)
    requires IsDigit(c)
    ensures d < 10
  {
    c as int - '0' as int
  }

  /** The decimal digits of n, most significant first: never empty, only digits,
      and no leading zero except for "0" itself. */
  function NatDigits(n: nat): (s: string)
    ensures |s| >= 1 && AllDigits(s)
    ensures s[0] == '0' ==> n == 0
    decreases n
  {
    if n < 10 then [DigitChar(n)] else NatDigits(n / 10) + [DigitChar(n % 10)]
  }

  /** fmt.Sprintf("%d", n): a minus sign exactly for a negative number,
      followed by the digits of its magnitude, with no leading zero. */
  function FormatInt(n: int): (s: string)
    ensures |s| >= 1 && (s[0] == '-' <==> n < 0)
    ensures n < 0 ==> |s| >= 2 && AllDigits(s[1..]) && s[1] != '0'
    ensures n >= 0 ==> AllDigits(s) && (s[0] == '0' ==> n == 0)
  {
    if n < 0 then
      assert ("-" + NatDigits(-n))[1..] == NatDigits(-n);
      "-" + NatDigits(-n)
    else NatDigits(n)
  }

  /** The number a digit string denotes. */
  function DigitsValue(s: string): nat
    requires AllDigits(s)
    decreases |s|
  {
    if s == [] then 0 else DigitsValue(s[..|s| - 1]) * 10 + DigitValue(s[|s| - 1])
  }

  /** strconv.ParseInt(s, 10, 64), keeping only the value: an optional sign
      followed by one or more digits is read and clamped to the int64 range
      (the range-error result); anything else is a syntax error, read as 0. */
  function ParseInt(s: string): (r: Int64)
    ensures s == [] ==> r == 0
    ensures |s| >= 1 && !IsDigit(s[0]) && s[0] != '-' && s[0] != '+' ==> r == 0
    ensures r < 0 ==> |s| >= 2 && s[0] == '-'
  {
    if s == [] then 0
    else
      var neg := s[0] == '-';
      var body := if s[0] == '-' || s[0] == '+' then s[1..] else s;
      if body == [] || !AllDigits(body) then 0
      else
        var v: int := DigitsValue(body);
        if !neg then (if v > MaxInt64 then MaxInt64 else v)
        else (if v > -MinInt64 then MinInt64 else -v)
  }

  lemma {:induction false} NatDigitsValue(n: nat)
    ensures DigitsValue(NatDigits(n)) == n
    decreases n
  {
    if n >= 10 {
      var s := NatDigits(n / 10);
      var t := s + [DigitChar(n % 10)];
      assert t[..|t| - 1] == s;
      NatDigitsValue(n / 10);
    }
  }

  /** Any integer rendered with %d reads back as itself when it fits in an
      int64, and as the nearer int64 bound when it does not. */
  lemma ParseFormatIntClamps(n: int)
    ensures ParseInt(FormatInt(n)) == (if n > MaxInt64 then MaxInt64 else if n < MinInt64 then MinInt64 else n)
  {
    if n < 0 {
      var m: nat := -n;
      assert FormatInt(n)[1..] == NatDigits(m);
      NatDigitsValue(m);
    } else {
      NatDigitsValue(n);
    }
  }

  /** Every int64 rendered with %d parses back to itself. */
  lemma ParseFormatInt(n: Int64)
    ensures ParseInt(FormatInt(n)) == n
  {
    ParseFormatIntClamps(n);
  }

  /** Hence distinct int64 values have distinct decimal renderings. */
  lemma FormatIntInjective(a: Int64, b: Int64)
    ensures FormatInt(a) == FormatInt(b) ==> a == b
  {
    ParseFormatInt(a);
    ParseFormatInt(b);
  }

  /** Syntax errors read as 0: the empty string a null or unknown id renders
      as, a lone sign, a string starting with neither a sign nor a digit, and
      a rendered int64 followed by a stray character. */
  lemma ParseIntSyntaxError(n: Int64, c: char, rest: string)
    ensures ParseInt("") == 0 && ParseInt("-") == 0 && ParseInt("+") == 0
    ensures !IsDigit(c) && c != '-' && c != '+' ==> ParseInt([c] + rest) == 0
    ensures !IsDigit(c) ==> ParseInt(FormatInt(n) + [c]) == 0
  {
  }
}
