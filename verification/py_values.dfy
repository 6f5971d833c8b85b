/**
 * The Python values a connection configuration dict may hold, together with
 * the two Python built-ins the connection manager applies to them:
 * truthiness (`bool(v)`, used by `all(config.values())`) and string
 * conversion (`str(v)`, used by the f-string that builds the URL).
 */
module PyValues {

  /** A configuration value. */
  datatype Value = Str(s: string) | Int(i: int) | Bool(b: bool) | NoneValue

  /** `bool(v)`: empty strings, zero, False and None are falsy. */
  predicate Truthy(v: Value)
    ensures !Truthy(v) <==> v in {Str(""), Int(0), Bool(false), NoneValue}
  {
    match v
    case Str(s) => |s| > 0
    case Int(i) => i != 0
    case Bool(b) => b
    case NoneValue => false
  }

  predicate IsDigit(c: char) {
    '0' <= c <= '9'
  }

  predicate AllDigits(s: string) {
    forall i :: 0 <= i < |s| ==> IsDigit(s[i])
  }

  function DigitChar(d: nat): (c: char)
    requires d < 10
    ensures IsDigit(c)
    ensures c as int - '0' as int == d
  {
    ('0' as int + d) as char
  }

  function DigitValue(c: char): (d: nat)
    requires IsDigit(c)
    ensures d < 10
    ensures DigitChar(d) == c
  {
    c as int - '0' as int
  }

  /** The decimal digits of `n`, most significant first, without leading zeros. */
  function NatToString(n: nat): (r: string)
    ensures |r| >= 1
    ensures AllDigits(r)
    ensures r[0] == '0' ==> n == 0
  {
    if n < 10 then [DigitChar(n)] else NatToString(n / 10) + [DigitChar(n % 10)]
  }

  /** Reads a run of decimal digits back as a number: the reference reading of `NatToString`. */
  function ParseNat(s: string): nat
    requires AllDigits(s)
  {
    if |s| == 0 then 0 else 10 * ParseNat(s[..|s| - 1]) + DigitValue(s[|s| - 1])
  }

  /** `str(i)` for a Python int: a minus sign before the digits of a negative number. */
  function IntToString(i: int): (r: string)
    ensures |r| >= 1
    ensures IsDigit(r[0]) || r[0] == '-'
    ensures forall k :: 1 <= k < |r| ==> IsDigit(r[k])
    ensures r[0] == '-' <==> i < 0
    ensures r[0] == '-' ==> |r| >= 2
    ensures |r| >= 2 ==> r[0] != '0' && r[..2] != "-0"
  {
    if i < 0 then
      var digits := NatToString(-i);
      var r := "-" + digits;
      assert r[1] == digits[0] != '0';
      assert r[..2] == [r[0], r[1]];
      r
    else
      NatToString(i)
  }

  /** Reads the output of `IntToString` back. */
  function ParseInt(s: string): int
    requires |s| >= 1
    requires s[0] == '-' ==> AllDigits(s[1..])
    requires s[0] != '-' ==> AllDigits(s)
  {
    if s[0] == '-' then -(ParseNat(s[1..]) as int) else ParseNat(s)
  }

  /** `str(v)` as an f-string placeholder renders a configuration value. */
  function Format(v: Value): (r: string)
    ensures v.Str? ==> r == v.s
    ensures v.Int? ==> r == IntToString(v.i)
    ensures v.Bool? ==> r == (if v.b then "True" else "False")
    ensures v == NoneValue ==> r == "None"
  {
    match v
    case Str(s) => s
    case Int(i) => IntToString(i)
    case Bool(b) => if b then "True" else "False"
    case NoneValue => "None"
  }

  lemma {:induction false} ParseNatToString(n: nat)
    ensures ParseNat(NatToString(n)) == n
  {
    if n >= 10 {
      var s := NatToString(n);
      assert s == NatToString(n / 10) + [DigitChar(n % 10)];
      assert s[..|s| - 1] == NatToString(n / 10);
      ParseNatToString(n / 10);
    }
  }

  /** Printing an int and reading it back yields the same int. */
  lemma ParseIntToString(i: int)
    ensures ParseInt(IntToString(i)) == i
  {
    if i < 0 {
      var s := IntToString(i);
      assert s[1..] == NatToString(-i);
      ParseNatToString(-i);
    } else {
      ParseNatToString(i);
    }
  }

  /** Distinct ints print differently, so a port number is never confused with another. */
  lemma IntToStringInjective(i: int, j: int)
    requires IntToString(i) == IntToString(j)
    ensures i == j
  {
    ParseIntToString(i);
    ParseIntToString(j);
  }
}
