/**
 * Decimal rendering of integers, as Swift's string interpolation `"\(n)"`
 * writes an `Int`, and a reader for it that serves as its inverse.
 */
module Decimal {
  import opened Wrappers

  predicate IsDigit(c: char)
  {
    '0' <= c <= '9'
  }

  predicate AllDigits(s: string)
  {
    forall i :: 0 <= i < |s| ==> IsDigit(s[i])
  }

  function DigitChar(d: nat): (c: char)
    requires d < 10
    ensures IsDigit(c)
  {
    ('0' as int + d) as char
  }

  function DigitValue(c: char): (d: nat)
    requires IsDigit(c)
    ensures d < 10
  {
    c as int - '0' as int
  }

  /** Most significant digit first, no leading zeros. */
  function NatToDecimal(n: nat): (s: string)
    ensures |s| > 0 && AllDigits(s)
    ensures n > 0 ==> s[0] != '0'
    decreases n
  {
    if n < 10 then [DigitChar(n)] else NatToDecimal(n / 10) + [DigitChar(n % 10)]
  }

  /** A negative number is written with a leading `-`. */
  function IntToDecimal(n: int): (s: string)
    ensures |s| > 0
    ensures forall i :: 0 <= i < |s| ==> s[i] != ':'
  {
    if n < 0 then "-" + NatToDecimal(-n) else NatToDecimal(n)
  }

  function ParseNat(s: string): nat
    requires AllDigits(s)
  {
    if s == [] then 0 else 10 * ParseNat(s[..|s| - 1]) + DigitValue(s[|s| - 1])
  }

  /** Reads back what IntToDecimal writes: an optional `-`, then one or more digits. */
  function ParseInt(s: string): Option<int>
  {
    if |s| > 1 && s[0] == '-' && AllDigits(s[1..]) then Some(-(ParseNat(s[1..]) as int))
    else if |s| > 0 && AllDigits(s) then Some(ParseNat(s))
    else None
  }

  lemma {:induction false} NatToDecimalRoundTrip(n: nat)
    ensures ParseNat(NatToDecimal(n)) == n
    decreases n
  {
    if n >= 10 {
      var s := NatToDecimal(n);
      assert s[..|s| - 1] == NatToDecimal(n / 10);
      NatToDecimalRoundTrip(n / 10);
    }
  }

  /** Every integer is recovered from its decimal rendering. */
  lemma IntToDecimalRoundTrip(n: int)
    ensures ParseInt(IntToDecimal(n)) == Some(n)
  {
    if n < 0 {
      var s := IntToDecimal(n);
      assert s[1..] == NatToDecimal(-n);
      NatToDecimalRoundTrip(-n);
    } else {
      NatToDecimalRoundTrip(n);
    }
  }

  /** Swift's description of an `[Int]`: `[200, 207]`. */
  function IntArrayDescription(ns: seq<int>): (s: string)
    ensures |s| >= 2 && s[0] == '[' && s[|s| - 1] == ']'
    ensures ns == [] ==> s == "[]"
    ensures |ns| == 1 ==> s == "[" + IntToDecimal(ns[0]) + "]"
  {
    "[" + JoinInts(ns) + "]"
  }

  /** Each further element follows the first as `, ` and its decimal form. */
  lemma IntArrayDescriptionCons(n: int, rest: seq<int>)
    requires rest != []
    ensures IntArrayDescription([n] + rest) == "[" + IntToDecimal(n) + ", " + IntArrayDescription(rest)[1..]
  {
    assert ([n] + rest)[1..] == rest;
    assert IntArrayDescription(rest)[1..] == JoinInts(rest) + "]";
  }

  /** The PUT requests' accepted codes print as `[200, 207]`. */
  lemma PutCodesDescription()
    ensures IntArrayDescription([200, 207]) == "[200, 207]"
  {
    assert NatToDecimal(200) == "200" by {
      assert NatToDecimal(2) == "2";
      assert NatToDecimal(20) == "20";
    }
    assert NatToDecimal(207) == "207" by {
      assert NatToDecimal(2) == "2";
      assert NatToDecimal(20) == "20";
    }
    assert [200, 207][1..] == [207];
  }

  function JoinInts(ns: seq<int>): string
  {
    if ns == [] then ""
    else if |ns| == 1 then IntToDecimal(ns[0])
    else IntToDecimal(ns[0]) + ", " + JoinInts(ns[1..])
  }
}
