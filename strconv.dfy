/** Go's `strconv.Atoi` on a 64-bit platform, as `getOrdersByUserIDHandler` uses it to read
    the `{id}` path segment (main.go:174): an optional `+` or `-`, one or more decimal digits,
    and a value that fits in `int`. Anything else is an error. */
module Strconv {
  import opened Common

  const MinInt: int := -0x8000_0000_0000_0000
  const MaxInt: int := 0x7fff_ffff_ffff_ffff

  predicate IsDigit(c: char) {
    '0' <= c <= '9'
  }

  predicate AllDigits(s: string) {
    forall j :: 0 <= j < |s| ==> IsDigit(s[j])
  }

  function DigitValue(c: char): nat
    requires IsDigit(c)
  {
    c as int - '0' as int
  }

  /** The value of a string of decimal digits, most significant first. */
  function DigitsValue(s: string): nat
    requires AllDigits(s)
  {
    if s == [] then 0 else DigitsValue(s[..|s| - 1]) * 10 + DigitValue(s[|s| - 1])
  }

  function Atoi(s: string): (r: Option<int>)
    ensures r.Some? ==> MinInt <= r.value <= MaxInt
    ensures r.Some? ==> s != [] && (IsDigit(s[0]) || s[0] == '-' || s[0] == '+')
    ensures r.Some? ==> forall j :: 0 < j < |s| ==> IsDigit(s[j])
    ensures r.Some? ==> exists j :: 0 <= j < |s| && IsDigit(s[j])
  {
    var signed := |s| > 0 && (s[0] == '-' || s[0] == '+');
    var digits := if signed then s[1..] else s;
    if digits == [] || !AllDigits(digits) then None
    else
      assert IsDigit(s[|s| - 1]) by {
        assert s[|s| - 1] == digits[|digits| - 1];
      }
      var n: int := if signed && s[0] == '-' then -(DigitsValue(digits) as int) else DigitsValue(digits);
      if MinInt <= n <= MaxInt then Some(n) else None
  }

  /** Decimal digits of a natural number, without leading zeros. */
  function NatToString(n: nat): (s: string)
    ensures s != [] && AllDigits(s)
  {
    var d := ['0' + (n % 10) as char];
    if n < 10 then d else NatToString(n / 10) + d
  }

  /** `strconv.Itoa`: the decimal form of an integer, with `-` for a negative one. */
  function Itoa(n: int): string {
    if n < 0 then "-" + NatToString(-n) else NatToString(n)
  }

  lemma {:induction false} NatToStringValue(n: nat)
    ensures DigitsValue(NatToString(n)) == n
  {
    var s := NatToString(n);
    var d := ['0' + (n % 10) as char];
    if n >= 10 {
      NatToStringValue(n / 10);
      assert s[..|s| - 1] == NatToString(n / 10);
    }
    assert s[|s| - 1] == d[0];
  }

  /** Every `int` printed in decimal reads back as itself, so a numeric path segment is
      accepted with its value. */
  lemma AtoiItoa(n: int)
    requires MinInt <= n <= MaxInt
    ensures Atoi(Itoa(n)) == Some(n)
  {
    if n < 0 {
      AtoiNegative(n);
    } else {
      AtoiNonNegative(n);
    }
  }

  lemma AtoiNegative(n: int)
    requires MinInt <= n < 0
    ensures Atoi(Itoa(n)) == Some(n)
  {
    var ds := NatToString(-n);
    NatToStringValue(-n);
    assert Itoa(n) == "-" + ds;
    assert ("-" + ds)[1..] == ds;
  }

  lemma AtoiNonNegative(n: int)
    requires 0 <= n <= MaxInt
    ensures Atoi(Itoa(n)) == Some(n)
  {
    var ds := NatToString(n);
    NatToStringValue(n);
    assert IsDigit(ds[0]);
  }
}
