/**
 * Decimal text of integers: Python's `str(n)` for an int, `int(s)` for a run of
 * ASCII digits, and `"".join(str(a) for a in xs)`.
 */
module Decimal {

  predicate IsDigit(c: char)
  {
    '0' <= c <= '9'
  }

  predicate AllDigits(s: string)
  {
    forall i :: 0 <= i < |s| ==> IsDigit(s[i])
  }

  function DigitChar(d: nat): (c: char)
    requires d < 10
    ensures IsDigit(c)
  {
    (('0' as int) + d) as char
  }

  function DigitValue(c: char): (d: nat)
    requires IsDigit(c)
    ensures d < 10 && DigitChar(d) == c
  {
    (c as int) - ('0' as int)
  }

  /** `str(n)` for a non-negative int: no leading zeros. */
  function NatToString(n: nat): (s: string)
    ensures |s| > 0 && AllDigits(s)
    ensures n < 10 <==> |s| == 1
  {
    if n < 10 then [DigitChar(n)] else NatToString(n / 10) + [DigitChar(n % 10)]
  }

  /** `str(i)` for any int. */
  function IntToString(i: int): (s: string)
    ensures |s| > 0
    ensures i >= 0 <==> AllDigits(s)
  {
    if i < 0 then
      var s := "-" + NatToString(-i);
      assert !IsDigit(s[0]);
      s
    else
      NatToString(i)
  }

  /** `int(s)` for a string of ASCII digits (leading zeros allowed). */
  function DigitsValue(s: string): nat
    requires AllDigits(s)
  {
    if |s| == 0 then 0 else DigitsValue(s[..|s| - 1]) * 10 + DigitValue(s[|s| - 1])
  }

  /** Reading back what `str` wrote gives the number again. */
  lemma {:induction false} DigitsValueOfNatToString(n: nat)
    ensures DigitsValue(NatToString(n)) == n
  {
    var s := NatToString(n);
    if n >= 10 {
      assert s[..|s| - 1] == NatToString(n / 10);
      DigitsValueOfNatToString(n / 10);
    }
  }

  /** `"".join(str(a) for a in xs)` */
  function JoinInts(xs: seq<int>): (s: string)
    ensures |s| >= |xs|
  {
    if |xs| == 0 then "" else JoinInts(xs[..|xs| - 1]) + IntToString(xs[|xs| - 1])
  }

  predicate SingleDigits(xs: seq<int>)
  {
    forall i :: 0 <= i < |xs| ==> 0 <= xs[i] < 10
  }

  /** For single-digit entries the joined text has one character per entry. */
  lemma {:induction false} JoinSingleDigits(xs: seq<int>)
    requires SingleDigits(xs)
    ensures |JoinInts(xs)| == |xs|
    ensures forall i :: 0 <= i < |xs| ==> JoinInts(xs)[i] == DigitChar(xs[i])
  {
    if |xs| > 0 {
      JoinSingleDigits(xs[..|xs| - 1]);
    }
  }

  /** Joined single-digit sequences are equal exactly when the sequences are. */
  lemma JoinSingleDigitsInjective(xs: seq<int>, ys: seq<int>)
    requires SingleDigits(xs) && SingleDigits(ys)
    ensures JoinInts(xs) == JoinInts(ys) <==> xs == ys
  {
    JoinSingleDigits(xs);
    JoinSingleDigits(ys);
    if JoinInts(xs) == JoinInts(ys) {
      forall i | 0 <= i < |xs|
        ensures xs[i] == ys[i]
      {
        assert DigitChar(xs[i]) == DigitChar(ys[i]);
        assert DigitValue(DigitChar(xs[i])) == xs[i];
      }
    }
  }
}
