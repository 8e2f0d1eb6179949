/** Decimal text of natural numbers, as bytes. */
module Decimal {
  type byte = b: int | 0 <= b < 256

  const ZERO: byte := 48

  predicate IsDigit(b: byte) { ZERO <= b < ZERO + 10 }

  predicate AllDigits(s: seq<byte>) { forall i :: 0 <= i < |s| ==> IsDigit(s[i]) }

  function Digits(n: nat): (s: seq<byte>)
    ensures AllDigits(s) && |s| > 0
  {
    if n < 10 then [ZERO + n] else Digits(n / 10) + [ZERO + n % 10]
  }

  function Value(s: seq<byte>): nat
    requires AllDigits(s)
  {
    if s == [] then 0 else Value(s[..|s| - 1]) * 10 + (s[|s| - 1] - ZERO)
  }

  lemma {:induction false} ValueOfDigits(n: nat)
    ensures Value(Digits(n)) == n
  {
    if n >= 10 {
      ValueOfDigits(n / 10);
      assert Digits(n)[..|Digits(n)| - 1] == Digits(n / 10);
    }
  }

  lemma FourDigits(n: nat)
    requires n >= 10000
    ensures |Digits(n)| == |Digits(n / 10000)| + 4
  {
    assert n / 10 / 10 == n / 100 && n / 100 / 10 == n / 1000 && n / 1000 / 10 == n / 10000;
    assert |Digits(n)| == |Digits(n / 10)| + 1;
    assert |Digits(n / 10)| == |Digits(n / 100)| + 1;
    assert |Digits(n / 100)| == |Digits(n / 1000)| + 1;
  }

  /** Counts the digits of a number four at a time. */
  method CountDigits(n: nat) returns (result: nat)
    ensures result == |Digits(n)|
  {
    result := 1;
    var v := n;
    while true
      invariant result + |Digits(v)| == |Digits(n)| + 1
      decreases v
    {
      if v < 10 { return; }
      if v < 100 { return result + 1; }
      if v < 1000 { return result + 2; }
      if v < 10000 {
        assert |Digits(v)| == |Digits(v / 10)| + 1 && |Digits(v / 10)| == |Digits(v / 10 / 10)| + 1;
        return result + 3;
      }
      FourDigits(v);
      v := v / 10000;
      result := result + 4;
    }
  }

  /** The length of the longest prefix made of digits. */
  function DigitRun(s: seq<byte>): (k: nat)
    ensures k <= |s| && AllDigits(s[..k]) && (k < |s| ==> !IsDigit(s[k]))
  {
    if s == [] || !IsDigit(s[0]) then 0
    else
      var k := DigitRun(s[1..]);
      assert s[..k + 1] == [s[0]] + s[1..][..k];
      k + 1
  }

  /** The run is determined by its two defining properties. */
  lemma DigitRunUnique(s: seq<byte>, k: nat)
    requires k <= |s| && AllDigits(s[..k]) && (k < |s| ==> !IsDigit(s[k]))
    ensures DigitRun(s) == k
  {
    var j := DigitRun(s);
    assert forall i :: 0 <= i < k ==> s[..k][i] == s[i];
    assert forall i :: 0 <= i < j ==> s[..j][i] == s[i];
  }
}
