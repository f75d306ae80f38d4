/** Unsigned decimal formatting as printf's `%u` writes it, in ASCII bytes. */
module Decimal {
  import opened CFTypes

  predicate IsDigit(b: byte) { '0' as int <= b <= '9' as int }

  /** `%u` of n: the decimal digits of n, most significant first, no leading zero. */
  function DecimalString(n: nat): (r: CString)
    ensures |r| >= 1
    ensures forall i :: 0 <= i < |r| ==> IsDigit(r[i])
    ensures |r| > 1 ==> r[0] != '0' as int
  {
    if n < 10 then ['0' as int + n] else DecimalString(n / 10) + ['0' as int + n % 10]
  }

  /** The number a string of decimal digits denotes. */
  function DecimalValue(s: seq<byte>): nat
    requires forall i :: 0 <= i < |s| ==> IsDigit(s[i])
  {
    if s == [] then 0
    else
      assert IsDigit(s[|s| - 1]);
      DecimalValue(s[..|s| - 1]) * 10 + (s[|s| - 1] - '0' as int)
  }

  /** Reading the digits back gives the number that was formatted. */
  lemma {:induction false} DecimalRoundTrip(n: nat)
    ensures DecimalValue(DecimalString(n)) == n
  {
    if n >= 10 {
      var s := DecimalString(n);
      assert s[..|s| - 1] == DecimalString(n / 10);
      DecimalRoundTrip(n / 10);
    }
  }

  function Pow10(k: nat): nat {
    if k == 0 then 1 else 10 * Pow10(k - 1)
  }

  /** A number below 10^k takes at most k digits (k >= 1). */
  lemma {:induction false} DecimalLengthBound(n: nat, k: nat)
    requires 1 <= k && n < Pow10(k)
    ensures |DecimalString(n)| <= k
  {
    if n >= 10 {
      assert Pow10(1) == 10;
      DecimalLengthBound(n / 10, k - 1);
    }
  }

  /** Any 32-bit unsigned value takes at most ten digits ("4294967295"). */
  lemma UInt32DecimalLength(n: uint32)
    ensures |DecimalString(n)| <= 10
  {
    assert Pow10(10) == 10000000000;
    DecimalLengthBound(n, 10);
  }
}
