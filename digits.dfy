/**
 * Decimal notation of non-negative integers, as `std::to_string` and the
 * `<<` operator of an output stream write them, and its reading back.
 */
module Digits {

  import opened Base

  predicate IsDigit(c: char)
  {
    '0' <= c <= '9'
  }

  predicate AllDigits(s: string)
  {
    forall i :: 0 <= i < |s| ==> IsDigit(s[i])
  }

  function DigitChar(d: nat): (c: char)
    requires d < 10
    ensures IsDigit(c)
  {
    ('0' as int + d) as char
  }

  function DigitValue(c: char): nat
    requires IsDigit(c)
  {
    c as int - '0' as int
  }

  /** The decimal notation of `n`: digits only, no leading zero. */
  function Decimal(n: nat): (s: string)
    ensures |s| >= 1 && AllDigits(s)
    ensures s[0] == '0' ==> n == 0
  {
    if n < 10 then [DigitChar(n)] else Decimal(n / 10) + [DigitChar(n % 10)]
  }

  /** The number a string of digits denotes. */
  function ValueOf(s: string): nat
    requires AllDigits(s)
  {
    if s == [] then 0 else ValueOf(s[..|s| - 1]) * 10 + DigitValue(s[|s| - 1])
  }

  /** Reads a non-empty string of digits; anything else is not a number. */
  function ParseNat(s: string): Option<nat>
  {
    if s != [] && AllDigits(s) then Some(ValueOf(s)) else None
  }

  lemma {:induction false} DecimalRoundTrip(n: nat)
    ensures ValueOf(Decimal(n)) == n
    ensures ParseNat(Decimal(n)) == Some(n)
  {
    var s := Decimal(n);
    if n >= 10 {
      DecimalRoundTrip(n / 10);
      assert s[..|s| - 1] == Decimal(n / 10);
      assert DigitValue(s[|s| - 1]) == n % 10;
    } else {
      assert s[..|s| - 1] == [];
    }
  }

  /** Distinct numbers have distinct notations. */
  lemma DecimalInjective(a: nat, b: nat)
    ensures Decimal(a) == Decimal(b) ==> a == b
  {
    DecimalRoundTrip(a);
    DecimalRoundTrip(b);
  }

  /** The notations of the numbers below `n`: the keys of an object keyed by `0 .. n-1`. */
  function DecimalsBelow(n: nat): set<string>
  {
    set k | 0 <= k < n :: Decimal(k)
  }

  lemma DecimalsBelowStep(n: nat)
    ensures DecimalsBelow(n + 1) == DecimalsBelow(n) + {Decimal(n)}
    ensures Decimal(n) !in DecimalsBelow(n)
  {
    assert Decimal(n) in DecimalsBelow(n + 1);
    forall k | 0 <= k < n
      ensures Decimal(k) != Decimal(n)
    {
      DecimalInjective(k, n);
    }
  }
}
