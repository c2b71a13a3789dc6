/** Decimal text of natural numbers. */
module Decimal {
  import opened Wrappers
  import opened Utf16

  /** Without a sign and without leading zeros, as ECMAScript prints a safe integer. */
  function Digits(n: nat): (r: Text)
    ensures |r| >= 1 && AllDigits(r) && (n > 0 ==> r[0] != '0' as int)
  {
    if n < 10 then ['0' as int + n] else Digits(n / 10) + ['0' as int + n % 10]
  }

  function Value(s: Text): nat
    requires AllDigits(s)
  {
    if s == [] then 0 else 10 * Value(s[..|s| - 1]) + (s[|s| - 1] - '0' as int)
  }

  lemma {:induction false} ValueOfDigits(n: nat)
    ensures Value(Digits(n)) == n
  {
    if n < 10 {
      assert Digits(n)[..0] == [];
    } else {
      var front := Digits(n / 10);
      assert Digits(n)[..|front|] == front;
      ValueOfDigits(n / 10);
    }
  }

  lemma DigitsInjective(m: nat, n: nat)
    requires Digits(m) == Digits(n)
    ensures m == n
  {
    ValueOfDigits(m);
    ValueOfDigits(n);
  }

  /** The number a canonical decimal text names. */
  function ParseDigits(s: Text): (r: Option<nat>)
    ensures r.Some? ==> Digits(r.value) == s
  {
    if AllDigits(s) && Digits(Value(s)) == s then Some(Value(s)) else None
  }

  lemma ParseOfDigits(n: nat)
    ensures ParseDigits(Digits(n)) == Some(n)
  {
    ValueOfDigits(n);
  }

  lemma {:induction false} DigitsLength(n: nat, k: nat)
    requires k >= 1 && n < Power(10, k)
    ensures |Digits(n)| <= k
    decreases k
  {
    if n >= 10 {
      assert Power(10, 0) == 1;
      assert Power(10, k) == 10 * Power(10, k - 1);
      DigitsLength(n / 10, k - 1);
    }
  }

  function Power(b: nat, e: nat): nat {
    if e == 0 then 1 else b * Power(b, e - 1)
  }
}
