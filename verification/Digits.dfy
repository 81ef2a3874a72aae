/** Positional numerals: most significant digit first, no leading zeros. */
module Digits {

  lemma Quotient(n: nat, base: nat)
    requires base >= 2 && n >= base
    ensures 0 < n / base < n && 0 <= n % base < base
  {
  }

  function ToDigits(n: nat, base: nat): (ds: seq<nat>)
    requires base >= 2
    ensures |ds| >= 1
    ensures forall i :: 0 <= i < |ds| ==> ds[i] < base
    decreases n
  {
    if n < base then [n]
    else
      Quotient(n, base);
      ToDigits(n / base, base) + [n % base]
  }

  function FromDigits(ds: seq<nat>, base: nat): nat {
    if ds == [] then 0 else FromDigits(ds[..|ds| - 1], base) * base + ds[|ds| - 1]
  }

  lemma AppendDigit(ds: seq<nat>, d: nat, base: nat)
    ensures FromDigits(ds + [d], base) == FromDigits(ds, base) * base + d
  {
    assert (ds + [d])[..|ds|] == ds;
  }

  lemma OneDigit(d: nat, base: nat)
    ensures FromDigits([d], base) == d
  {
    assert [d][..0] == [];
    assert FromDigits([], base) * base == 0;
  }

  lemma DivMod(n: nat, base: nat, v: nat)
    requires base >= 2 && v == n / base
    ensures v * base + n % base == n
  {
  }

  lemma {:induction false} DigitsRoundTrip(n: nat, base: nat)
    requires base >= 2
    ensures FromDigits(ToDigits(n, base), base) == n
    decreases n
  {
    if n < base {
      OneDigit(n, base);
    } else {
      Quotient(n, base);
      var ds := ToDigits(n / base, base);
      DigitsRoundTrip(n / base, base);
      AppendDigit(ds, n % base, base);
      DivMod(n, base, FromDigits(ds, base));
    }
  }

  /** A numeral of n has at most k digits when n < base^k. */
  function Pow(base: nat, k: nat): nat {
    if k == 0 then 1 else base * Pow(base, k - 1)
  }

  lemma {:induction false} DigitCount(n: nat, base: nat, k: nat)
    requires base >= 2 && k >= 1
    requires n < Pow(base, k)
    ensures |ToDigits(n, base)| <= k
    decreases k
  {
    if n >= base {
      assert k > 1;
      assert n / base < Pow(base, k - 1) by {
        var q := n / base;
        assert base * q <= n < base * Pow(base, k - 1);
        if q >= Pow(base, k - 1) {
          MulMonotone(base, Pow(base, k - 1), q);
        }
      }
      DigitCount(n / base, base, k - 1);
    }
  }

  lemma MulMonotone(a: nat, x: nat, y: nat)
    requires x <= y
    ensures a * x <= a * y
  {
  }

  /** Zeros in front do not change the value. */
  lemma {:induction false} LeadingZeros(zeros: nat, ds: seq<nat>, base: nat)
    ensures FromDigits(seq(zeros, _ => 0) + ds, base) == FromDigits(ds, base)
    decreases |ds|, zeros
  {
    var padded := seq(zeros, _ => 0) + ds;
    if |ds| > 0 {
      assert padded[..|padded| - 1] == seq(zeros, _ => 0) + ds[..|ds| - 1];
      LeadingZeros(zeros, ds[..|ds| - 1], base);
    } else if zeros > 0 {
      assert padded[..|padded| - 1] == seq(zeros - 1, _ => 0) + [];
      LeadingZeros(zeros - 1, [], base);
      assert padded[|padded| - 1] == 0;
    }
  }
}
