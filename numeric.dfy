/** Exact arithmetic helpers shared by the projection engine and reverse pricing:
    powers, left-to-right sums, truncation toward zero and compounding series. */
module Numeric {

  function Min(a: int, b: int): int {
    if a <= b then a else b
  }

  /** x to the power n, multiplied out one factor at a time. */
  function Pow(x: real, n: nat): (r: real)
    ensures x != 0.0 ==> r != 0.0
    ensures x >= 1.0 ==> r >= 1.0
  {
    if n == 0 then 1.0 else Pow(x, n - 1) * x
  }

  lemma {:induction false} PowOfOne(n: nat)
    ensures Pow(1.0, n) == 1.0
  {
    if n > 0 {
      PowOfOne(n - 1);
    }
  }

  /** For a base of at least one, a higher power is never smaller. */
  lemma {:induction false} PowMonotone(x: real, i: nat, j: nat)
    requires x >= 1.0 && i <= j
    ensures Pow(x, i) <= Pow(x, j)
  {
    if i < j {
      PowMonotone(x, i, j - 1);
      assert Pow(x, j) == Pow(x, j - 1) * x;
      assert Pow(x, j - 1) * x >= Pow(x, j - 1) * 1.0 by {
        assert Pow(x, j - 1) >= 1.0;
      }
    }
  }

  /** Sum of a sequence, adding from the first element to the last as Python's sum() does. */
  function Sum(s: seq<real>): real {
    if |s| == 0 then 0.0 else Sum(s[..|s| - 1]) + s[|s| - 1]
  }

  /** A prefix one element longer adds exactly that element. */
  lemma SumPrefixStep(s: seq<real>, i: nat)
    requires i < |s|
    ensures Sum(s[..i + 1]) == Sum(s[..i]) + s[i]
  {
    assert s[..i + 1][..i] == s[..i];
  }

  /** Present value of a cash series: the amount of year k (1-based) divided by (1+rate)^k.
      The factor is zero, and the division undefined, only at a rate of -1. */
  function DiscountedSum(amounts: seq<real>, rate: real): real
    requires rate != -1.0
  {
    Sum(seq(|amounts|, i requires 0 <= i < |amounts| => amounts[i] / Pow(1.0 + rate, i + 1)))
  }

  /** One more year adds its amount discounted by (1+rate) raised to that year's 1-based number. */
  lemma DiscountedSumAppend(amounts: seq<real>, x: real, rate: real)
    requires rate != -1.0
    ensures DiscountedSum(amounts + [x], rate) == DiscountedSum(amounts, rate) + x / Pow(1.0 + rate, |amounts| + 1)
  {
    var longer := amounts + [x];
    var d := seq(|longer|, i requires 0 <= i < |longer| => longer[i] / Pow(1.0 + rate, i + 1));
    var e := seq(|amounts|, i requires 0 <= i < |amounts| => amounts[i] / Pow(1.0 + rate, i + 1));
    assert d[..|amounts|] == e;
  }

  /** Python's int() on a float: truncation toward zero. */
  function Trunc(x: real): (r: int)
    ensures 0.0 <= x ==> 0 <= r && r as real <= x < r as real + 1.0
    ensures x < 0.0 ==> r <= 0 && x <= r as real && r as real - 1.0 < x
  {
    if x >= 0.0 then x.Floor else -((-x).Floor)
  }

  lemma TruncOfInt(k: int)
    ensures Trunc(k as real) == k
  {
  }

  /** Truncation is monotone on non-negative values. */
  lemma TruncMonotone(x: real, y: real)
    requires 0.0 <= x <= y
    ensures Trunc(x) <= Trunc(y)
  {
  }

  /** One year of growth at rate g. */
  function Grow(x: real, g: real): real {
    x * (1.0 + g)
  }

  /** The series start, start*(1+g), start*(1+g)^2, ... of length n: each entry is the previous
      one grown by (1+g), with no rounding anywhere. */
  function Compounded(start: real, g: real, n: nat): (s: seq<real>)
    ensures |s| == n
  {
    if n == 0 then []
    else if n == 1 then [start]
    else
      var previous := Compounded(start, g, n - 1);
      previous + [Grow(previous[n - 2], g)]
  }

  /** start * (1+g)^i: the closed form of a compounded series' entry i. */
  function GrownBy(start: real, g: real, i: nat): real {
    start * Pow(1.0 + g, i)
  }

  /** Entry i of a compounded series is start * (1+g)^i. */
  lemma {:induction false} CompoundedClosedForm(start: real, g: real, n: nat)
    ensures forall i :: 0 <= i < n ==> Compounded(start, g, n)[i] == GrownBy(start, g, i)
  {
    if n > 1 {
      CompoundedClosedForm(start, g, n - 1);
      var previous := Compounded(start, g, n - 1);
      assert Pow(1.0 + g, n - 1) == Pow(1.0 + g, n - 2) * (1.0 + g);
      assert start * (Pow(1.0 + g, n - 2) * (1.0 + g)) == (start * Pow(1.0 + g, n - 2)) * (1.0 + g);
    }
  }

  /** Each entry of a compounded series is its predecessor grown by (1+g). */
  lemma CompoundedRecurrence(start: real, g: real, n: nat)
    ensures n > 0 ==> Compounded(start, g, n)[0] == start
    ensures forall i :: 0 < i < n ==>
      Compounded(start, g, n)[i] == Grow(Compounded(start, g, n)[i - 1], g)
  {
    var s := Compounded(start, g, n);
    CompoundedClosedForm(start, g, n);
    forall i | 0 < i < n
      ensures s[i] == Grow(s[i - 1], g)
    {
      assert Pow(1.0 + g, i) == Pow(1.0 + g, i - 1) * (1.0 + g);
      assert start * (Pow(1.0 + g, i - 1) * (1.0 + g)) == (start * Pow(1.0 + g, i - 1)) * (1.0 + g);
    }
  }

  /** Without growth every entry is the start value. */
  lemma CompoundedWithoutGrowth(start: real, n: nat)
    ensures forall i :: 0 <= i < n ==> Compounded(start, 0.0, n)[i] == start
  {
    CompoundedClosedForm(start, 0.0, n);
    forall i | 0 <= i < n
      ensures Compounded(start, 0.0, n)[i] == start
    {
      PowOfOne(i);
    }
  }

  /** A non-negative start with non-negative growth gives a non-decreasing series. */
  lemma CompoundedNonDecreasing(start: real, g: real, n: nat)
    requires start >= 0.0 && g >= 0.0
    ensures forall i, j :: 0 <= i <= j < n ==> Compounded(start, g, n)[i] <= Compounded(start, g, n)[j]
    ensures forall i :: 0 <= i < n ==> 0.0 <= Compounded(start, g, n)[i]
  {
    CompoundedClosedForm(start, g, n);
    forall i, j | 0 <= i <= j < n
      ensures Compounded(start, g, n)[i] <= Compounded(start, g, n)[j]
    {
      PowMonotone(1.0 + g, i, j);
      MulMonotone(start, Pow(1.0 + g, i), Pow(1.0 + g, j));
    }
    forall i | 0 <= i < n
      ensures 0.0 <= Compounded(start, g, n)[i]
    {
      MulMonotone(start, 0.0, Pow(1.0 + g, i));
    }
  }

  lemma MulMonotone(k: real, a: real, b: real)
    requires k >= 0.0 && a <= b
    ensures k * a <= k * b
  {
  }
}
