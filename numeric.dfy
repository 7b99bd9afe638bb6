/** Exact real arithmetic helpers standing for the Python built-ins the dashboard uses. */
module Numeric {

  /** Python `int(x)` on a float: truncation toward zero. */
  function Trunc(x: real): (n: int)
    ensures 0.0 <= x ==> 0 <= n && n as real <= x < n as real + 1.0
    ensures x < 0.0 ==> n <= 0 && n as real - 1.0 < x <= n as real
  {
    if x >= 0.0 then x.Floor else -((-x).Floor)
  }

  lemma TruncOfInt(n: int)
    ensures Trunc(n as real) == n
  {
  }

  /** `x ** i` for a natural exponent. */
  function Pow(x: real, i: nat): real
  {
    if i == 0 then 1.0 else x * Pow(x, i - 1)
  }

  lemma {:induction false} PowAtLeastOne(x: real, i: nat)
    requires x >= 1.0
    ensures Pow(x, i) >= 1.0
  {
    if i > 0 {
      PowAtLeastOne(x, i - 1);
      assert x * Pow(x, i - 1) >= 1.0 * Pow(x, i - 1);
    }
  }

  /** Python `sum` over a list of numbers, left to right. */
  function Sum(s: seq<real>): real
  {
    if s == [] then 0.0 else Sum(s[..|s| - 1]) + s[|s| - 1]
  }

  lemma Sum3(a: real, b: real, c: real)
    ensures Sum([a, b, c]) == a + b + c
  {
    assert Sum([a]) == a by { assert [a][..0] == []; }
    assert Sum([a, b]) == a + b by { assert [a, b][..1] == [a]; }
    assert [a, b, c][..2] == [a, b];
  }

  lemma SumOfFour(s: seq<real>)
    requires |s| == 4
    ensures Sum(s) == s[0] + s[1] + s[2] + s[3]
  {
    assert s[..1][..0] == [];
    assert Sum(s[..1]) == s[0];
    assert s[..2][..1] == s[..1];
    assert Sum(s[..2]) == s[0] + s[1];
    assert s[..3][..2] == s[..2];
    assert Sum(s[..3]) == s[0] + s[1] + s[2];
  }

  /** Every element of `s` multiplied by `k`. */
  function Scaled(s: seq<real>, k: real): (r: seq<real>)
    ensures |r| == |s| && forall i :: 0 <= i < |s| ==> r[i] == s[i] * k
  {
    seq(|s|, i requires 0 <= i < |s| => s[i] * k)
  }

  lemma {:induction false} SumScaled(s: seq<real>, k: real)
    ensures Sum(Scaled(s, k)) == Sum(s) * k
  {
    if s != [] {
      var n := |s| - 1;
      SumScaled(s[..n], k);
      var t := Scaled(s, k);
      assert forall i :: 0 <= i < n ==> t[..n][i] == Scaled(s[..n], k)[i];
      assert t[..n] == Scaled(s[..n], k);
      assert Sum(t) == Sum(s[..n]) * k + s[n] * k;
      assert Sum(s[..n]) * k + s[n] * k == (Sum(s[..n]) + s[n]) * k;
    }
  }

  lemma MulLe(a: real, b: real, k: real)
    requires a <= b && k >= 0.0
    ensures a * k <= b * k
  {
    assert b * k - a * k == (b - a) * k;
  }

  lemma MulLt(a: real, b: real, k: real)
    requires a < b && k > 0.0
    ensures a * k < b * k
  {
    assert b * k - a * k == (b - a) * k;
  }

  /** Python `max` over a non-empty list. */
  function Max(s: seq<real>): (m: real)
    requires |s| > 0
    ensures forall i :: 0 <= i < |s| ==> s[i] <= m
    ensures exists i :: 0 <= i < |s| && s[i] == m
  {
    if |s| == 1 then s[0]
    else
      var m' := Max(s[..|s| - 1]);
      assert forall i :: 0 <= i < |s| - 1 ==> s[..|s| - 1][i] == s[i];
      if s[|s| - 1] > m' then s[|s| - 1] else m'
  }

  /** Python `min(max(x, lo), hi)`. */
  function Clamp(x: real, lo: real, hi: real): (r: real)
    requires lo <= hi
    ensures lo <= r <= hi
    ensures lo <= x <= hi ==> r == x
    ensures x < lo ==> r == lo
    ensures x > hi ==> r == hi
  {
    var low := if x > lo then x else lo;
    if low < hi then low else hi
  }

  /** The sign of a real: -1, 0 or 1. */
  function Sign(x: real): int
  {
    if x > 0.0 then 1 else if x < 0.0 then -1 else 0
  }

  lemma {:induction false} SignOfProduct(x: real, y: real)
    ensures Sign(x * y) == Sign(x) * Sign(y)
  {
    if x > 0.0 && y > 0.0 { assert x * y > 0.0; }
    else if x > 0.0 && y < 0.0 { assert x * y < 0.0; }
    else if x < 0.0 && y > 0.0 { assert x * y < 0.0; }
    else if x < 0.0 && y < 0.0 { assert x * y > 0.0; }
  }
}
