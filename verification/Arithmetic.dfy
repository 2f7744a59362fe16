/** Real and integer arithmetic the engine relies on: clipping, four-decimal
    rounding, sums and means. */
module Arithmetic {

  /** A risk, as every scorer in the engine clips it. */
  type Unit = x: real | 0.0 <= x <= 1.0

  function Min(a: real, b: real): real { if a <= b then a else b }

  function Max(a: real, b: real): real { if a >= b then a else b }

  function Abs(x: real): real { if x < 0.0 then -x else x }

  function Clip(x: real, lo: real, hi: real): real { Max(lo, Min(x, hi)) }

  function ClipInt(x: int, lo: int, hi: int): int {
    if x < lo then lo else if x > hi then hi else x
  }

  /** Rounding to four decimals, ties to even. */
  function Round4(x: real): real {
    var scaled := x * 10000.0;
    var low := scaled.Floor;
    var rest := scaled - low as real;
    var n := if rest < 0.5 || (rest == 0.5 && low % 2 == 0) then low else low + 1;
    n as real / 10000.0
  }

  lemma Round4Error(x: real)
    ensures -0.00005 <= Round4(x) - x <= 0.00005
  {
  }

  /** The nearest multiple of a ten-thousandth, and the even one of two. */
  lemma Round4Exactly(x: real, k: int)
    ensures Round4(x) == k as real / 10000.0
            <==> -0.5 <= 10000.0 * x - k as real <= 0.5
                 && (10000.0 * x - k as real == 0.5 || 10000.0 * x - k as real == -0.5 ==> k % 2 == 0)
  {
    var low := (x * 10000.0).Floor;
    var d := 10000.0 * x - k as real;
    if -0.5 <= d <= 0.5 {
      assert k == low || k == low + 1;
    }
  }

  lemma Round4Monotone(x: real, y: real)
    requires x <= y
    ensures Round4(x) <= Round4(y)
  {
    if (x * 10000.0).Floor == (y * 10000.0).Floor {
      assert x * 10000.0 <= y * 10000.0;
    } else {
      assert (x * 10000.0).Floor + 1 <= (y * 10000.0).Floor;
    }
  }

  function Sum(xs: seq<real>): real {
    if xs == [] then 0.0 else Sum(xs[..|xs| - 1]) + xs[|xs| - 1]
  }

  function Mean(xs: seq<real>): real
    requires xs != []
  {
    Sum(xs) / |xs| as real
  }

  lemma {:induction false} SumBounds(xs: seq<real>, lo: real, hi: real)
    requires forall i :: 0 <= i < |xs| ==> lo <= xs[i] <= hi
    ensures |xs| as real * lo <= Sum(xs) <= |xs| as real * hi
  {
    if xs != [] {
      SumBounds(xs[..|xs| - 1], lo, hi);
      var m := |xs[..|xs| - 1]| as real;
      assert |xs| as real == m + 1.0;
      assert (m + 1.0) * lo == m * lo + lo;
      assert (m + 1.0) * hi == m * hi + hi;
    }
  }

  lemma MeanBounds(xs: seq<real>, lo: real, hi: real)
    requires xs != []
    requires forall i :: 0 <= i < |xs| ==> lo <= xs[i] <= hi
    ensures lo <= Mean(xs) <= hi
  {
    SumBounds(xs, lo, hi);
    var n := |xs| as real;
    assert n * lo / n == lo && n * hi / n == hi;
    DivideMonotone(n * lo, Sum(xs), n);
    DivideMonotone(Sum(xs), n * hi, n);
  }

  lemma DivideMonotone(a: real, b: real, n: real)
    requires a <= b && n > 0.0
    ensures a / n <= b / n
  {
    assert b / n - a / n == (b - a) / n;
  }

  /** The last `n` entries, as a negative slice takes them. */
  function LastN<T>(xs: seq<T>, n: nat): seq<T> {
    if |xs| <= n then xs else xs[|xs| - n..]
  }
}
