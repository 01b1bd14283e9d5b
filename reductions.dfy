/** Reductions over a flattened numeric array: numpy's sum(), min() and max(). */
module Reductions {
  /** Sum of the elements, accumulated left to right. */
  function Sum(xs: seq<real>): real
    decreases |xs|
  {
    if |xs| == 0 then 0.0 else Sum(xs[..|xs| - 1]) + xs[|xs| - 1]
  }

  /** Smallest element: one of the elements, and no element is below it. */
  function Min(xs: seq<real>): (m: real)
    requires |xs| > 0
    ensures m in xs
    ensures forall i :: 0 <= i < |xs| ==> m <= xs[i]
    decreases |xs|
  {
    if |xs| == 1 then xs[0]
    else
      var rest := Min(xs[1..]);
      if xs[0] <= rest then xs[0] else rest
  }

  /** Largest element: one of the elements, and no element is above it. */
  function Max(xs: seq<real>): (m: real)
    requires |xs| > 0
    ensures m in xs
    ensures forall i :: 0 <= i < |xs| ==> xs[i] <= m
    decreases |xs|
  {
    if |xs| == 1 then xs[0]
    else
      var rest := Max(xs[1..]);
      if rest <= xs[0] then xs[0] else rest
  }

  /** The smaller of two reals (Python's built-in min on two numbers). */
  function Least(a: real, b: real): (m: real)
    ensures m <= a && m <= b && (m == a || m == b)
  {
    if a <= b then a else b
  }

  /** The larger of two reals (Python's built-in max on two numbers). */
  function Greatest(a: real, b: real): (m: real)
    ensures a <= m && b <= m && (m == a || m == b)
  {
    if b <= a then a else b
  }

  /** The minimum of a concatenation is the smaller of the two minima. */
  lemma MinConcat(a: seq<real>, b: seq<real>)
    requires |a| > 0 && |b| > 0
    ensures Min(a + b) == Least(Min(a), Min(b))
  {
    var m := Least(Min(a), Min(b));
    assert m in a + b;
    forall i | 0 <= i < |a + b| ensures m <= (a + b)[i] {
      if i < |a| { assert (a + b)[i] == a[i]; } else { assert (a + b)[i] == b[i - |a|]; }
    }
  }

  /** The maximum of a concatenation is the larger of the two maxima. */
  lemma MaxConcat(a: seq<real>, b: seq<real>)
    requires |a| > 0 && |b| > 0
    ensures Max(a + b) == Greatest(Max(a), Max(b))
  {
    var m := Greatest(Max(a), Max(b));
    assert m in a + b;
    forall i | 0 <= i < |a + b| ensures (a + b)[i] <= m {
      if i < |a| { assert (a + b)[i] == a[i]; } else { assert (a + b)[i] == b[i - |a|]; }
    }
  }

  /** Minimum and maximum coincide exactly when every element is the same value. */
  lemma MinMaxEqualIffConstant(xs: seq<real>)
    requires |xs| > 0
    ensures Min(xs) == Max(xs) <==> forall i :: 0 <= i < |xs| ==> xs[i] == xs[0]
  {
  }

  /** Sum of n copies of x is n * x. */
  lemma {:induction false} SumUniform(xs: seq<real>, x: real)
    requires forall i :: 0 <= i < |xs| ==> xs[i] == x
    ensures Sum(xs) == |xs| as real * x
    decreases |xs|
  {
    if |xs| > 0 {
      SumUniform(xs[..|xs| - 1], x);
    }
  }

  /** A sum of n elements, each between lo and hi, lies between n * lo and n * hi. */
  lemma {:induction false} SumBounds(xs: seq<real>, lo: real, hi: real)
    requires forall i :: 0 <= i < |xs| ==> lo <= xs[i] <= hi
    ensures |xs| as real * lo <= Sum(xs) <= |xs| as real * hi
    decreases |xs|
  {
    if |xs| > 0 {
      var n := |xs| - 1;
      SumBounds(xs[..n], lo, hi);
      assert Sum(xs) == Sum(xs[..n]) + xs[n];
      assert |xs| as real * lo == n as real * lo + lo;
      assert |xs| as real * hi == n as real * hi + hi;
    }
  }
}
