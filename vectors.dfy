/** Three-component vectors over the reals, standing in for the rendering
    library's Vector3: only the arithmetic the demos use (add, sub,
    multiply/divide by a scalar, dot, lerp) and the running sum behind an
    average. */
module Vectors {

  datatype Vec3 = Vec3(x: real, y: real, z: real)

  const Zero := Vec3(0.0, 0.0, 0.0)

  function Add(u: Vec3, v: Vec3): Vec3 {
    Vec3(u.x + v.x, u.y + v.y, u.z + v.z)
  }

  function Sub(u: Vec3, v: Vec3): Vec3 {
    Vec3(u.x - v.x, u.y - v.y, u.z - v.z)
  }

  function Scale(v: Vec3, s: real): Vec3 {
    Vec3(v.x * s, v.y * s, v.z * s)
  }

  function Dot(u: Vec3, v: Vec3): real {
    u.x * v.x + u.y * v.y + u.z * v.z
  }

  /** `from.lerp(to, alpha)`: every component moves by `(to - from) * alpha`. */
  function Lerp(from: Vec3, to: Vec3, alpha: real): (r: Vec3)
    ensures alpha == 0.0 ==> r == from
    ensures alpha == 1.0 ==> r == to
    ensures from == to ==> r == from
  {
    Vec3(from.x + (to.x - from.x) * alpha,
         from.y + (to.y - from.y) * alpha,
         from.z + (to.z - from.z) * alpha)
  }

  /** Componentwise `lo <= v <= hi`. */
  predicate InBox(v: Vec3, lo: Vec3, hi: Vec3) {
    lo.x <= v.x <= hi.x && lo.y <= v.y <= hi.y && lo.z <= v.z <= hi.z
  }

  predicate AllInBox(s: seq<Vec3>, lo: Vec3, hi: Vec3) {
    forall i :: 0 <= i < |s| ==> InBox(s[i], lo, hi)
  }

  /** With `0 <= alpha <= 1` a lerp between two points of a box stays in the box. */
  lemma LerpInBox(from: Vec3, to: Vec3, alpha: real, lo: Vec3, hi: Vec3)
    requires 0.0 <= alpha <= 1.0
    requires InBox(from, lo, hi) && InBox(to, lo, hi)
    ensures InBox(Lerp(from, to, alpha), lo, hi)
  {
    LerpAxis(from.x, to.x, alpha, lo.x, hi.x);
    LerpAxis(from.y, to.y, alpha, lo.y, hi.y);
    LerpAxis(from.z, to.z, alpha, lo.z, hi.z);
  }

  lemma LerpAxis(a: real, b: real, alpha: real, lo: real, hi: real)
    requires 0.0 <= alpha <= 1.0 && lo <= a <= hi && lo <= b <= hi
    ensures lo <= a + (b - a) * alpha <= hi
  {
    if a <= b {
      StepUp(a, b - a, alpha, lo, hi);
    } else {
      StepDown(a, b - a, alpha, lo, hi);
    }
  }

  lemma StepUp(a: real, d: real, alpha: real, lo: real, hi: real)
    requires 0.0 <= alpha <= 1.0 && lo <= a <= hi && lo <= a + d <= hi && d >= 0.0
    ensures lo <= a + d * alpha <= hi
  {
    ScaleDown(d, alpha);
  }

  lemma StepDown(a: real, d: real, alpha: real, lo: real, hi: real)
    requires 0.0 <= alpha <= 1.0 && lo <= a <= hi && lo <= a + d <= hi && d <= 0.0
    ensures lo <= a + d * alpha <= hi
  {
    ScaleDownNeg(d, alpha);
  }

  lemma ScaleDown(d: real, alpha: real)
    requires d >= 0.0 && 0.0 <= alpha <= 1.0
    ensures 0.0 <= d * alpha <= d
  {
    assert d * alpha <= d * 1.0 by {
      assert d * (1.0 - alpha) >= 0.0;
    }
  }

  lemma ScaleDownNeg(d: real, alpha: real)
    requires d <= 0.0 && 0.0 <= alpha <= 1.0
    ensures d <= d * alpha <= 0.0
  {
    assert d * alpha <= 0.0 by { assert (-d) * alpha >= 0.0; }
    assert d * alpha >= d * 1.0 by {
      assert (-d) * (1.0 - alpha) >= 0.0;
    }
  }

  /** The vector an accumulating loop `acc.add(s[i])` from Zero ends with. */
  function Sum(s: seq<Vec3>): Vec3
    decreases |s|
  {
    if s == [] then Zero else Add(Sum(s[..|s| - 1]), s[|s| - 1])
  }

  /** The arithmetic mean: the sum divided by the number of elements. */
  function Mean(s: seq<Vec3>): Vec3
    requires |s| > 0
  {
    Scale(Sum(s), 1.0 / (|s| as real))
  }

  /** Axis 0, 1 or 2 of a vector. */
  function Coord(v: Vec3, k: nat): real
    requires k < 3
  {
    if k == 0 then v.x else if k == 1 then v.y else v.z
  }

  /** `c` added to itself `n` times. */
  function Times(c: real, n: nat): real {
    if n == 0 then 0.0 else Times(c, n - 1) + c
  }

  lemma {:induction false} TimesIsProduct(c: real, n: nat)
    ensures Times(c, n) == c * (n as real)
  {
    if n > 0 {
      TimesIsProduct(c, n - 1);
      Distribute(c, (n - 1) as real);
    }
  }

  lemma Distribute(c: real, m: real)
    ensures c * m + c == c * (m + 1.0)
  {
  }

  /** Each axis of the sum of `n` vectors from a box lies between `n` times
      the box's lower and upper bound. */
  lemma {:induction false} SumInScaledBox(s: seq<Vec3>, lo: Vec3, hi: Vec3, k: nat)
    requires k < 3 && AllInBox(s, lo, hi)
    ensures Times(Coord(lo, k), |s|) <= Coord(Sum(s), k) <= Times(Coord(hi, k), |s|)
    decreases |s|
  {
    if s != [] {
      var init := s[..|s| - 1];
      assert AllInBox(init, lo, hi) by {
        forall i | 0 <= i < |init| ensures InBox(init[i], lo, hi) {
          assert init[i] == s[i];
        }
      }
      SumInScaledBox(init, lo, hi, k);
      var last := s[|s| - 1];
      assert InBox(last, lo, hi);
      assert Coord(Sum(s), k) == Coord(Sum(init), k) + Coord(last, k);
    }
  }

  /** The mean of points from a box lies in the box. */
  lemma MeanInBox(s: seq<Vec3>, lo: Vec3, hi: Vec3)
    requires |s| > 0 && AllInBox(s, lo, hi)
    ensures InBox(Mean(s), lo, hi)
  {
    forall k | 0 <= k < 3 ensures Coord(lo, k) <= Coord(Mean(s), k) <= Coord(hi, k) {
      SumInScaledBox(s, lo, hi, k);
      MeanAboveLow(s, Coord(lo, k), k);
      MeanBelowHigh(s, Coord(hi, k), k);
    }
    assert Coord(Mean(s), 0) == Mean(s).x && Coord(Mean(s), 1) == Mean(s).y && Coord(Mean(s), 2) == Mean(s).z;
  }

  lemma MeanAboveLow(s: seq<Vec3>, lo: real, k: nat)
    requires k < 3 && |s| > 0 && Times(lo, |s|) <= Coord(Sum(s), k)
    ensures lo <= Coord(Mean(s), k)
  {
    MeanCoord(s, k);
    DivideLow(Coord(Sum(s), k), |s|, lo);
  }

  lemma MeanBelowHigh(s: seq<Vec3>, hi: real, k: nat)
    requires k < 3 && |s| > 0 && Coord(Sum(s), k) <= Times(hi, |s|)
    ensures Coord(Mean(s), k) <= hi
  {
    MeanCoord(s, k);
    DivideHigh(Coord(Sum(s), k), |s|, hi);
  }

  lemma MeanCoord(s: seq<Vec3>, k: nat)
    requires k < 3 && |s| > 0
    ensures Coord(Mean(s), k) == Coord(Sum(s), k) * (1.0 / (|s| as real))
  {
  }

  lemma DivideLow(t: real, n: nat, lo: real)
    requires n > 0 && Times(lo, n) <= t
    ensures lo <= t * (1.0 / (n as real))
  {
    TimesIsProduct(lo, n);
    QuotientLow(t, n as real, lo);
    TimesInverse(t, n as real);
  }

  lemma DivideHigh(t: real, n: nat, hi: real)
    requires n > 0 && t <= Times(hi, n)
    ensures t * (1.0 / (n as real)) <= hi
  {
    TimesIsProduct(hi, n);
    QuotientHigh(t, n as real, hi);
    TimesInverse(t, n as real);
  }

  lemma TimesInverse(t: real, m: real)
    requires m != 0.0
    ensures t * (1.0 / m) == t / m
  {
  }

  lemma QuotientNonnegative(x: real, m: real)
    requires x >= 0.0 && m > 0.0
    ensures x / m >= 0.0
  {
  }

  lemma QuotientLow(t: real, m: real, lo: real)
    requires m > 0.0 && lo * m <= t
    ensures lo <= t / m
  {
    QuotientNonnegative(t - lo * m, m);
    assert (t - lo * m) / m == t / m - lo;
  }

  lemma QuotientHigh(t: real, m: real, hi: real)
    requires m > 0.0 && t <= hi * m
    ensures t / m <= hi
  {
    QuotientNonnegative(hi * m - t, m);
    assert (hi * m - t) / m == hi - t / m;
  }

  /** Averaging `n` copies of one vector gives that vector back. */
  lemma MeanOfConstant(s: seq<Vec3>, v: Vec3)
    requires |s| > 0 && forall i :: 0 <= i < |s| ==> s[i] == v
    ensures Mean(s) == v
  {
    MeanInBox(s, v, v);
  }
}
