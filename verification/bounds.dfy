/** Axis-aligned boxes, standing for Unity's `Bounds`. */
module Bounds {
  import opened Vectors

  /** A box given by its least and greatest corner. */
  datatype Box = Box(min: Vec3, max: Vec3)

  /** Component-wise `a <= b`. */
  predicate Le(a: Vec3, b: Vec3) {
    a.x <= b.x && a.y <= b.y && a.z <= b.z
  }

  /** `Bounds.Contains`, taken to be containment in the closed box. */
  predicate Contains(b: Box, p: Vec3) {
    Le(b.min, p) && Le(p, b.max)
  }

  /** Every point of `inner` is a point of `outer` (for a non-empty `inner`). */
  predicate Within(inner: Box, outer: Box) {
    Le(outer.min, inner.min) && Le(inner.max, outer.max)
  }

  function Translate(b: Box, d: Vec3): Box {
    Box(Add(b.min, d), Add(b.max, d))
  }

  function Mean(ps: seq<Vec3>): Vec3
    requires |ps| > 0
  {
    Div(Sum(ps), |ps| as real)
  }

  lemma WithinContains(inner: Box, outer: Box, p: Vec3)
    requires Within(inner, outer)
    requires Contains(inner, p)
    ensures Contains(outer, p)
  {
  }

  lemma TranslateContains(b: Box, d: Vec3, p: Vec3)
    ensures Contains(Translate(b, d), Add(p, d)) <==> Contains(b, p)
  {
  }

  /** The sum of `n` points of a box lies between `n` times its corners. */
  lemma {:induction false} SumInScaledBox(ps: seq<Vec3>, b: Box)
    requires forall i :: 0 <= i < |ps| ==> Contains(b, ps[i])
    ensures Le(Times(b.min, |ps| as real), Sum(ps))
    ensures Le(Sum(ps), Times(b.max, |ps| as real))
  {
    if |ps| > 0 {
      var rest := ps[1..];
      assert forall i :: 0 <= i < |rest| ==> Contains(b, rest[i]) by {
        forall i | 0 <= i < |rest| ensures Contains(b, rest[i]) {
          assert rest[i] == ps[i + 1];
        }
      }
      SumInScaledBox(rest, b);
      var n := |rest| as real;
      assert |ps| as real == n + 1.0;
      assert Contains(b, ps[0]);
      assert Times(b.min, n + 1.0) == Add(Times(b.min, n), b.min);
      assert Times(b.max, n + 1.0) == Add(Times(b.max, n), b.max);
    }
  }

  lemma DivBetween(lo: real, s: real, hi: real, n: real)
    requires n > 0.0
    requires lo * n <= s <= hi * n
    ensures lo <= s / n <= hi
  {
  }

  /** A box is convex: the mean of points of the box is a point of the box. */
  lemma MeanInBox(ps: seq<Vec3>, b: Box)
    requires |ps| > 0
    requires forall i :: 0 <= i < |ps| ==> Contains(b, ps[i])
    ensures Contains(b, Mean(ps))
  {
    SumInScaledBox(ps, b);
    var n := |ps| as real;
    var s := Sum(ps);
    DivBetween(b.min.x, s.x, b.max.x, n);
    DivBetween(b.min.y, s.y, b.max.y, n);
    DivBetween(b.min.z, s.z, b.max.z, n);
  }
}
