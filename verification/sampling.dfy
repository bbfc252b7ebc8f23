/** The corner sampler of `GetCentreOfBuoyancy`: the eight corners of the
    floater's box, placed at its world position and rotated about it, and
    the corners that fall inside a liquid's bounds. */
module Sampling {
  import opened Vectors
  import opened Bounds

  /** Unity's `Quaternion * Vector3`, left abstract: any map on vectors. */
  type Rotation = Vec3 -> Vec3

  function Identity(v: Vec3): Vec3 { v }

  /** The floater's transform: world position, local scale and world rotation. */
  datatype Pose = Pose(position: Vec3, scale: Vec3, rotation: Rotation)

  /** The unscaled corners, in the order `GetCentreOfBuoyancy` lists them. */
  const UnitCorners: seq<Vec3> := [
    Add(Add(Up, Left), Forward),
    Sub(Add(Up, Left), Forward),
    Add(Sub(Up, Left), Forward),
    Sub(Sub(Up, Left), Forward),
    Add(Add(Neg(Up), Left), Forward),
    Sub(Add(Neg(Up), Left), Forward),
    Add(Sub(Neg(Up), Left), Forward),
    Sub(Sub(Neg(Up), Left), Forward)
  ]

  predicate IsSign(r: real) { r == 1.0 || r == -1.0 }

  predicate IsSignVector(v: Vec3) { IsSign(v.x) && IsSign(v.y) && IsSign(v.z) }

  /** The unit corners are exactly the eight sign combinations, each once. */
  lemma UnitCornersAreSignCombinations()
    ensures |UnitCorners| == 8
    ensures forall i :: 0 <= i < 8 ==> IsSignVector(UnitCorners[i])
    ensures forall i, j :: 0 <= i < j < 8 ==> UnitCorners[i] != UnitCorners[j]
    ensures forall v :: IsSignVector(v) ==> v in UnitCorners
  {
  }

  function RotatePointAroundPivot(point: Vec3, pivot: Vec3, rotation: Rotation): (r: Vec3)
    ensures point == pivot && rotation(Zero) == Zero ==> r == pivot
    ensures (forall v :: rotation(v) == v) ==> r == point
  {
    Add(rotation(Sub(point, pivot)), pivot)
  }

  /** The corner offsets `(±sx/2, ±sy/2, ±sz/2)` of a box of the given
      scale, in the order of `UnitCorners`. */
  function HalfExtentCorners(scale: Vec3): (cs: seq<Vec3>)
    ensures |cs| == 8
  {
    var hx, hy, hz := scale.x / 2.0, scale.y / 2.0, scale.z / 2.0;
    [Vec3(-hx, hy, hz), Vec3(-hx, hy, -hz), Vec3(hx, hy, hz), Vec3(hx, hy, -hz),
     Vec3(-hx, -hy, hz), Vec3(-hx, -hy, -hz), Vec3(hx, -hy, hz), Vec3(hx, -hy, -hz)]
  }

  /** Scaling each unit corner by half the local scale (`Vector3.Scale`)
      gives exactly the half-extent corners. */
  lemma ScaledUnitCorners(scale: Vec3)
    ensures forall i :: 0 <= i < 8 ==> Mul(UnitCorners[i], Div(scale, 2.0)) == HalfExtentCorners(scale)[i]
  {
    var half := Div(scale, 2.0);
    var cs := HalfExtentCorners(scale);
    assert Mul(UnitCorners[0], half) == cs[0] && Mul(UnitCorners[1], half) == cs[1];
    assert Mul(UnitCorners[2], half) == cs[2] && Mul(UnitCorners[3], half) == cs[3];
    assert Mul(UnitCorners[4], half) == cs[4] && Mul(UnitCorners[5], half) == cs[5];
    assert Mul(UnitCorners[6], half) == cs[6] && Mul(UnitCorners[7], half) == cs[7];
  }

  /** The eight sample points: each corner offset (the scaled unit corner,
      see `ScaledUnitCorners`) added to the world position, then rotated
      about that position. */
  function SamplePoints(pose: Pose): (ps: seq<Vec3>)
    ensures |ps| == 8
    ensures forall i :: 0 <= i < 8 ==>
      ps[i] == Add(pose.rotation(HalfExtentCorners(pose.scale)[i]), pose.position)
  {
    var cs := HalfExtentCorners(pose.scale);
    var p := pose.position;
    var ps := [
      RotatePointAroundPivot(Add(p, cs[0]), p, pose.rotation),
      RotatePointAroundPivot(Add(p, cs[1]), p, pose.rotation),
      RotatePointAroundPivot(Add(p, cs[2]), p, pose.rotation),
      RotatePointAroundPivot(Add(p, cs[3]), p, pose.rotation),
      RotatePointAroundPivot(Add(p, cs[4]), p, pose.rotation),
      RotatePointAroundPivot(Add(p, cs[5]), p, pose.rotation),
      RotatePointAroundPivot(Add(p, cs[6]), p, pose.rotation),
      RotatePointAroundPivot(Add(p, cs[7]), p, pose.rotation)];
    assert forall i :: 0 <= i < 8 ==> Sub(Add(p, cs[i]), p) == cs[i];
    ps
  }

  /** The box spanned by the floater's corners when it is not rotated. */
  function FloaterBox(position: Vec3, scale: Vec3): Box {
    var h := Vec3(Abs(scale.x) / 2.0, Abs(scale.y) / 2.0, Abs(scale.z) / 2.0);
    Box(Sub(position, h), Add(position, h))
  }

  function Abs(r: real): real { if r < 0.0 then -r else r }

  /** With the identity rotation every sample point is a corner of the floater's box. */
  lemma UnrotatedPointsInFloaterBox(position: Vec3, scale: Vec3)
    ensures forall i :: 0 <= i < 8 ==>
      Contains(FloaterBox(position, scale), SamplePoints(Pose(position, scale, Identity))[i])
  {
    UnitCornersAreSignCombinations();
  }

  /** The points of `ps` inside `b`, in order (`GetCentreOfBuoyancy`'s `pointsInLiquid`). */
  function InsidePoints(ps: seq<Vec3>, b: Box): (r: seq<Vec3>)
    ensures |r| <= |ps|
    ensures forall p :: p in r ==> p in ps && Contains(b, p)
    ensures forall i :: 0 <= i < |ps| && Contains(b, ps[i]) ==> ps[i] in r
    ensures |r| == |ps| <==> forall i :: 0 <= i < |ps| ==> Contains(b, ps[i])
    ensures |r| == 0 <==> forall i :: 0 <= i < |ps| ==> !Contains(b, ps[i])
  {
    if |ps| == 0 then []
    else
      var rest := InsidePoints(ps[1..], b);
      assert forall i :: 1 <= i < |ps| ==> ps[i] == ps[1..][i - 1];
      if Contains(b, ps[0]) then [ps[0]] + rest else rest
  }

  /** Each point is kept exactly as often as it occurs in `ps` when it is
      inside the box, and never otherwise. */
  lemma {:induction false} InsideMultiset(ps: seq<Vec3>, b: Box, p: Vec3)
    ensures multiset(InsidePoints(ps, b))[p] == (if Contains(b, p) then multiset(ps)[p] else 0)
  {
    if |ps| > 0 {
      InsideMultiset(ps[1..], b, p);
      assert ps == [ps[0]] + ps[1..];
      assert multiset(ps) == multiset([ps[0]]) + multiset(ps[1..]);
      if Contains(b, ps[0]) {
        var rest := InsidePoints(ps[1..], b);
        assert multiset([ps[0]] + rest) == multiset([ps[0]]) + multiset(rest);
      }
    }
  }

  /** When every point is inside the box, the filter keeps the sequence whole. */
  lemma {:induction false} AllInsideKept(ps: seq<Vec3>, b: Box)
    requires forall i :: 0 <= i < |ps| ==> Contains(b, ps[i])
    ensures InsidePoints(ps, b) == ps
  {
    if |ps| > 0 {
      assert forall i :: 0 <= i < |ps[1..]| ==> Contains(b, ps[1..][i]) by {
        forall i | 0 <= i < |ps[1..]| ensures Contains(b, ps[1..][i]) {
          assert ps[1..][i] == ps[i + 1];
        }
      }
      AllInsideKept(ps[1..], b);
      assert ps == [ps[0]] + ps[1..];
    }
  }

  /** Leading points outside the box do not contribute. */
  lemma {:induction false} SkipOutside(ps: seq<Vec3>, b: Box, k: nat)
    requires k <= |ps|
    requires forall i :: 0 <= i < k ==> !Contains(b, ps[i])
    ensures InsidePoints(ps, b) == InsidePoints(ps[k..], b)
  {
    if k > 0 {
      SkipOutside(ps[1..], b, k - 1);
      assert ps[1..][k - 1..] == ps[k..];
    }
  }

  /** A larger liquid box holds at least as many of the same points. */
  lemma {:induction false} InsideMonotone(ps: seq<Vec3>, b1: Box, b2: Box)
    requires Within(b1, b2)
    ensures |InsidePoints(ps, b1)| <= |InsidePoints(ps, b2)|
  {
    if |ps| > 0 {
      InsideMonotone(ps[1..], b1, b2);
      if Contains(b1, ps[0]) {
        WithinContains(b1, b2, ps[0]);
      }
    }
  }

  /** Moving the points and the box by the same offset keeps the count. */
  lemma {:induction false} InsideTranslated(ps: seq<Vec3>, qs: seq<Vec3>, b: Box, d: Vec3)
    requires |qs| == |ps|
    requires forall i :: 0 <= i < |ps| ==> qs[i] == Add(ps[i], d)
    ensures |InsidePoints(qs, Translate(b, d))| == |InsidePoints(ps, b)|
  {
    if |ps| > 0 {
      InsideTranslated(ps[1..], qs[1..], b, d);
      TranslateContains(b, d, ps[0]);
    }
  }

  /** Only the floater's position relative to the liquid matters. */
  lemma SamplingTranslationInvariant(pose: Pose, b: Box, d: Vec3)
    ensures |InsidePoints(SamplePoints(pose.(position := Add(pose.position, d))), Translate(b, d))|
         == |InsidePoints(SamplePoints(pose), b)|
  {
    var ps := SamplePoints(pose);
    var qs := SamplePoints(pose.(position := Add(pose.position, d)));
    InsideTranslated(ps, qs, b, d);
  }
}
