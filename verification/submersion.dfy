/** Submersion classification (the tail of `GetCentreOfBuoyancy`): the
    fraction of sample points under the liquid, whether the floater is fully
    submerged, and the centre of buoyancy. */
module Submersion {
  import opened Wrappers
  import opened Vectors
  import opened Bounds
  import opened Sampling

  const TotalPoints := 8.0

  /** `centre` is None where `GetCentreOfBuoyancy` divides a zero sum by a zero count:
      in IEEE arithmetic that vector is NaN in every component. */
  datatype Classification = Classification(fraction: real, submerged: bool, centre: Option<Vec3>)

  /** What every classification satisfies: the fraction is in [0, 1], it is 1
      exactly when submerged, and the centre is undefined exactly when it is 0. */
  predicate WellFormed(c: Classification) {
    && 0.0 <= c.fraction <= 1.0
    && (c.submerged <==> c.fraction == 1.0)
    && (c.centre.None? <==> c.fraction == 0.0)
  }

  lemma FractionOfCount(n: nat)
    requires n <= 8
    ensures 0.0 <= n as real / TotalPoints <= 1.0
    ensures n as real / TotalPoints == 1.0 <==> n == 8
    ensures n as real / TotalPoints == 0.0 <==> n == 0
  {
  }

  /** Classifies the eight sample points against the liquid's bounds. */
  function Classify(ps: seq<Vec3>, bounds: Box): (r: Classification)
    requires |ps| == 8
    ensures WellFormed(r)
    ensures r.fraction == |InsidePoints(ps, bounds)| as real / 8.0
    ensures 0.0 <= r.fraction <= 1.0
    ensures r.submerged <==> forall i :: 0 <= i < 8 ==> Contains(bounds, ps[i])
    ensures r.submerged <==> r.fraction == 1.0
    ensures r.submerged ==> r.centre == Some(Zero)
    ensures r.centre.None? <==> forall i :: 0 <= i < 8 ==> !Contains(bounds, ps[i])
    ensures r.centre.None? <==> r.fraction == 0.0
    ensures 0.0 < r.fraction < 1.0 ==> r.centre == Some(Mean(InsidePoints(ps, bounds)))
  {
    var inside := InsidePoints(ps, bounds);
    FractionOfCount(|inside|);
    var fraction := |inside| as real / TotalPoints;
    var submerged := fraction == 1.0;
    var centre :=
      if submerged then Some(Zero)
      else if |inside| == 0 then None
      else Some(Mean(inside));
    Classification(fraction, submerged, centre)
  }

  /** Samples the floater's corners and classifies them. */
  function GetCentreOfBuoyancy(pose: Pose, bounds: Box): (r: Classification)
    ensures WellFormed(r)
    ensures r.fraction == |InsidePoints(SamplePoints(pose), bounds)| as real / 8.0
    ensures r.submerged <==> forall i :: 0 <= i < 8 ==> Contains(bounds, SamplePoints(pose)[i])
    ensures r.submerged ==> r.centre == Some(Zero)
    ensures r.centre.None? <==> forall i :: 0 <= i < 8 ==> !Contains(bounds, SamplePoints(pose)[i])
    ensures 0.0 < r.fraction < 1.0 ==> r.centre == Some(Mean(InsidePoints(SamplePoints(pose), bounds)))
  {
    Classify(SamplePoints(pose), bounds)
  }

  /** An averaged centre lies in every box that holds the inside points. */
  lemma CentreLiesIn(ps: seq<Vec3>, bounds: Box, box: Box)
    requires |ps| == 8
    requires forall i :: 0 <= i < 8 && Contains(bounds, ps[i]) ==> Contains(box, ps[i])
    requires !Classify(ps, bounds).submerged
    requires Classify(ps, bounds).centre.Some?
    ensures Contains(box, Classify(ps, bounds).centre.value)
  {
    var inside := InsidePoints(ps, bounds);
    assert forall i :: 0 <= i < |inside| ==> Contains(box, inside[i]) by {
      forall i | 0 <= i < |inside| ensures Contains(box, inside[i]) {
        assert inside[i] in inside;
        var j :| 0 <= j < |ps| && ps[j] == inside[i];
      }
    }
    MeanInBox(inside, box);
  }

  /** When the centre is an average, it is the average of points inside the
      liquid and so lies in the liquid's bounds, whatever the rotation. */
  lemma CentreLiesInLiquid(ps: seq<Vec3>, bounds: Box)
    requires |ps| == 8
    requires !Classify(ps, bounds).submerged
    requires Classify(ps, bounds).centre.Some?
    ensures Contains(bounds, Classify(ps, bounds).centre.value)
  {
    CentreLiesIn(ps, bounds, bounds);
  }

  /** With the identity rotation the centre of buoyancy also lies in the
      floater's own box. */
  lemma UnrotatedCentreLiesInFloater(position: Vec3, scale: Vec3, bounds: Box)
    ensures var c := GetCentreOfBuoyancy(Pose(position, scale, Identity), bounds);
      !c.submerged && c.centre.Some? ==> Contains(FloaterBox(position, scale), c.centre.value)
  {
    var ps := SamplePoints(Pose(position, scale, Identity));
    var fb := FloaterBox(position, scale);
    assert forall i :: 0 <= i < 8 ==> Contains(fb, ps[i]) by {
      UnrotatedPointsInFloaterBox(position, scale);
    }
    var c := Classify(ps, bounds);
    if !c.submerged && c.centre.Some? {
      CentreLiesIn(ps, bounds, fb);
    }
  }

  /** An unrotated floater whose box lies within the liquid's box is submerged. */
  lemma UnrotatedInsideIsSubmerged(position: Vec3, scale: Vec3, bounds: Box)
    requires Within(FloaterBox(position, scale), bounds)
    ensures GetCentreOfBuoyancy(Pose(position, scale, Identity), bounds).submerged
    ensures GetCentreOfBuoyancy(Pose(position, scale, Identity), bounds).fraction == 1.0
  {
    var ps := SamplePoints(Pose(position, scale, Identity));
    UnrotatedPointsInFloaterBox(position, scale);
    forall i | 0 <= i < 8 ensures Contains(bounds, ps[i]) {
      WithinContains(FloaterBox(position, scale), bounds, ps[i]);
    }
  }

  /** A larger liquid box never lowers the fraction under water. */
  lemma FractionMonotone(pose: Pose, b1: Box, b2: Box)
    requires Within(b1, b2)
    ensures GetCentreOfBuoyancy(pose, b1).fraction <= GetCentreOfBuoyancy(pose, b2).fraction
  {
    InsideMonotone(SamplePoints(pose), b1, b2);
  }
}
