/** Three concrete updates of a unit floater at the origin, at rest, in a
    liquid of density 1000 and viscosity 1: fully inside, lower half inside,
    and entirely outside the liquid's box. */
module Scenarios {
  import opened Wrappers
  import opened Vectors
  import opened Bounds
  import opened Liquids
  import opened Sampling
  import opened Submersion
  import opened Forces
  import opened Floating
  import opened FloatingProperties

  const UnitScale := Vec3(1.0, 1.0, 1.0)
  const UnitPose := Pose(Zero, UnitScale, Identity)
  const AtRest := Motion(Zero, Zero)
  /** Unity's default drag pair for a new rigid body. */
  const Fresh := Awake(0.0, 0.05)

  const Deep := Box(Vec3(-9.0, -9.0, -9.0), Vec3(9.0, 9.0, 9.0))
  const SurfaceAtOrigin := Box(Vec3(-9.0, -9.0, -9.0), Vec3(9.0, 0.0, 9.0))
  const Elsewhere := Box(Vec3(5.0, 5.0, 5.0), Vec3(9.0, 9.0, 9.0))

  function Water(bounds: Box): Liquid {
    Liquid(1.0, 1000.0, bounds)
  }

  /** At rest and fully inside, the force is the upward pressure plus eight
      times the full lift. */
  lemma RestingUnitForceFull(bounds: Box)
    ensures AppliedForce(Zero, UnitScale, 1.0, Water(bounds)) == Vec3(0.0, 9000.0, 0.0)
  {
    assert Volume(UnitScale) == 1.0;
  }

  /** At rest and half inside, the force is the upward pressure plus eight
      times half the lift. */
  lemma RestingUnitForceHalf(bounds: Box)
    ensures AppliedForce(Zero, UnitScale, 0.5, Water(bounds)) == Vec3(0.0, 5000.0, 0.0)
  {
    assert Volume(UnitScale) == 1.0;
  }

  lemma NoSpinNoAngularDrag()
    ensures CalculateAngularDrag(1000.0, Zero, 5.0, UnitScale) == 0.0
  {
  }

  lemma DeepClassification()
    ensures GetCentreOfBuoyancy(UnitPose, Deep) == Classification(1.0, true, Some(Zero))
  {
    UnrotatedInsideIsSubmerged(Zero, UnitScale, Deep);
  }

  const H := 0.5
  const LowerCorners := [Vec3(-H, -H, H), Vec3(-H, -H, -H), Vec3(H, -H, H), Vec3(H, -H, -H)]

  lemma UnitSamplePoints()
    ensures SamplePoints(UnitPose) == [Vec3(-H, H, H), Vec3(-H, H, -H), Vec3(H, H, H), Vec3(H, H, -H),
                                       Vec3(-H, -H, H), Vec3(-H, -H, -H), Vec3(H, -H, H), Vec3(H, -H, -H)]
  {
  }

  lemma LowerCornersInside(ps: seq<Vec3>)
    requires ps == [Vec3(-H, H, H), Vec3(-H, H, -H), Vec3(H, H, H), Vec3(H, H, -H),
                    Vec3(-H, -H, H), Vec3(-H, -H, -H), Vec3(H, -H, H), Vec3(H, -H, -H)]
    ensures InsidePoints(ps, SurfaceAtOrigin) == LowerCorners
  {
    assert forall i :: 0 <= i < 4 ==> !Contains(SurfaceAtOrigin, ps[i]);
    SkipOutside(ps, SurfaceAtOrigin, 4);
    assert ps[4..] == LowerCorners;
    LowerCornersAllInside();
  }

  lemma LowerCornersAllInside()
    ensures InsidePoints(LowerCorners, SurfaceAtOrigin) == LowerCorners
  {
    assert forall i :: 0 <= i < 4 ==> Contains(SurfaceAtOrigin, LowerCorners[i]);
    AllInsideKept(LowerCorners, SurfaceAtOrigin);
  }

  lemma LowerCornersMean()
    ensures Mean(LowerCorners) == Vec3(0.0, -0.5, 0.0)
  {
    var lower := LowerCorners;
    assert Sum(lower[3..]) == Vec3(H, -H, -H);
    assert Sum(lower[2..]) == Vec3(2.0 * H, -2.0 * H, 0.0);
    assert Sum(lower[1..]) == Vec3(H, -3.0 * H, -H);
    assert Sum(lower) == Vec3(0.0, -2.0, 0.0);
    assert |lower| as real == 4.0;
  }

  lemma HalfClassification()
    ensures GetCentreOfBuoyancy(UnitPose, SurfaceAtOrigin) == Classification(0.5, false, Some(Vec3(0.0, -0.5, 0.0)))
  {
    UnitSamplePoints();
    LowerCornersInside(SamplePoints(UnitPose));
    LowerCornersMean();
  }

  lemma ElsewhereClassification()
    ensures GetCentreOfBuoyancy(UnitPose, Elsewhere) == Classification(0.0, false, None)
  {
    var ps := SamplePoints(UnitPose);
    assert forall i :: 0 <= i < 8 ==> !Contains(Elsewhere, ps[i]);
  }

  /** Fully inside: submerged, force at the centre of mass, the submerged
      drag, and zero angular drag since nothing spins. */
  lemma ScenarioSubmerged()
    ensures Step(Fresh, UnitPose, AtRest, Some(Water(Deep)), 1.0)
         == StepResult(Fresh.(nextUpdate := 1.1, drag := 5.0, angularDrag := 0.0), AddForce(Vec3(0.0, 9000.0, 0.0)))
  {
    StepIsRespond(Fresh, UnitPose, AtRest, Water(Deep), 1.0);
    DeepClassification();
    RestingUnitForceFull(Deep);
    NoSpinNoAngularDrag();
    RespondDeep();
  }

  lemma RespondDeep()
    ensures Respond(Fresh, Classification(1.0, true, Some(Zero)), Vec3(0.0, 9000.0, 0.0), 0.0, 1.0)
         == StepResult(Fresh.(nextUpdate := 1.1, drag := 5.0, angularDrag := 0.0), AddForce(Vec3(0.0, 9000.0, 0.0)))
  {
  }

  /** Lower half inside: fraction one half, half the submerged drag, and the
      force at the mean of the four lower corners. */
  lemma ScenarioHalfSubmerged()
    ensures Step(Fresh, UnitPose, AtRest, Some(Water(SurfaceAtOrigin)), 1.0)
         == StepResult(Fresh.(nextUpdate := 1.1, drag := 2.5),
                       AddForceAtPosition(Vec3(0.0, 5000.0, 0.0), Vec3(0.0, -0.5, 0.0)))
  {
    StepIsRespond(Fresh, UnitPose, AtRest, Water(SurfaceAtOrigin), 1.0);
    HalfClassification();
    RestingUnitForceHalf(SurfaceAtOrigin);
    RespondHalf(CalculateAngularDrag(1000.0, Zero, 5.0, UnitScale));
  }

  lemma RespondHalf(ad: real)
    ensures Respond(Fresh, Classification(0.5, false, Some(Vec3(0.0, -0.5, 0.0))), Vec3(0.0, 5000.0, 0.0), ad, 1.0)
         == StepResult(Fresh.(nextUpdate := 1.1, drag := 2.5),
                       AddForceAtPosition(Vec3(0.0, 5000.0, 0.0), Vec3(0.0, -0.5, 0.0)))
  {
  }

  /** Entirely outside though the colliders overlap: no force and both
      cached defaults. */
  lemma ScenarioOutside()
    ensures Step(Fresh, UnitPose, AtRest, Some(Water(Elsewhere)), 1.0)
         == StepResult(Fresh.(nextUpdate := 1.1), NoForce)
  {
    StepIsRespond(Fresh, UnitPose, AtRest, Water(Elsewhere), 1.0);
    ElsewhereClassification();
    RespondOutside(AppliedForce(Zero, UnitScale, 0.0, Water(Elsewhere)), CalculateAngularDrag(1000.0, Zero, 5.0, UnitScale));
  }

  lemma RespondOutside(force: Vec3, ad: real)
    ensures Respond(Fresh, Classification(0.0, false, None), force, ad, 1.0)
         == StepResult(Fresh.(nextUpdate := 1.1), NoForce)
  {
  }
}
