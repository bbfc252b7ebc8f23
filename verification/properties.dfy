/** Properties of the floater's update that relate its branches to the
    sampled corners, and several calls to one another. */
module FloatingProperties {
  import opened Wrappers
  import opened Vectors
  import opened Bounds
  import opened Liquids
  import opened Sampling
  import opened Submersion
  import opened Forces
  import opened Floating

  /** An update is the branch policy applied to the sampled classification. */
  lemma StepIsRespond(f: Floater, pose: Pose, motion: Motion, l: Liquid, time: real)
    requires f.nextUpdate < time
    ensures var c := GetCentreOfBuoyancy(pose, l.bounds);
      Step(f, pose, motion, Some(l), time)
      == Respond(f, c, AppliedForce(motion.velocity, pose.scale, c.fraction, l),
                 CalculateAngularDrag(l.density, motion.angularVelocity, f.angularDragCoefficient, pose.scale), time)
  {
  }

  /** All eight corners inside: the submerged drag pair, and the force at
      the centre of mass. */
  lemma StepSubmerged(f: Floater, pose: Pose, motion: Motion, l: Liquid, time: real)
    ensures var r := Step(f, pose, motion, Some(l), time);
      var c := GetCentreOfBuoyancy(pose, l.bounds);
      f.nextUpdate < time && c.submerged ==>
        && r.floater.drag == f.submergedDragCoefficient
        && r.floater.angularDrag == CalculateAngularDrag(l.density, motion.angularVelocity,
                                                          f.angularDragCoefficient, pose.scale)
        && r.action == AddForce(AppliedForce(motion.velocity, pose.scale, 1.0, l))
  {
  }

  /** Some but not all corners inside: the drag scaled by the fraction, the
      default angular drag, and the force at the centre of buoyancy. */
  lemma StepPartial(f: Floater, pose: Pose, motion: Motion, l: Liquid, time: real)
    ensures var r := Step(f, pose, motion, Some(l), time);
      var c := GetCentreOfBuoyancy(pose, l.bounds);
      f.nextUpdate < time && 0.0 < c.fraction < 1.0 ==>
        && r.floater.drag == PartialDrag(f.submergedDragCoefficient, c.fraction)
        && r.floater.angularDrag == f.defaultAngularDrag
        && r.action == AddForceAtPosition(AppliedForce(motion.velocity, pose.scale, c.fraction, l),
                                          Mean(InsidePoints(SamplePoints(pose), l.bounds)))
  {
  }

  /** No corner inside: both defaults restored and no force. */
  lemma StepDry(f: Floater, pose: Pose, motion: Motion, l: Liquid, time: real)
    ensures var r := Step(f, pose, motion, Some(l), time);
      var c := GetCentreOfBuoyancy(pose, l.bounds);
      f.nextUpdate < time && c.fraction == 0.0 ==>
        && r.floater.drag == f.defaultDrag
        && r.floater.angularDrag == f.defaultAngularDrag
        && r.action == NoForce
  {
  }

  /** Once a liquid has been met, a second call at the same or an earlier
      time changes nothing and applies no force, whatever it is given. */
  lemma SecondCallIsNoOp(f: Floater, pose: Pose, motion: Motion, l: Liquid, time: real,
                          pose': Pose, motion': Motion, liquid': Option<Liquid>, time': real)
    requires time' <= time
    ensures var g := Step(f, pose, motion, Some(l), time).floater;
      Step(g, pose', motion', liquid', time') == StepResult(g, NoForce)
  {
  }

  /** After an update, every call within the next `UpdateFrequency` seconds
      is a no-op. */
  lemma ThrottleWindow(f: Floater, pose: Pose, motion: Motion, l: Liquid, time: real,
                       pose': Pose, motion': Motion, liquid': Option<Liquid>, time': real)
    requires f.nextUpdate < time
    requires time' <= time + UpdateFrequency
    ensures var g := Step(f, pose, motion, Some(l), time).floater;
      Step(g, pose', motion', liquid', time') == StepResult(g, NoForce)
  {
  }

  /** A force is applied only when some corner is inside the liquid; in
      particular the undefined centre of a zero count is never used. */
  lemma ForceNeedsSubmergedCorner(f: Floater, pose: Pose, motion: Motion, liquid: Option<Liquid>, time: real)
    ensures Step(f, pose, motion, liquid, time).action != NoForce ==>
      && liquid.Some?
      && GetCentreOfBuoyancy(pose, liquid.value.bounds).fraction > 0.0
      && GetCentreOfBuoyancy(pose, liquid.value.bounds).centre.Some?
  {
    if liquid.Some? && f.nextUpdate < time {
      StepDry(f, pose, motion, liquid.value, time);
    }
  }

  /** A force applied off-centre acts at a point inside the liquid's bounds. */
  lemma ForcePointInLiquid(f: Floater, pose: Pose, motion: Motion, liquid: Option<Liquid>, time: real)
    ensures var a := Step(f, pose, motion, liquid, time).action;
      a.AddForceAtPosition? ==> liquid.Some? && Contains(liquid.value.bounds, a.position)
  {
    if liquid.Some? && f.nextUpdate < time {
      var l := liquid.value;
      StepPartial(f, pose, motion, l, time);
      var c := GetCentreOfBuoyancy(pose, l.bounds);
      if !c.submerged && c.centre.Some? {
        CentreLiesInLiquid(SamplePoints(pose), l.bounds);
      }
    }
  }

  /** The partly submerged drag lies between zero and the submerged
      coefficient. */
  lemma PartialDragBetween(coefficient: real, fraction: real)
    requires coefficient >= 0.0
    requires 0.0 < fraction < 1.0
    ensures 0.0 <= PartialDrag(coefficient, fraction) <= coefficient
  {
  }

  /** An unrotated floater whose whole box lies in the liquid is pushed at its
      centre of mass with the submerged drag, whatever its size or position. */
  lemma UnrotatedInsidePushesAtCentre(f: Floater, position: Vec3, scale: Vec3, motion: Motion, l: Liquid, time: real)
    requires f.nextUpdate < time
    requires Within(FloaterBox(position, scale), l.bounds)
    ensures var r := Step(f, Pose(position, scale, Identity), motion, Some(l), time);
      && r.floater.drag == f.submergedDragCoefficient
      && r.action == AddForce(AppliedForce(motion.velocity, scale, 1.0, l))
  {
    UnrotatedInsideIsSubmerged(position, scale, l.bounds);
    StepSubmerged(f, Pose(position, scale, Identity), motion, l, time);
  }

  /** The first update after `Awake` happens as soon as time is past zero. */
  lemma AwakeFirstUpdate(drag: real, angularDrag: real, pose: Pose, motion: Motion, l: Liquid, time: real)
    ensures var r := Step(Awake(drag, angularDrag), pose, motion, Some(l), time);
      r.floater.nextUpdate == (if time > 0.0 then time + UpdateFrequency else 0.0)
  {
  }
}
