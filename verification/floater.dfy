/** The `Floater` component: the throttled per-tick update that runs while the
    floater's collider overlaps another collider, as one pure step function.
    The rigid body's drag pair is part of the state the step rewrites; the
    force it hands to the physics engine is returned as an action. */
module Floating {
  import opened Wrappers
  import opened Vectors
  import opened Liquids
  import opened Sampling
  import opened Submersion
  import opened Forces

  /** Delay between two updates, in seconds. */
  const UpdateFrequency := 0.1

  /** The floater's throttle state, the body's current drag pair, the drag
      pair cached at start-up, and the two tunable coefficients. */
  datatype Floater = Floater(
    nextUpdate: real,
    drag: real,
    angularDrag: real,
    defaultDrag: real,
    defaultAngularDrag: real,
    submergedDragCoefficient: real,
    angularDragCoefficient: real)

  /** The body's linear and angular velocity, read from the physics engine. */
  datatype Motion = Motion(velocity: Vec3, angularVelocity: Vec3)

  /** What the update asks of the physics engine. */
  datatype ForceAction =
    | NoForce
    | AddForce(force: Vec3)
    | AddForceAtPosition(force: Vec3, position: Vec3)

  datatype StepResult = StepResult(floater: Floater, action: ForceAction)

  /** `Awake` with the inspector defaults: the body's resting drag pair is
      cached, and the first update is due as soon as time passes zero. */
  function Awake(drag: real, angularDrag: real): (f: Floater)
    ensures f.defaultDrag == f.drag == drag
    ensures f.defaultAngularDrag == f.angularDrag == angularDrag
    ensures f.submergedDragCoefficient == 5.0 && f.angularDragCoefficient == 5.0
    ensures f.nextUpdate == 0.0
  {
    Floater(0.0, drag, angularDrag, drag, angularDrag, 5.0, 5.0)
  }

  /** The fields the step never writes are those of `f`. */
  predicate KeepsConfiguration(f: Floater, g: Floater) {
    && g.defaultDrag == f.defaultDrag
    && g.defaultAngularDrag == f.defaultAngularDrag
    && g.submergedDragCoefficient == f.submergedDragCoefficient
    && g.angularDragCoefficient == f.angularDragCoefficient
  }

  /** The linear drag of a partly submerged body: the submerged coefficient
      scaled by the fraction under the liquid. */
  function PartialDrag(coefficient: real, fraction: real): real {
    coefficient * fraction
  }

  /** The branch policy of an update, given the classification of the
      sample points, the force to apply and the angular drag for a fully
      submerged body. */
  function Respond(f: Floater, c: Classification, force: Vec3, submergedAngularDrag: real, time: real): (r: StepResult)
    requires WellFormed(c)
    ensures KeepsConfiguration(f, r.floater)
    ensures r.floater.nextUpdate == time + UpdateFrequency
    ensures c.submerged ==>
      && r.floater.drag == f.submergedDragCoefficient
      && r.floater.angularDrag == submergedAngularDrag
      && r.action == AddForce(force)
    ensures 0.0 < c.fraction < 1.0 ==>
      && r.floater.drag == PartialDrag(f.submergedDragCoefficient, c.fraction)
      && r.floater.angularDrag == f.defaultAngularDrag
      && r.action == AddForceAtPosition(force, c.centre.value)
    ensures c.fraction == 0.0 ==>
      && r.floater.drag == f.defaultDrag
      && r.floater.angularDrag == f.defaultAngularDrag
      && r.action == NoForce
  {
    var next := f.(nextUpdate := time + UpdateFrequency);
    if c.submerged then
      StepResult(next.(angularDrag := submergedAngularDrag, drag := f.submergedDragCoefficient), AddForce(force))
    else
      var next := next.(angularDrag := f.defaultAngularDrag);
      if c.fraction > 0.0 then
        StepResult(next.(drag := PartialDrag(f.submergedDragCoefficient, c.fraction)), AddForceAtPosition(force, c.centre.value))
      else
        StepResult(next.(drag := f.defaultDrag), NoForce)
  }

  /** `OnTriggerStay`: `liquid` is the other collider's `Liquid` component,
      if it has one, and `time` is the current simulation time. */
  function Step(f: Floater, pose: Pose, motion: Motion, liquid: Option<Liquid>, time: real): (r: StepResult)
    ensures KeepsConfiguration(f, r.floater)
    ensures !(liquid.Some? && f.nextUpdate < time) ==> r == StepResult(f, NoForce)
    ensures liquid.Some? && f.nextUpdate < time ==> r.floater.nextUpdate == time + UpdateFrequency
  {
    match liquid
    case None => StepResult(f, NoForce)
    case Some(l) =>
      if !(f.nextUpdate < time) then StepResult(f, NoForce)
      else
        var c := GetCentreOfBuoyancy(pose, l.bounds);
        var force := AppliedForce(motion.velocity, pose.scale, c.fraction, l);
        var angularDrag := CalculateAngularDrag(l.density, motion.angularVelocity, f.angularDragCoefficient, pose.scale);
        Respond(f, c, force, angularDrag, time)
  }
}
