/** The force formulas of the floater: liquid drag, buoyancy, and the
    angular drag used while fully submerged. */
module Forces {
  import opened Wrappers
  import opened Vectors
  import opened Liquids

  /** The empirical factor the buoyant force is multiplied by. */
  const BuoyancyAmplification := 8.0

  /** The empirical divisor of the angular drag. */
  const AngularDragDivisor := 10000.0

  /** The floater's volume, from its local scale. */
  function Volume(scale: Vec3): real {
    scale.x * scale.y * scale.z
  }

  /** The surface-area proxy of the angular drag, from the local scale. */
  function AreaProxy(scale: Vec3): real {
    scale.x * scale.y + scale.x * scale.z + scale.y * scale.z
  }

  /** `GetDrag`: resistance against the velocity plus a constant upward
      pressure; the zero vector when the liquid component is missing. */
  function GetDrag(velocity: Vec3, liquid: Option<Liquid>): (r: Vec3)
    ensures liquid.None? ==> r == Zero
    ensures liquid.Some? && velocity == Zero ==> r == Times(Up, liquid.value.density)
    ensures liquid.Some? && liquid.value.viscosity >= 0.0 ==>
      Dot(Sub(r, Times(Up, liquid.value.density)), velocity) <= 0.0
  {
    match liquid
    case None => Zero
    case Some(l) =>
      DragAtRest(velocity, l);
      DragOpposesMotion(velocity, l);
      Add(Times(Times(velocity, -1.0), l.viscosity), Times(Up, l.density))
  }

  lemma DragAtRest(velocity: Vec3, l: Liquid)
    ensures velocity == Zero ==>
      Add(Times(Times(velocity, -1.0), l.viscosity), Times(Up, l.density)) == Times(Up, l.density)
  {
  }

  lemma DragOpposesMotion(velocity: Vec3, l: Liquid)
    ensures var pressure := Times(Up, l.density);
      l.viscosity >= 0.0 ==>
      Dot(Sub(Add(Times(Times(velocity, -1.0), l.viscosity), pressure), pressure), velocity) <= 0.0
  {
    var resistance := Times(Times(velocity, -1.0), l.viscosity);
    var pressure := Times(Up, l.density);
    assert Sub(Add(resistance, pressure), pressure) == resistance;
    ResistanceOpposesVelocity(velocity, l.viscosity);
  }

  lemma ResistanceOpposesVelocity(v: Vec3, viscosity: real)
    ensures viscosity >= 0.0 ==> Dot(Times(Times(v, -1.0), viscosity), v) <= 0.0
  {
    var s := v.x * v.x + v.y * v.y + v.z * v.z;
    assert v.x * v.x >= 0.0 && v.y * v.y >= 0.0 && v.z * v.z >= 0.0;
    assert Dot(Times(Times(v, -1.0), viscosity), v) == -(viscosity * s);
    if viscosity >= 0.0 {
      assert viscosity * s >= 0.0;
    }
  }

  /** `GetBouyancy`: an upward force proportional to the displaced volume;
      the zero vector when the liquid component is missing. */
  function GetBuoyancy(scale: Vec3, fraction: real, liquid: Option<Liquid>): (r: Vec3)
    ensures r.x == 0.0 && r.z == 0.0
    ensures liquid.None? || fraction == 0.0 ==> r == Zero
    ensures liquid.Some? ==> r.y == liquid.value.density * (Volume(scale) * fraction)
  {
    match liquid
    case None => Zero
    case Some(l) =>
      var displaced := Volume(scale) * fraction;
      Times(Times(Up, l.density), displaced)
  }

  /** More of the floater under the liquid never gives less lift. */
  lemma BuoyancyMonotone(scale: Vec3, f1: real, f2: real, liquid: Liquid)
    requires liquid.density >= 0.0 && Volume(scale) >= 0.0
    requires f1 <= f2
    ensures GetBuoyancy(scale, f1, Some(liquid)).y <= GetBuoyancy(scale, f2, Some(liquid)).y
  {
  }

  /** The force the floater applies in one update. */
  function AppliedForce(velocity: Vec3, scale: Vec3, fraction: real, liquid: Liquid): (r: Vec3)
    ensures r.x == -velocity.x * liquid.viscosity && r.z == -velocity.z * liquid.viscosity
    ensures r.y == -velocity.y * liquid.viscosity + liquid.density
                   + BuoyancyAmplification * liquid.density * Volume(scale) * fraction
  {
    Add(GetDrag(velocity, Some(liquid)), Times(GetBuoyancy(scale, fraction, Some(liquid)), BuoyancyAmplification))
  }

  /** `CalculateAngularDrag`: the drag equation with the signed sum of the
      angular-velocity components standing for the speed. */
  function CalculateAngularDrag(density: real, angularVelocity: Vec3, coefficient: real, scale: Vec3): (r: real)
    ensures density >= 0.0 && coefficient >= 0.0 && AreaProxy(scale) >= 0.0 ==> r >= 0.0
    ensures angularVelocity.x + angularVelocity.y + angularVelocity.z == 0.0 ==> r == 0.0
  {
    var u := angularVelocity.x + angularVelocity.y + angularVelocity.z;
    var fd := 0.5 * density * u * u * coefficient * AreaProxy(scale);
    DragEquationNonNegative(density, u, coefficient, AreaProxy(scale));
    fd / AngularDragDivisor
  }

  lemma DragEquationNonNegative(p: real, u: real, cd: real, a: real)
    ensures p >= 0.0 && cd >= 0.0 && a >= 0.0 ==> 0.5 * p * u * u * cd * a >= 0.0
  {
  }

  /** A non-negative scale gives a non-negative area proxy. */
  lemma AreaProxyNonNegative(scale: Vec3)
    requires scale.x >= 0.0 && scale.y >= 0.0 && scale.z >= 0.0
    ensures AreaProxy(scale) >= 0.0
  {
  }

  /** Reversing the spin leaves the angular drag unchanged. */
  lemma AngularDragEven(density: real, w: Vec3, coefficient: real, scale: Vec3)
    ensures CalculateAngularDrag(density, Neg(w), coefficient, scale)
         == CalculateAngularDrag(density, w, coefficient, scale)
  {
  }

  /** Because the components are summed with their signs, a body spinning
      about (1, -1, 0) gets no angular drag at all. */
  lemma OpposedSpinGetsNoAngularDrag(density: real, coefficient: real, scale: Vec3)
    ensures CalculateAngularDrag(density, Vec3(1.0, -1.0, 0.0), coefficient, scale) == 0.0
  {
  }
}
