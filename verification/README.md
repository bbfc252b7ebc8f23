# Floater buoyancy model

A Dafny model of the per-tick update of the Unity `Floater` component. A
floater is a rigid body with a box collider. While it overlaps a `Liquid`
volume, the update does five things:

1. It samples the eight corners of the floater's box.
2. It counts how many corners lie in the liquid's bounds.
3. From the count it derives the fraction under water, a "submerged" flag and
   a centre of buoyancy.
4. It computes a drag force, a buoyant force and, for a fully submerged body,
   an angular drag.
5. It writes the body's drag pair and hands a force to the physics engine,
   applied either at the centre of mass or at the centre of buoyancy.

An update runs at most once every 0.1 s.

The model is functional. `Floating.Step` takes the floater state
(throttle time, current and cached drag pairs, tunable coefficients), the
pose, the velocities, the optional `Liquid` component and the current time.
It returns the new state and a `ForceAction`: `NoForce`, `AddForce` or
`AddForceAtPosition`. Modules:

- `Vectors`: `Vec3` over `real` (Unity's `Vector3`).
- `Bounds`: axis-aligned boxes (Unity's `Bounds`), and the fact that a box
  holds the mean of any of its points.
- `Liquids`: the `Liquid` record (viscosity, density, bounds).
- `Sampling`: corners, `RotatePointAroundPivot`, and the filter of points
  inside the liquid.
- `Submersion`: the classification computed by `GetCentreOfBuoyancy`.
- `Forces`: `GetDrag`, `GetBouyancy` and `CalculateAngularDrag`.
- `Floating`: `Awake`, the branch policy, and `Step`.
- `FloatingProperties`: how the branches relate to the corners, and how
  several calls relate to each other.
- `Scenarios`: three concrete updates.

Four details of the code shape the model:

- The throttle is strict (Assets/Scripts/Floater.cs:41). An update runs only
  when `nextUpdate < time`.
- The angular "speed" is the signed sum `wx + wy + wz`
  (Assets/Scripts/Floater.cs:113). So a spin about (1, -1, 0) gets no angular
  drag (`Forces.OpposedSpinGetsNoAngularDrag`).
- When no corner is inside, `GetCentreOfBuoyancy` divides a zero sum by a
  zero count (Assets/Scripts/Floater.cs:219). In IEEE arithmetic that is a
  NaN vector. The model writes this centre as `None`, and
  `FloatingProperties.ForceNeedsSubmergedCorner` shows it never reaches a
  force.
- When all eight corners are inside, the centre is the zero vector. It is
  never used, because that branch applies the force at the centre of mass.

Assumptions that stand for engine calls:

- `Bounds.Contains` is containment in the closed box.
- `Quaternion * Vector3` is an arbitrary map `Vec3 -> Vec3` (`Sampling.Rotation`).
  A property that needs a real rotation requires `rotation(Zero) == Zero`,
  or is stated for `Identity`.
- `Time.time`, the rigid body's velocities and its transform are parameters.

## Model

| member | source | states |
|---|---|---|
| `Sampling.UnitCornersAreSignCombinations` | Assets/Scripts/Floater.cs:162-176 | the eight listed corners are exactly the eight (±1, ±1, ±1) sign vectors, each once |
| `Sampling.ScaledUnitCorners` | Assets/Scripts/Floater.cs:178-183 | scaling each unit corner component-wise by half the local scale gives the offsets (±sx/2, ±sy/2, ±sz/2) |
| `Sampling.RotatePointAroundPivot` | Assets/Scripts/Floater.cs:232-236 | a rotation that fixes the origin leaves the pivot fixed; the identity rotation leaves every point unchanged |
| `Sampling.SamplePoints` | Assets/Scripts/Floater.cs:178-197 | there are eight sample points; point i is the world position plus the rotated i-th half-extent offset, because the position added before rotating cancels out |
| `Sampling.UnrotatedPointsInFloaterBox` | Assets/Scripts/Floater.cs:169-197 | with the identity rotation every sample point lies in the floater's own box |
| `Sampling.InsidePoints` | Assets/Scripts/Floater.cs:199-204 | every kept point is a sample point inside the bounds, and every sample point inside is kept; no more points are kept than were sampled; all are kept iff every point is inside, and none are kept iff no point is inside |
| `Sampling.InsideMultiset` | Assets/Scripts/Floater.cs:199-204 | each point is kept exactly as many times as it occurs among the sample points when it is inside the bounds, and never otherwise, so the count and the mean of the kept points are fixed by which corners are inside |
| `Sampling.AllInsideKept` | Assets/Scripts/Floater.cs:199-204 | when every sample point is inside the bounds, the kept list is the whole sample list, in order |
| `Sampling.InsideMonotone` | Assets/Scripts/Floater.cs:199-204 | a liquid box within a larger one holds no more of the same points |
| `Sampling.SamplingTranslationInvariant` | Assets/Scripts/Floater.cs:185-204 | moving the floater and the liquid by the same offset keeps the count of corners inside |
| `Submersion.FractionOfCount` | Assets/Scripts/Floater.cs:155-210 | for a count of 0 to 8, count/8 lies in [0, 1], equals 1 iff the count is 8, and equals 0 iff it is 0 |
| `Submersion.Classify` | Assets/Scripts/Floater.cs:206-222 | the fraction is (corners inside)/8, in [0, 1]; submerged iff all eight corners are inside; when submerged the centre is the zero vector; the centre is undefined exactly when no corner is inside; otherwise it is the mean of exactly the inside corners |
| `Submersion.GetCentreOfBuoyancy` | Assets/Scripts/Floater.cs:152-223 | for the floater's eight sampled corners: the fraction is (corners inside)/8 and lies in [0, 1]; submerged iff all eight are inside; when submerged the centre is the zero vector; the centre is undefined iff none is inside; otherwise, when partly submerged, it is the mean of the inside corners |
| `Submersion.CentreLiesInLiquid` | Assets/Scripts/Floater.cs:212-220 | when the centre is an average, it lies in the liquid's bounds, whatever the rotation |
| `Submersion.UnrotatedCentreLiesInFloater` | Assets/Scripts/Floater.cs:169-220 | with the identity rotation, an averaged centre also lies in the floater's own box |
| `Submersion.UnrotatedInsideIsSubmerged` | Assets/Scripts/Floater.cs:169-210 | an unrotated floater whose box lies within the liquid's box is submerged with fraction 1 |
| `Submersion.FractionMonotone` | Assets/Scripts/Floater.cs:199-207 | a larger liquid box never lowers the fraction under water |
| `Bounds.MeanInBox` | Assets/Scripts/Floater.cs:213-220 | the average of a non-empty set of points of a box is a point of that box |
| `Forces.GetDrag` | Assets/Scripts/Floater.cs:127-145 | a missing liquid gives the zero vector; at rest the drag is up times density; with non-negative viscosity the velocity term never points along the velocity |
| `Forces.GetBuoyancy` | Assets/Scripts/Floater.cs:84-104 | the buoyancy is vertical, with size density × volume × fraction; it is zero when the liquid is missing or the fraction is 0 |
| `Forces.BuoyancyMonotone` | Assets/Scripts/Floater.cs:92-96 | with non-negative density and volume, a larger fraction never gives less lift |
| `Forces.AppliedForce` | Assets/Scripts/Floater.cs:46-48 | the applied force is drag + 8 × buoyancy: horizontal parts −v·viscosity, vertical part −vy·viscosity + density + 8·density·volume·fraction |
| `Forces.CalculateAngularDrag` | Assets/Scripts/Floater.cs:111-119 | the angular drag is non-negative when density, coefficient and area proxy are; it is zero whenever the signed sum of the angular-velocity components is 0 |
| `Forces.AreaProxyNonNegative` | Assets/Scripts/Floater.cs:115 | a non-negative local scale gives a non-negative area proxy sx·sy + sx·sz + sy·sz |
| `Forces.AngularDragEven` | Assets/Scripts/Floater.cs:113-118 | reversing the angular velocity leaves the angular drag unchanged |
| `Forces.OpposedSpinGetsNoAngularDrag` | Assets/Scripts/Floater.cs:113 | because the components are summed with their signs, a spin about (1, −1, 0) gets zero angular drag |
| `Floating.Awake` | Assets/Scripts/Floater.cs:23-33 | the cached defaults equal the body's drag pair at start-up; both coefficients start at 5; the first update is due after time 0 |
| `Floating.Respond` | Assets/Scripts/Floater.cs:52-73 | submerged: submerged drag, computed angular drag, force at the centre of mass. Partly submerged: drag scaled by the fraction, default angular drag, force at the centre of buoyancy. Dry: both defaults and no force. Every branch sets the next update 0.1 s later |
| `Floating.Step` | Assets/Scripts/Floater.cs:39-76 | without a liquid component, or before `nextUpdate`, nothing changes and no force is applied; otherwise the next update is due 0.1 s later; the defaults and coefficients are never written |
| `FloatingProperties.StepSubmerged` | Assets/Scripts/Floater.cs:52-58 | when all eight corners are inside, an update sets the submerged drag and the computed angular drag, and pushes at the centre of mass with the fraction-1 force |
| `FloatingProperties.StepPartial` | Assets/Scripts/Floater.cs:59-67 | when some but not all corners are inside, an update scales the drag by the fraction, restores the default angular drag, and pushes at the mean of the inside corners |
| `FloatingProperties.StepDry` | Assets/Scripts/Floater.cs:68-71 | when no corner is inside, an update restores both defaults and applies no force |
| `FloatingProperties.SecondCallIsNoOp` | Assets/Scripts/Floater.cs:41-73 | once a liquid has been met, a second call at the same or an earlier time changes nothing and applies no force, whatever its other inputs |
| `FloatingProperties.ThrottleWindow` | Assets/Scripts/Floater.cs:17-73 | after an update, every call within the next 0.1 s is a no-op |
| `FloatingProperties.ForceNeedsSubmergedCorner` | Assets/Scripts/Floater.cs:63-71 | a force is applied only when a liquid is present and at least one corner is inside, so the undefined zero-count centre never reaches a force |
| `FloatingProperties.ForcePointInLiquid` | Assets/Scripts/Floater.cs:63-66 | a force applied at a position acts at a point inside the liquid's bounds |
| `FloatingProperties.PartialDragBetween` | Assets/Scripts/Floater.cs:65 | the partly submerged drag lies between 0 and the submerged coefficient |
| `FloatingProperties.UnrotatedInsidePushesAtCentre` | Assets/Scripts/Floater.cs:52-57 | an unrotated floater whose box lies in the liquid is pushed at its centre of mass with the submerged drag |
| `FloatingProperties.AwakeFirstUpdate` | Assets/Scripts/Floater.cs:18-41 | after `Awake`, the first update happens exactly when the time is past zero |
| `Scenarios.ScenarioSubmerged` | Assets/Scripts/Floater.cs:39-58 | a unit floater fully inside water of density 1000, at rest: drag 5, angular drag 0, force (0, 9000, 0) at the centre of mass |
| `Scenarios.ScenarioHalfSubmerged` | Assets/Scripts/Floater.cs:39-67 | with only its lower half inside: drag 2.5, default angular drag, force (0, 5000, 0) at (0, −0.5, 0) |
| `Scenarios.ScenarioOutside` | Assets/Scripts/Floater.cs:39-71 | entirely outside the liquid's box: both defaults and no force |

## Left out

- Unity lifecycle and component lookup (`RequireComponent`, `GetComponent`, `Awake` as an engine callback). These are explicit inputs: the optional `Liquid`, the pose, the motion and the initial drag pair.
- The `MissingComponentException` handlers and their logging in `GetDrag` and `GetBouyancy`. They are modelled only as "a missing liquid gives the zero vector". The `print` calls are left out too.
- Quaternion arithmetic. The rotation is an abstract map on vectors, so no property that needs a real rotation, such as a full turn restoring the corners, is stated. The identity-rotation properties stand in for it.
- The internals of `Bounds.Contains`. The model assumes containment in the closed box.
- IEEE float behaviour: rounding, the 32-bit `0.1f` interval modelled as the real 0.1, and the NaN from 0/0 (modelled as `None`).
- The rigid-body integrator that consumes the forces, and a body touching two liquids at once.
- `SceneManager.cs`: random spawning, `Instantiate` and UI text. It holds no logic this model states.
