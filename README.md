# Boids: one boid's frame and the settings object, in Dafny

This project models the core of a Unity flocking simulation. Each boid runs
four steps every frame:

1. It finds the other boids within its perception range.
2. It derives separation, alignment and cohesion forces from them and applies
   them to its acceleration (dividing by its mass).
3. It turns back when it has left its boundary sphere.
4. It moves: the acceleration is clamped and added to the velocity, the
   velocity is clamped to the speed, and a stalled velocity is replaced by
   full speed ahead. Then the forces are cleared.

The tunables live in a shared settings object. Its setters clamp their input
to a fixed range, a reset restores fixed defaults, and two toggles flip the
debug-lines and bounds flags.

The modules are:

- `Vectors` (vectors.dfy): Vector3 over the reals, with its approximate `==`.
- `EngineMath` (engine_math.dfy): the engine functions the boid calls,
  supplied as an `Engine` value. These are the square root, LookRotation,
  the two Slerps, Quaternion.Angle and a rotation's forward vector. The only
  laws assumed of them are that the square root is one and that the forward
  vector has length 1. `Vector3.ClampMagnitude` is written out in terms of
  the square root, as Unity defines it.
- `Settings` (boid_settings.dfy): `Tunables`, the settings as a value with
  the setters as functions, and `BoidSettings`, the object whose methods
  assign its fields. Each method is proved to produce the `Tunables`
  function's result.
- `FlockRules` (flock_rules.dfy): the neighbour scan and the three force
  rules as functions of the neighbour map. The dictionary's enumeration order
  is left arbitrary.
- `Boids` (boid.dfy): the frame as functions on a `BoidState` value, and the
  `Boid` class. Its methods loop over the population and over the neighbour
  map and update the fields in place. Each is proved to compute the
  corresponding function, and the frame's properties are proved about those
  functions.

The population is a sequence of (position, velocity) records. A boid's
identity is its index in that sequence. `Time.deltaTime` is the parameter
`dt`.

Points where the code does less, or something other, than its comments and
names suggest. The model states what the code does:

- **Live population.** Boids update one after another, and each reads the
  other boids' current state (Assets/Scripts/Boid.cs:148-153). So the model
  is one boid's frame against a population as it stands, not a
  snapshot-then-commit tick over the whole flock.
- **Minimum-speed floor.** Move does not keep the velocity at the configured
  speed. Afterwards the velocity is either forward × speed, at exactly the
  speed, or its squared magnitude lies strictly above 0.1 and at most speed²
  (`MoveLimitsVelocity`).
- **Rules with no strength.** A rule whose strength is not positive, or which
  has no neighbour, leaves its accumulator as it was rather than setting it
  to zero. It is zero because ResetForces cleared it at the end of the
  previous frame (and the constructor starts at rest). `AloneFeelsNoForce`
  and `NoStrengthNoForce` state the zero-force laws under that condition.
- **Separation threshold.** Separation compares a neighbour's *squared*
  distance with `perceptionRange * separationStrength`. The model keeps this
  exactly as written.

## Model

| member | source | states |
|---|---|---|
| Settings.Truncate | Assets/Scripts/BoidSettings.cs:39 | C#'s `(int)` cast truncates toward zero: the result is the greatest integer at most x for x ≥ 0 and the least at least x for x < 0 |
| Settings.ClampInt | Assets/Scripts/BoidSettings.cs:39 | Mathf.Clamp on ints: the result is in [min, max], equals the value when it is in range, and is the nearer bound otherwise |
| Settings.Clamp | Assets/Scripts/BoidSettings.cs:40-45 | Mathf.Clamp on floats: the result is in [min, max], equals the value when it is in range, and is the nearer bound otherwise |
| Settings.TruncateAgreesWithFloorOnCount | Assets/Scripts/BoidSettings.cs:39 | clamping the truncated count to [1, 500] gives the same boid count as clamping its floor, negative inputs included |
| Settings.Tunables.ChangeCount | Assets/Scripts/BoidSettings.cs:39 | boidCount is always in [1, 500]; it equals the truncated input when that is in range; no other setting changes |
| Settings.Tunables.ChangeSeparation | Assets/Scripts/BoidSettings.cs:40 | separationStrength is in [0, 1] and equals the input when in range; nothing else changes |
| Settings.Tunables.ChangeAlignment | Assets/Scripts/BoidSettings.cs:41 | alignmentStrength is in [0, 1] and equals the input when in range; nothing else changes |
| Settings.Tunables.ChangeCohesion | Assets/Scripts/BoidSettings.cs:42 | cohesionStrength is in [0, 1] and equals the input when in range; nothing else changes |
| Settings.Tunables.ChangeSpeed | Assets/Scripts/BoidSettings.cs:43 | speed is in [0, 8] and equals the input when in range; nothing else changes |
| Settings.Tunables.ChangeMaxForce | Assets/Scripts/BoidSettings.cs:44 | maxAccel is in [0, 1] and equals the input when in range; nothing else changes |
| Settings.Tunables.ChangePerception | Assets/Scripts/BoidSettings.cs:45 | perceptionRange is in [0, 2] and equals the input when in range; nothing else changes |
| Settings.Tunables.ToggleDebugLines | Assets/Scripts/BoidSettings.cs:66 | drawDebugLines is negated and nothing else changes |
| Settings.Tunables.ToggleBounds | Assets/Scripts/BoidSettings.cs:70 | boundsOn is negated and nothing else changes |
| Settings.Defaults | Assets/Scripts/BoidSettings.cs:28-36 | the defaults lie inside every setter's range, the mass is positive, bounds are on and debug lines are off |
| Settings.ToggleDebugLinesTwice | Assets/Scripts/BoidSettings.cs:66 | toggling the debug lines twice restores every setting |
| Settings.ToggleBoundsTwice | Assets/Scripts/BoidSettings.cs:70 | toggling the bounds flag twice restores every setting |
| Settings.ChangeInRangeIsIdentity | Assets/Scripts/BoidSettings.cs:39-45 | every setter, given the value already held (in range), leaves the settings unchanged |
| Settings.BoidSettings.constructor | Assets/Scripts/BoidSettings.cs:5-25 | the object holds the authored values, with a positive mass |
| Settings.BoidSettings.ChangeCount | Assets/Scripts/BoidSettings.cs:39 | the object's new settings are `Tunables.ChangeCount` of the old ones |
| Settings.BoidSettings.ChangeSeparation | Assets/Scripts/BoidSettings.cs:40 | the object's new settings are `Tunables.ChangeSeparation` of the old ones |
| Settings.BoidSettings.ChangeAlignment | Assets/Scripts/BoidSettings.cs:41 | the object's new settings are `Tunables.ChangeAlignment` of the old ones |
| Settings.BoidSettings.ChangeCohesion | Assets/Scripts/BoidSettings.cs:42 | the object's new settings are `Tunables.ChangeCohesion` of the old ones |
| Settings.BoidSettings.ChangeSpeed | Assets/Scripts/BoidSettings.cs:43 | the object's new settings are `Tunables.ChangeSpeed` of the old ones |
| Settings.BoidSettings.ChangeMaxForce | Assets/Scripts/BoidSettings.cs:44 | the object's new settings are `Tunables.ChangeMaxForce` of the old ones |
| Settings.BoidSettings.ChangePerception | Assets/Scripts/BoidSettings.cs:45 | the object's new settings are `Tunables.ChangePerception` of the old ones |
| Settings.BoidSettings.ResetSettings | Assets/Scripts/BoidSettings.cs:48-59 | whatever the state before, the settings become the defaults |
| Settings.BoidSettings.Reset | Assets/Scripts/BoidSettings.cs:63 | the editor hook has the same effect as ResetSettings |
| Settings.BoidSettings.ToggleDebugLines | Assets/Scripts/BoidSettings.cs:66 | the object's new settings are `Tunables.ToggleDebugLines` of the old ones |
| Settings.BoidSettings.ToggleBounds | Assets/Scripts/BoidSettings.cs:68-70 | the object's new settings are `Tunables.ToggleBounds` of the old ones |
| Settings.ResetTwiceAndToggleTwice | Assets/Scripts/BoidSettings.cs:48-66 | resetting twice leaves the state of one reset, and toggling the debug lines twice restores it |
| EngineMath.ClampMagnitudeLimits | Assets/Scripts/Boid.cs:85-87 | Vector3.ClampMagnitude never returns a vector longer than the limit; a vector within the limit comes back unchanged; a longer one comes back at exactly the limit, parallel to and in the same direction as the input |
| FlockRules.Sighting | Assets/Scripts/Boid.cs:152-158 | the record holds the other boid's position and velocity, the vector from the observer to it, and that vector's squared length |
| FlockRules.NeighborsExactly | Assets/Scripts/Boid.cs:142-161 | boid j is a neighbour exactly when it is another boid of the population strictly within the perception range; its record holds its position, its velocity, the vector to it and its squared length |
| FlockRules.NeighborsSymmetric | Assets/Scripts/Boid.cs:150-156 | when every boid stands where the population says, j sees i exactly when i sees j |
| FlockRules.NeighborsInRange | Assets/Scripts/Boid.cs:150-156 | a boid never records itself, and every recorded squared distance is below the squared perception range |
| FlockRules.ThreeBoidsScenario | Assets/Scripts/Boid.cs:142-161 | with boids at the origin, (0.5, 0, 0) and (5, 5, 5) and range 1, the boid at the origin records exactly the second one, at squared distance 0.25 |
| FlockRules.TotalPick | Assets/Scripts/Boid.cs:169-175 | the sum over the neighbour dictionary does not depend on the enumeration order: any neighbour can be taken first |
| FlockRules.TotalUniform | Assets/Scripts/Boid.cs:193-196 | when every neighbour contributes the same vector, the sum is that vector times the neighbour count |
| FlockRules.TotalRepelBeyond | Assets/Scripts/Boid.cs:169-175 | neighbours at or beyond the separation threshold contribute nothing to the separation sum |
| FlockRules.RulesBounded | Assets/Scripts/Boid.cs:163-232 | each rule leaves its accumulator alone when its strength is not positive or there is no neighbour (so the divisions by the neighbour count only happen when it is positive); otherwise separation is at most maxAccel/2 long and alignment and cohesion at most maxAccel |
| FlockRules.SeparationBounded | Assets/Scripts/Boid.cs:177-179 | an active separation force is at most maxAccel/2 long |
| FlockRules.AlignmentBounded | Assets/Scripts/Boid.cs:198-201 | an active alignment force is at most maxAccel long |
| FlockRules.CohesionBounded | Assets/Scripts/Boid.cs:220-226 | an active cohesion force is at most maxAccel long |
| FlockRules.SeparationIgnoresDistantNeighbors | Assets/Scripts/Boid.cs:169-179 | with no neighbour closer than perceptionRange × separationStrength, separation from rest is zero however many neighbours there are |
| FlockRules.SeparationInactive | Assets/Scripts/Boid.cs:165-166 | with a non-positive strength or no neighbour, separation leaves its accumulator as it was |
| FlockRules.AlignmentFollowsCommonVelocity | Assets/Scripts/Boid.cs:193-201 | alignment from rest is the mean neighbour velocity scaled and clamped: when all neighbours move with v it is clamp(v × alignmentStrength, maxAccel) |
| FlockRules.CohesionSeeksCommonPosition | Assets/Scripts/Boid.cs:215-226 | cohesion from rest points to the neighbours' centre: when all neighbours stand at p it is clamp((p − position) × cohesionStrength, maxAccel) |
| FlockRules.ClampKeepsZero | Assets/Scripts/Boid.cs:179 | clamping the zero vector gives the zero vector |
| Boids.ReflectIsOpposite | Assets/Scripts/Boid.cs:112 | the boundary centre is the midpoint of a position and its turn target, which is exactly as far from the centre |
| Boids.AcceleratedByForce | Assets/Scripts/Boid.cs:72-75 | applying a force changes the acceleration by force/mass: the change times the mass is the force |
| Boids.TurnTransitions | Assets/Scripts/Boid.cs:101-124 | with bounds off nothing changes; a turn starts only outside the sphere, with the reflected target; the target is kept while turning; a turn ends if and only if the boid is inside the sphere with an angle of at most 0.01 to the target rotation; outside, the boid is turning, the target rotation is LookRotation of the target position, and the rotation and the velocity are slerped towards it by deltaTime × speed; inside, rotation, velocity and both targets stay as they were; only the orientation, the velocity and the turn state ever change |
| Boids.TurnTargetIsOpposite | Assets/Scripts/Boid.cs:109-114 | on the first frame outside, the boid starts turning towards 2·centre − position, which is as far outside the sphere as the boid |
| Boids.MoveLimitsAcceleration | Assets/Scripts/Boid.cs:85 | after Move the acceleration is at most maxAccel long |
| Boids.MoveLimitsVelocity | Assets/Scripts/Boid.cs:85-91 | a clamped velocity whose squared magnitude is at most 0.1 is replaced by forward × speed; otherwise the clamped velocity is kept; so the velocity is either forward × speed, with squared magnitude exactly speed², or has squared magnitude in (0.1, speed²]; it is never longer than the speed |
| Boids.MoveFollowsVelocity | Assets/Scripts/Boid.cs:93-98 | a velocity that is not approximately zero moves the boid by velocity × dt and turns it to face the velocity; otherwise position and rotation stay; nothing else but acceleration and velocity changes |
| Boids.StepEndsAtRest | Assets/Scripts/Boid.cs:64-70 | every frame ends with zero acceleration and cleared force accumulators, and with the neighbour map found from the frame's starting position (nothing from an earlier frame survives) |
| Boids.StepWithBoundsOffNeverTurns | Assets/Scripts/Boid.cs:103-104 | with bounds off, a frame never starts or ends a turn and never changes the turn target, however far the boid drifts |
| Boids.AloneFeelsNoForce | Assets/Scripts/Boid.cs:126-140 | a boid at rest that sees no other boid is still at rest after Flocking |
| Boids.NoStrengthNoForce | Assets/Scripts/Boid.cs:126-140 | with every strength at zero or below, a boid at rest is still at rest after Flocking, whatever it sees |
| Boids.CruisingWithoutStrengthKeepsVelocity | Assets/Scripts/Boid.cs:64-99 | with every strength at zero or below, a boid at rest that is inside its sphere (or has bounds off) and whose speed is above the stall floor and within the limit keeps its velocity exactly through one frame and ends it at rest |
| Boids.CruisingWithoutStrengthKeepsVelocityForever | Assets/Scripts/Boid.cs:64-99 | with bounds off and every strength at zero or below, such a boid keeps its velocity exactly and stays at rest through any number of frames, whatever the other boids do |
| Boids.CruiseUnchanged | Assets/Scripts/Boid.cs:82-99 | with no acceleration and a velocity inside (0.1, speed²], Move keeps the velocity and advances the position by velocity × dt |
| Boids.CalmBeforeMove | Assets/Scripts/Boid.cs:66-67 | without strengths and without leaving the sphere, Flocking and TurnAtBounds keep the position and velocity and leave no acceleration |
| Boids.Boid.constructor | Assets/Scripts/Boid.cs:12-30 | a new boid has the given pose and velocity, no forces, no neighbours, is not turning, and has the default sphere of radius 10 at the origin |
| Boids.Boid.SetBoundarySphere | Assets/Scripts/Boid.cs:58-62 | only the boundary centre and radius change |
| Boids.Boid.Update | Assets/Scripts/Boid.cs:64-70 | the new state is one `Step` of the old state (Flocking, TurnAtBounds, Move, ResetForces) and is at rest |
| Boids.Boid.ApplyForce | Assets/Scripts/Boid.cs:72-75 | only the acceleration changes, by force/mass |
| Boids.Boid.ResetForces | Assets/Scripts/Boid.cs:77-80 | the acceleration and the three force accumulators become zero and nothing else changes |
| Boids.Boid.Move | Assets/Scripts/Boid.cs:82-99 | the new state is `Moved` of the old one, whose properties are the three Move lemmas |
| Boids.Boid.TurnAtBounds | Assets/Scripts/Boid.cs:101-124 | the new state is `TurnedAtBounds` of the old one, whose transitions are `TurnTransitions` |
| Boids.Boid.Flocking | Assets/Scripts/Boid.cs:126-140 | the new state has the neighbours found from the current position, the three rules applied to their accumulators, and the three forces applied in turn |
| Boids.Boid.FindNeighbors | Assets/Scripts/Boid.cs:142-161 | the neighbour map is cleared and refilled to exactly `Neighbors` of the population; nothing else changes |
| Boids.Boid.Separation | Assets/Scripts/Boid.cs:163-185 | only the separation accumulator changes, to `SeparationRule` of its old value, whatever order the dictionary is enumerated in |
| Boids.Boid.Alignment | Assets/Scripts/Boid.cs:187-207 | only the alignment accumulator changes, to `AlignmentRule` of its old value, whatever the enumeration order |
| Boids.Boid.Cohesion | Assets/Scripts/Boid.cs:209-232 | only the cohesion accumulator changes, to `CohesionRule` of its old value, whatever the enumeration order |

## Left out

- The registry of boids: `Awake` and the static `boidList` are replaced by
  the population passed to `Update`. Boid identity is replaced by the index
  `self`, and the neighbour dictionary is a map keyed by index.
- `Initialize`: its heading comes from `Random.insideUnitSphere`. The
  constructor instead takes the starting pose and velocity as parameters.
- `Start`: it only calls `Initialize`.
- Every `Debug.DrawLine` call: debug drawing only. The `drawDebugLines` flag
  is modelled, and it never affects the motion.
- `ToggleBounds` flips `boundsOn` as modelled. Its lookup of the scene's
  `Bounds` object and the `SetActive` call are engine calls and are not
  modelled.
- `ResetSettings` restores the values as modelled. Its `UIManager.RefreshUI`
  call is not modelled.
- `boidPrefab`: an engine handle, not modelled.
- The square root, Quaternion.LookRotation, Quaternion.Slerp, Vector3.Slerp,
  Quaternion.Angle and transform.forward are parameters (`Engine`). The only
  laws assumed are that the square root is a square root and that the
  forward direction has length 1. Whether a turn converges, or how many
  frames it takes, is therefore not modelled.
- IEEE single-precision rounding: all arithmetic is on exact reals. The
  literals `.1f` and `.01f` are taken as 0.1 and 0.01.
- `Settings.Truncate`: the `(int)` cast is exact truncation. Its behaviour on
  floats outside the int range is not modelled.
- `Boids.Boid.ApplyForce`, `Boids.Boid.Flocking` and `Boids.Boid.Update`
  require a positive mass (`BoidSettings.Valid`). The source divides by the
  mass unchecked, and its slider range starts at 0.1; a mass of zero is not
  modelled.
- The scratch fields `vectorBetween`, `velocityOther`, `sqrPerceptionRange`
  and `sqrMagnitudeTemp` are locals of the methods. They never carry a value
  from one frame to the next.
- `Boids.CruisingWithoutStrengthKeepsVelocity` covers one frame, and only a
  boid inside its sphere (or with bounds off) whose squared speed is above
  0.1. `Boids.CruisingWithoutStrengthKeepsVelocityForever` covers any number
  of frames, but only with bounds off: with bounds on, the boid can drift
  out of its sphere and start a turn. A boid at or below the stall floor is
  covered by neither.
