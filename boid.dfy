/** One boid's frame: find the neighbours, compute the three flocking forces
    and apply them, turn back at the boundary sphere, move, and clear the
    forces. The state the boid keeps between frames is a `Boid` object; its
    methods are proved to compute the value-level functions of this module and
    of FlockRules, and the properties of the frame are proved about those
    functions. */
module Boids {
  import opened Vectors
  import opened EngineMath
  import opened Settings
  import opened FlockRules

  /** A squared speed at or below this is a stall, replaced by full speed ahead. */
  const MinSqrSpeed: real := 0.1

  /** The angle (degrees) at which a turn back into the sphere counts as done. */
  const AlignedAngle: real := 0.01

  /** The boid's transform and private fields, as one value. */
  datatype BoidState = BoidState(
    position: Vec3,
    rotation: Quat,
    velocity: Vec3,
    acceleration: Vec3,
    separationForce: Vec3,
    alignmentForce: Vec3,
    cohesionForce: Vec3,
    neighbors: map<int, NeighborRecord>,
    boundaryCenter: Vec3,
    boundaryRadius: real,
    turningAround: bool,
    targetPosition: Vec3,
    targetRotation: Quat)
  {
    /** Between frames nothing accelerates the boid and the force accumulators are clear. */
    predicate AtRest() {
      acceleration == Zero && separationForce == Zero && alignmentForce == Zero && cohesionForce == Zero
    }

    /** The boid is strictly outside its boundary sphere. */
    predicate Outside() {
      OutsideSphere(position, boundaryCenter, boundaryRadius)
    }
  }

  predicate OutsideSphere(position: Vec3, center: Vec3, radius: real) {
    SqrMagnitude(Sub(position, center)) > radius * radius
  }

  /** The target picked on leaving the sphere: the position reflected through the centre. */
  function Reflect(position: Vec3, center: Vec3): Vec3 {
    Add(center, Sub(center, position))
  }

  /** The centre is the midpoint of a position and its reflection, which is
      therefore exactly as far from the centre. */
  lemma ReflectIsOpposite(position: Vec3, center: Vec3)
    ensures Add(position, Reflect(position, center)) == Scale(center, 2.0)
    ensures SqrMagnitude(Sub(Reflect(position, center), center)) == SqrMagnitude(Sub(position, center))
  {
    SqrDistanceSymmetric(position, center);
  }

  /** ApplyForce: the force divided by the mass is added to the acceleration. */
  function Accelerated(acceleration: Vec3, force: Vec3, mass: real): Vec3
    requires mass != 0.0
  {
    Add(acceleration, Div(force, mass))
  }

  /** Newton's second law: the change in acceleration times the mass is the force applied. */
  lemma AcceleratedByForce(acceleration: Vec3, force: Vec3, mass: real)
    requires mass != 0.0
    ensures Scale(Sub(Accelerated(acceleration, force, mass), acceleration), mass) == force
  {
    var r := Accelerated(acceleration, force, mass);
    assert r.x - acceleration.x == force.x / mass;
    assert r.y - acceleration.y == force.y / mass;
    assert r.z - acceleration.z == force.z / mass;
  }

  /** Flocking: the neighbours are found afresh, each rule updates its
      accumulator, and the three forces are applied in turn. */
  ghost function Flocked(s: BoidState, population: seq<Agent>, self: int, t: Tunables, e: Engine): BoidState
    requires e.Lawful() && t.mass != 0.0
  {
    var found := Neighbors(population, self, s.position, t.perceptionRange);
    var separation := SeparationRule(s.separationForce, found, t, e);
    var alignment := AlignmentRule(s.alignmentForce, found, t, e);
    var cohesion := CohesionRule(s.cohesionForce, found, s.position, t, e);
    var acceleration := Accelerated(Accelerated(Accelerated(s.acceleration, separation, t.mass), alignment, t.mass), cohesion, t.mass);
    s.(neighbors := found, separationForce := separation, alignmentForce := alignment,
       cohesionForce := cohesion, acceleration := acceleration)
  }

  /** TurnAtBounds, a two-state machine on `turningAround`. With bounds off it
      does nothing. Outside the sphere the boid turns towards a target that is
      fixed on the first frame outside, as the reflection of its position
      through the centre, and kept while it is still turning. Inside the
      sphere the turn ends once the rotation is within AlignedAngle of the
      last target rotation. Only the orientation, the velocity and the turn
      state change. */
  function TurnedAtBounds(s: BoidState, t: Tunables, dt: real, e: Engine): BoidState {
    if !t.boundsOn then s
    else if s.Outside() then TurnToward(s, TurnTarget(s), TurnRate(dt, t), e)
    else if e.angle(s.rotation, s.targetRotation) <= AlignedAngle then
      s.(turningAround := false)
    else
      s
  }

  /** The fraction of a turn made in one frame: Time.deltaTime * speed. */
  function TurnRate(dt: real, t: Tunables): real {
    dt * t.speed
  }

  /** The target of a turn: the one already chosen while turning, otherwise
      the reflection of the position through the centre. */
  function TurnTarget(s: BoidState): Vec3 {
    if s.turningAround then s.targetPosition else Reflect(s.position, s.boundaryCenter)
  }

  /** One frame of a turn: face towards `target` and slerp the rotation and
      the velocity towards it by the fraction `rate`. */
  function TurnToward(s: BoidState, target: Vec3, rate: real, e: Engine): BoidState {
    var targetRotation := e.lookRotation(target);
    s.(turningAround := true, targetPosition := target, targetRotation := targetRotation,
       rotation := e.slerp(s.rotation, targetRotation, rate),
       velocity := e.slerpVector(s.velocity, Sub(target, s.position), rate))
  }

  /** The turn state machine's transitions: a turn starts only outside the
      sphere, with the reflected target; the target is kept while turning; a
      turn ends exactly when the boid is inside the sphere and aligned with
      the last target rotation; outside the sphere the rotation and the
      velocity are slerped towards the target by dt * speed, and inside they
      and the targets stay as they were; nothing but the orientation, the
      velocity and the turn state ever changes. */
  lemma TurnTransitions(s: BoidState, t: Tunables, dt: real, e: Engine)
    ensures var r := TurnedAtBounds(s, t, dt, e);
      && (!t.boundsOn ==> r == s)
      && r == s.(rotation := r.rotation, velocity := r.velocity, turningAround := r.turningAround,
                 targetPosition := r.targetPosition, targetRotation := r.targetRotation)
      && (r.turningAround && !s.turningAround ==>
            t.boundsOn && s.Outside() && r.targetPosition == Reflect(s.position, s.boundaryCenter))
      && (s.turningAround && r.turningAround ==> r.targetPosition == s.targetPosition)
      && (s.turningAround && !r.turningAround ==>
            t.boundsOn && !s.Outside() && e.angle(s.rotation, s.targetRotation) <= AlignedAngle)
      && (t.boundsOn && !s.Outside() && e.angle(s.rotation, s.targetRotation) <= AlignedAngle ==> !r.turningAround)
      && (t.boundsOn && s.Outside() ==> r.turningAround && r.targetRotation == e.lookRotation(r.targetPosition))
      && (t.boundsOn && s.Outside() ==>
            r.rotation == e.slerp(s.rotation, r.targetRotation, TurnRate(dt, t)) &&
            r.velocity == e.slerpVector(s.velocity, Sub(r.targetPosition, s.position), TurnRate(dt, t)))
      && (t.boundsOn && !s.Outside() ==>
            r.targetPosition == s.targetPosition && r.targetRotation == s.targetRotation &&
            r.rotation == s.rotation && r.velocity == s.velocity)
      && (r.velocity != s.velocity || r.rotation != s.rotation ==> t.boundsOn && s.Outside())
  {
  }

  /** Move: the acceleration is clamped to maxAccel and added to the velocity,
      which is clamped to the speed; a velocity that has all but stalled
      (squared magnitude at most MinSqrSpeed) is replaced by the facing
      direction at full speed. A velocity that is not (approximately) zero
      moves the boid by velocity * dt and turns it to face that way. */
  function Moved(s: BoidState, t: Tunables, dt: real, e: Engine): BoidState
    requires e.Lawful()
  {
    var acceleration := ClampMagnitude(e, s.acceleration, t.maxAccel);
    var clamped := ClampMagnitude(e, Add(s.velocity, acceleration), t.speed);
    var velocity := if SqrMagnitude(clamped) <= MinSqrSpeed then Scale(e.forward(s.rotation), t.speed) else clamped;
    if !ApproxEqual(velocity, Zero) then
      s.(acceleration := acceleration, velocity := velocity,
         position := Add(s.position, Scale(velocity, dt)), rotation := e.lookRotation(velocity))
    else
      s.(acceleration := acceleration, velocity := velocity)
  }

  /** Move never leaves the acceleration above maxAccel. */
  lemma MoveLimitsAcceleration(s: BoidState, t: Tunables, dt: real, e: Engine)
    requires e.Lawful()
    ensures SqrMagnitude(Moved(s, t, dt, e).acceleration) <= t.maxAccel * t.maxAccel
  {
    ClampMagnitudeLimits(e, s.acceleration, t.maxAccel);
  }

  /** The minimum-speed floor of Move: when the clamped velocity has all
      but stalled the boid flies full speed ahead, at exactly the speed, and
      otherwise it keeps the clamped velocity, which is then above the floor
      and within the speed limit. Either way the velocity never exceeds the
      speed. */
  lemma MoveLimitsVelocity(s: BoidState, t: Tunables, dt: real, e: Engine)
    requires e.Lawful()
    ensures var clamped := ClampMagnitude(e, Add(s.velocity, ClampMagnitude(e, s.acceleration, t.maxAccel)), t.speed);
      var v := Moved(s, t, dt, e).velocity;
      && (SqrMagnitude(clamped) <= MinSqrSpeed ==> v == Scale(e.forward(s.rotation), t.speed))
      && (MinSqrSpeed < SqrMagnitude(clamped) ==> v == clamped)
      && (v == Scale(e.forward(s.rotation), t.speed) || (MinSqrSpeed < SqrMagnitude(v) <= t.speed * t.speed))
      && (SqrMagnitude(clamped) <= MinSqrSpeed ==> SqrMagnitude(v) == t.speed * t.speed)
      && SqrMagnitude(v) <= t.speed * t.speed
  {
    var sum := Add(s.velocity, ClampMagnitude(e, s.acceleration, t.maxAccel));
    var clamped := ClampMagnitude(e, sum, t.speed);
    var ahead := Scale(e.forward(s.rotation), t.speed);
    var v := Moved(s, t, dt, e).velocity;
    assert v == if SqrMagnitude(clamped) <= MinSqrSpeed then ahead else clamped;
    if SqrMagnitude(clamped) <= MinSqrSpeed {
      assert e.IsUnitForward(s.rotation);
      SqrMagnitudeScale(e.forward(s.rotation), t.speed);
      assert SqrMagnitude(v) == t.speed * t.speed;
    } else {
      ClampMagnitudeLimits(e, sum, t.speed);
      assert SqrMagnitude(v) <= t.speed * t.speed;
    }
  }

  /** Move advances the boid by velocity * dt and turns it to face its
      velocity, unless that velocity is (approximately) zero, when the boid
      stays where and as it is; nothing but the acceleration, the velocity,
      the position and the rotation changes. */
  lemma MoveFollowsVelocity(s: BoidState, t: Tunables, dt: real, e: Engine)
    requires e.Lawful()
    ensures var r := Moved(s, t, dt, e);
      && (ApproxEqual(r.velocity, Zero) ==> r.position == s.position && r.rotation == s.rotation)
      && (!ApproxEqual(r.velocity, Zero) ==>
            r.position == Add(s.position, Scale(r.velocity, dt)) && r.rotation == e.lookRotation(r.velocity))
      && r == s.(acceleration := r.acceleration, velocity := r.velocity, position := r.position, rotation := r.rotation)
  {
  }

  /** ResetForces: the acceleration and the three accumulators are cleared. */
  function ForcesReset(s: BoidState): BoidState {
    s.(acceleration := Zero, separationForce := Zero, alignmentForce := Zero, cohesionForce := Zero)
  }

  /** Update: one frame of one boid, against the population as it stands. */
  ghost function Step(s: BoidState, population: seq<Agent>, self: int, t: Tunables, dt: real, e: Engine): BoidState
    requires e.Lawful() && t.mass != 0.0
  {
    ForcesReset(Moved(TurnedAtBounds(Flocked(s, population, self, t, e), t, dt, e), t, dt, e))
  }

  /** Forces never carry over: every frame ends at rest, and the neighbour
      map it leaves is the one found from the frame's starting position. */
  lemma StepEndsAtRest(s: BoidState, population: seq<Agent>, self: int, t: Tunables, dt: real, e: Engine)
    requires e.Lawful() && t.mass != 0.0
    ensures Step(s, population, self, t, dt, e).AtRest()
    ensures Step(s, population, self, t, dt, e).neighbors == Neighbors(population, self, s.position, t.perceptionRange)
  {
  }

  /** With bounds off a boid never starts or ends a turn, however far it drifts. */
  lemma StepWithBoundsOffNeverTurns(s: BoidState, population: seq<Agent>, self: int, t: Tunables, dt: real, e: Engine)
    requires e.Lawful() && t.mass != 0.0
    requires !t.boundsOn
    ensures Step(s, population, self, t, dt, e).turningAround == s.turningAround
    ensures Step(s, population, self, t, dt, e).targetPosition == s.targetPosition
  {
  }

  /** The turn target is diametrically opposite: the centre is the midpoint of
      the position and the target, so the target is as far outside the sphere
      as the boid was. */
  lemma TurnTargetIsOpposite(s: BoidState, t: Tunables, dt: real, e: Engine)
    requires t.boundsOn && s.Outside() && !s.turningAround
    ensures var r := TurnedAtBounds(s, t, dt, e);
      r.turningAround &&
      Add(s.position, r.targetPosition) == Scale(s.boundaryCenter, 2.0) &&
      SqrMagnitude(Sub(r.targetPosition, s.boundaryCenter)) > s.boundaryRadius * s.boundaryRadius
  {
    ReflectIsOpposite(s.position, s.boundaryCenter);
  }

  /** A boid that sees no other boid feels no flocking force: starting at
      rest, it is still at rest after Flocking. */
  lemma AloneFeelsNoForce(s: BoidState, population: seq<Agent>, self: int, t: Tunables, e: Engine)
    requires e.Lawful() && t.mass != 0.0
    requires s.AtRest()
    requires Neighbors(population, self, s.position, t.perceptionRange) == map[]
    ensures Flocked(s, population, self, t, e).AtRest()
  {
    var n := Neighbors(population, self, s.position, t.perceptionRange);
    assert |n| == 0;
    NoForcesNoAcceleration(t.mass);
  }

  /** With every strength at zero or below, a boid starting at rest is still
      at rest after Flocking, whatever it sees. */
  lemma NoStrengthNoForce(s: BoidState, population: seq<Agent>, self: int, t: Tunables, e: Engine)
    requires e.Lawful() && t.mass != 0.0
    requires s.AtRest()
    requires t.separationStrength <= 0.0 && t.alignmentStrength <= 0.0 && t.cohesionStrength <= 0.0
    ensures Flocked(s, population, self, t, e).AtRest()
  {
    NoForcesNoAcceleration(t.mass);
  }

  lemma NoForcesNoAcceleration(mass: real)
    requires mass != 0.0
    ensures Accelerated(Accelerated(Accelerated(Zero, Zero, mass), Zero, mass), Zero, mass) == Zero
  {
    assert Div(Zero, mass) == Zero;
  }

  /** With every strength at zero or below, a boid at rest that is inside
      its sphere (or has bounds off) and cruises at a speed above the stall
      floor and within the speed limit keeps its velocity exactly through one
      frame, and ends it at rest. */
  lemma CruisingWithoutStrengthKeepsVelocity(s: BoidState, population: seq<Agent>, self: int, t: Tunables, dt: real, e: Engine)
    requires e.Lawful() && t.mass != 0.0
    requires s.AtRest()
    requires t.separationStrength <= 0.0 && t.alignmentStrength <= 0.0 && t.cohesionStrength <= 0.0
    requires !t.boundsOn || !s.Outside()
    requires MinSqrSpeed < SqrMagnitude(s.velocity) <= t.speed * t.speed
    ensures Step(s, population, self, t, dt, e).velocity == s.velocity
    ensures Step(s, population, self, t, dt, e).AtRest()
  {
    CruiseKeepsVelocity(s, population, self, t, dt, e);
    StepEndsAtRest(s, population, self, t, dt, e);
  }

  /** Update run once per frame, against the population as each frame finds it. */
  ghost function Run(s: BoidState, frames: seq<seq<Agent>>, self: int, t: Tunables, dt: real, e: Engine): BoidState
    requires e.Lawful() && t.mass != 0.0
    decreases |frames|
  {
    if |frames| == 0 then s
    else Run(Step(s, frames[0], self, t, dt, e), frames[1..], self, t, dt, e)
  }

  /** With bounds off and every strength at zero or below, a boid at rest
      cruising above the stall floor and within the speed limit keeps its
      velocity exactly for any number of frames, whatever the other boids do. */
  lemma {:induction false} CruisingWithoutStrengthKeepsVelocityForever(s: BoidState, frames: seq<seq<Agent>>, self: int, t: Tunables, dt: real, e: Engine)
    requires e.Lawful() && t.mass != 0.0
    requires s.AtRest()
    requires t.separationStrength <= 0.0 && t.alignmentStrength <= 0.0 && t.cohesionStrength <= 0.0
    requires !t.boundsOn
    requires MinSqrSpeed < SqrMagnitude(s.velocity) <= t.speed * t.speed
    ensures Run(s, frames, self, t, dt, e).velocity == s.velocity
    ensures Run(s, frames, self, t, dt, e).AtRest()
    decreases |frames|
  {
    if |frames| > 0 {
      var next := Step(s, frames[0], self, t, dt, e);
      CruisingWithoutStrengthKeepsVelocity(s, frames[0], self, t, dt, e);
      CruisingWithoutStrengthKeepsVelocityForever(next, frames[1..], self, t, dt, e);
    }
  }

  lemma CruiseKeepsVelocity(s: BoidState, population: seq<Agent>, self: int, t: Tunables, dt: real, e: Engine)
    requires e.Lawful() && t.mass != 0.0
    requires s.AtRest()
    requires t.separationStrength <= 0.0 && t.alignmentStrength <= 0.0 && t.cohesionStrength <= 0.0
    requires !t.boundsOn || !s.Outside()
    requires MinSqrSpeed < SqrMagnitude(s.velocity) <= t.speed * t.speed
    ensures Step(s, population, self, t, dt, e).velocity == s.velocity
  {
    var turned := TurnedAtBounds(Flocked(s, population, self, t, e), t, dt, e);
    CalmBeforeMove(s, population, self, t, dt, e);
    CruiseUnchanged(turned, t, dt, e);
  }

  /** Without strengths and without a turn under way, Flocking and
      TurnAtBounds leave the boid at rest with its position and velocity. */
  lemma CalmBeforeMove(s: BoidState, population: seq<Agent>, self: int, t: Tunables, dt: real, e: Engine)
    requires e.Lawful() && t.mass != 0.0
    requires s.AtRest()
    requires t.separationStrength <= 0.0 && t.alignmentStrength <= 0.0 && t.cohesionStrength <= 0.0
    requires !t.boundsOn || !s.Outside()
    ensures var turned := TurnedAtBounds(Flocked(s, population, self, t, e), t, dt, e);
      turned.velocity == s.velocity && turned.position == s.position && turned.acceleration == Zero
  {
    var flocked := Flocked(s, population, self, t, e);
    NoStrengthNoForce(s, population, self, t, e);
    assert flocked.position == s.position && flocked.boundaryCenter == s.boundaryCenter;
    assert flocked.boundaryRadius == s.boundaryRadius;
    TurnTransitions(flocked, t, dt, e);
  }

  /** A boid at rest, already within the speed limit and above the stall
      floor, moves on with its velocity unchanged. */
  lemma CruiseUnchanged(s: BoidState, t: Tunables, dt: real, e: Engine)
    requires e.Lawful()
    requires s.acceleration == Zero
    requires MinSqrSpeed < SqrMagnitude(s.velocity) <= t.speed * t.speed
    ensures Moved(s, t, dt, e).velocity == s.velocity
    ensures Moved(s, t, dt, e).position == Add(s.position, Scale(s.velocity, dt))
  {
    CruisingVelocity(e, s.velocity, t.speed);
    MoveUnstalled(s, t, dt, e);
  }

  /** A velocity above the stall floor and within the speed limit survives
      the clamp untouched and is not zero. */
  lemma CruisingVelocity(e: Engine, v: Vec3, speed: real)
    requires e.Lawful()
    requires MinSqrSpeed < SqrMagnitude(v) <= speed * speed
    ensures ClampMagnitude(e, Add(v, Zero), speed) == v
    ensures !ApproxEqual(v, Zero)
  {
    assert Add(v, Zero) == v;
    assert Sub(v, Zero) == v;
    ClampMagnitudeLimits(e, v, speed);
  }

  /** Move with no acceleration and a velocity the clamps leave alone. */
  lemma MoveUnstalled(s: BoidState, t: Tunables, dt: real, e: Engine)
    requires e.Lawful()
    requires s.acceleration == Zero
    requires ClampMagnitude(e, Add(s.velocity, Zero), t.speed) == s.velocity
    requires MinSqrSpeed < SqrMagnitude(s.velocity) && !ApproxEqual(s.velocity, Zero)
    ensures Moved(s, t, dt, e).velocity == s.velocity
    ensures Moved(s, t, dt, e).position == Add(s.position, Scale(s.velocity, dt))
  {
    ClampKeepsZero(e, t.maxAccel);
  }

  /** A boid of the flock. Its transform (position and rotation) is held in
      fields; the settings object and the engine functions are fixed when it
      is made. */
  class Boid {
    const boidSettings: BoidSettings
    const math: Engine

    var position: Vec3      // transform.position
    var rotation: Quat      // transform.rotation
    var boundaryCenter: Vec3
    var boundaryRadius: real
    var turningAround: bool
    var targetRotation: Quat
    var velocity: Vec3
    var acceleration: Vec3
    var separationForce: Vec3
    var alignmentForce: Vec3
    var cohesionForce: Vec3
    var neighbors: map<int, NeighborRecord>
    var targetPosition: Vec3

    ghost function State(): BoidState
      reads this
    {
      BoidState(position, rotation, velocity, acceleration, separationForce, alignmentForce, cohesionForce,
                neighbors, boundaryCenter, boundaryRadius, turningAround, targetPosition, targetRotation)
    }

    /** A boid as spawned: the given pose and velocity, no forces, no
        neighbours yet, not turning, and the default boundary (centre at the
        origin, radius 10) until SetBoundarySphere is called. */
    constructor (settings: BoidSettings, math: Engine, position: Vec3, rotation: Quat, velocity: Vec3)
      ensures boidSettings == settings && this.math == math
      ensures State() == BoidState(position, rotation, velocity, Zero, Zero, Zero, Zero, map[],
                                   Zero, 10.0, false, Zero, ZeroQuat)
      ensures State().AtRest()
    {
      boidSettings := settings;
      this.math := math;
      this.position := position;
      this.rotation := rotation;
      this.velocity := velocity;
      boundaryCenter := Zero;
      boundaryRadius := 10.0;
      turningAround := false;
      targetRotation := ZeroQuat;
      acceleration := Zero;
      separationForce := Zero;
      alignmentForce := Zero;
      cohesionForce := Zero;
      neighbors := map[];
      targetPosition := Zero;
    }

    method SetBoundarySphere(center: Vec3, radius: real)
      modifies this
      ensures State() == old(State()).(boundaryCenter := center, boundaryRadius := radius)
    {
      boundaryCenter := center;
      boundaryRadius := radius;
    }

    /** One frame: Flocking, TurnAtBounds, Move, ResetForces. */
    method Update(population: seq<Agent>, self: int, dt: real)
      requires math.Lawful() && boidSettings.Valid()
      modifies this
      ensures State() == Step(old(State()), population, self, boidSettings.Snapshot(), dt, math)
      ensures State().AtRest()
    {
      Flocking(population, self);
      TurnAtBounds(dt);
      Move(dt);
      ResetForces();
    }

    method ApplyForce(force: Vec3)
      requires boidSettings.Valid()
      modifies this
      ensures State() == old(State()).(acceleration := Accelerated(old(acceleration), force, boidSettings.mass))
    {
      acceleration := Add(acceleration, Div(force, boidSettings.mass));
    }

    method ResetForces()
      modifies this
      ensures State() == ForcesReset(old(State()))
    {
      acceleration, separationForce, alignmentForce, cohesionForce := Zero, Zero, Zero, Zero;
    }

    method Move(dt: real)
      requires math.Lawful()
      modifies this
      ensures State() == Moved(old(State()), boidSettings.Snapshot(), dt, math)
    {
      var settings := boidSettings.Snapshot();
      acceleration := ClampMagnitude(math, acceleration, settings.maxAccel);
      velocity := Add(velocity, acceleration);
      velocity := ClampMagnitude(math, velocity, settings.speed);
      if SqrMagnitude(velocity) <= MinSqrSpeed {
        velocity := Scale(math.forward(rotation), settings.speed);
      }
      if !ApproxEqual(velocity, Zero) {
        position := Add(position, Scale(velocity, dt));
        rotation := math.lookRotation(velocity);
      }
    }

    method TurnAtBounds(dt: real)
      modifies this
      ensures State() == TurnedAtBounds(old(State()), boidSettings.Snapshot(), dt, math)
    {
      var settings := boidSettings.Snapshot();
      if !settings.boundsOn {
        return;
      }
      if SqrMagnitude(Sub(position, boundaryCenter)) > boundaryRadius * boundaryRadius {
        var turnRate := TurnRate(dt, settings);
        ghost var target := TurnTarget(State());
        if !turningAround {
          targetPosition := Add(boundaryCenter, Sub(boundaryCenter, position));
          turningAround := true;
        }
        targetRotation := math.lookRotation(targetPosition);
        rotation := math.slerp(rotation, targetRotation, turnRate);
        velocity := math.slerpVector(velocity, Sub(targetPosition, position), turnRate);
        assert State() == TurnToward(old(State()), target, turnRate, math);
      } else if math.angle(rotation, targetRotation) <= AlignedAngle {
        turningAround := false;
      }
    }

    method Flocking(population: seq<Agent>, self: int)
      requires math.Lawful() && boidSettings.Valid()
      modifies this
      ensures State() == Flocked(old(State()), population, self, boidSettings.Snapshot(), math)
    {
      FindNeighbors(population, self);
      Separation();
      Alignment();
      Cohesion();
      ApplyForce(separationForce);
      ApplyForce(alignmentForce);
      ApplyForce(cohesionForce);
    }

    /** The neighbour map is cleared and refilled by one pass over the population. */
    method FindNeighbors(population: seq<Agent>, self: int)
      modifies this
      ensures State() == old(State()).(neighbors := Neighbors(population, self, position, boidSettings.perceptionRange))
    {
      neighbors := map[];
      var sqrPerceptionRange := boidSettings.perceptionRange * boidSettings.perceptionRange;
      var i := 0;
      while i < |population|
        invariant 0 <= i <= |population|
        invariant State() == old(State()).(neighbors := neighbors)
        invariant neighbors == ScanUpTo(population, i, self, position, sqrPerceptionRange)
      {
        ScanOneMore(population, i, self, position, sqrPerceptionRange);
        if i != self {
          var other := population[i];
          var vectorBetween := Sub(other.position, position);
          var sqrMagnitudeTemp := SqrMagnitude(vectorBetween);
          if sqrMagnitudeTemp < sqrPerceptionRange {
            neighbors := neighbors[i := NeighborRecord(other.position, other.velocity, vectorBetween, sqrMagnitudeTemp)];
          }
        }
        i := i + 1;
      }
    }

    method Separation()
      requires math.Lawful()
      modifies this
      ensures State() == old(State()).(separationForce := SeparationRule(old(separationForce), neighbors, boidSettings.Snapshot(), math))
    {
      var settings := boidSettings.Snapshot();
      if settings.separationStrength <= 0.0 || |neighbors| == 0 {
        SeparationInactive(separationForce, neighbors, settings, math);
        return;
      }
      var threshold := SeparationThreshold(settings);
      RepelFromClose(threshold);
      SeparationOnce(old(separationForce), separationForce, neighbors, settings, math, threshold);
      separationForce := ClampMagnitude(math, Scale(separationForce, settings.separationStrength), settings.maxAccel / 2.0);
    }

    /** The loop of Separation: the vector to every neighbour whose squared
        distance is below `threshold` is subtracted from the accumulator,
        in whatever order the neighbours are enumerated. */
    method RepelFromClose(threshold: real)
      modifies this
      ensures State() == old(State()).(separationForce :=
        Add(old(separationForce), Total(neighbors.Keys, neighbors, Repel(threshold))))
    {
      var remaining := neighbors.Keys;
      while remaining != {}
        invariant remaining <= neighbors.Keys
        invariant State() == old(State()).(separationForce := separationForce)
        invariant separationForce == Add(old(separationForce), Total(neighbors.Keys - remaining, neighbors, Repel(threshold)))
        decreases remaining
      {
        HasKey(remaining);
        var k :| k in remaining;
        var item := neighbors[k];
        RepelOne(separationForce, item, threshold);
        if item.sqrDistance < threshold {
          separationForce := Sub(separationForce, item.between);
        }
        AccumulateOne(old(separationForce), neighbors, Repel(threshold), remaining, k);
        remaining := remaining - {k};
      }
      assert neighbors.Keys - remaining == neighbors.Keys;
    }

    method Alignment()
      requires math.Lawful()
      modifies this
      ensures State() == old(State()).(alignmentForce := AlignmentRule(old(alignmentForce), neighbors, boidSettings.Snapshot(), math))
    {
      if boidSettings.alignmentStrength <= 0.0 || |neighbors| == 0 {
        return;
      }
      var remaining := neighbors.Keys;
      while remaining != {}
        invariant remaining <= neighbors.Keys
        invariant State() == old(State()).(alignmentForce := alignmentForce)
        invariant alignmentForce == Add(old(alignmentForce), Total(neighbors.Keys - remaining, neighbors, Heading))
        decreases remaining
      {
        HasKey(remaining);
        var k :| k in remaining;
        alignmentForce := Add(alignmentForce, neighbors[k].velocity);
        AccumulateOne(old(alignmentForce), neighbors, Heading, remaining, k);
        remaining := remaining - {k};
      }
      assert neighbors.Keys - remaining == neighbors.Keys;
      alignmentForce := Div(alignmentForce, |neighbors| as real);
      alignmentForce := Scale(alignmentForce, boidSettings.alignmentStrength);
      alignmentForce := ClampMagnitude(math, alignmentForce, boidSettings.maxAccel);
    }

    method Cohesion()
      requires math.Lawful()
      modifies this
      ensures State() == old(State()).(cohesionForce := CohesionRule(old(cohesionForce), neighbors, position, boidSettings.Snapshot(), math))
    {
      if boidSettings.cohesionStrength <= 0.0 || |neighbors| == 0 {
        return;
      }
      var remaining := neighbors.Keys;
      while remaining != {}
        invariant remaining <= neighbors.Keys
        invariant State() == old(State()).(cohesionForce := cohesionForce)
        invariant cohesionForce == Add(old(cohesionForce), Total(neighbors.Keys - remaining, neighbors, Place))
        decreases remaining
      {
        HasKey(remaining);
        var k :| k in remaining;
        cohesionForce := Add(cohesionForce, neighbors[k].position);
        AccumulateOne(old(cohesionForce), neighbors, Place, remaining, k);
        remaining := remaining - {k};
      }
      assert neighbors.Keys - remaining == neighbors.Keys;
      cohesionForce := Div(cohesionForce, |neighbors| as real);
      cohesionForce := Sub(cohesionForce, position);
      cohesionForce := Scale(cohesionForce, boidSettings.cohesionStrength);
      cohesionForce := ClampMagnitude(math, cohesionForce, boidSettings.maxAccel);
    }
  }

  /** Scanning one more boid of the population adds it exactly when it is
      another boid within range. */
  lemma ScanOneMore(population: seq<Agent>, i: int, self: int, from: Vec3, sqrRange: real)
    requires 0 <= i < |population|
    ensures ScanUpTo(population, i + 1, self, from, sqrRange) ==
      if i != self && SqrMagnitude(Sub(population[i].position, from)) < sqrRange
      then ScanUpTo(population, i, self, from, sqrRange)[i := Sighting(population[i], from)]
      else ScanUpTo(population, i, self, from, sqrRange)
  {
    var before := ScanUpTo(population, i, self, from, sqrRange);
    var after := ScanUpTo(population, i + 1, self, from, sqrRange);
    if i != self && SqrMagnitude(Sub(population[i].position, from)) < sqrRange {
      assert after.Keys == before.Keys + {i};
    } else {
      assert after.Keys == before.Keys;
    }
  }

  lemma SeparationOnce(acc: Vec3, pushed: Vec3, neighbors: map<int, NeighborRecord>, t: Tunables, e: Engine, threshold: real)
    requires e.Lawful()
    requires 0.0 < t.separationStrength && |neighbors| > 0
    requires threshold == SeparationThreshold(t)
    requires pushed == Add(acc, Total(neighbors.Keys, neighbors, Repel(threshold)))
    ensures SeparationRule(acc, neighbors, t, e) == ClampMagnitude(e, Scale(pushed, t.separationStrength), t.maxAccel / 2.0)
  {
    SeparationActive(acc, neighbors, t, e);
  }

  /** Subtracting the vector to a close neighbour is adding its repelling contribution. */
  lemma RepelOne(force: Vec3, r: NeighborRecord, threshold: real)
    ensures Add(force, Contribution(Repel(threshold), r)) ==
            if r.sqrDistance < threshold then Sub(force, r.between) else force
  {
  }

  /** One turn of an accumulating loop: adding neighbour `k`'s contribution
      to `start` plus the total so far gives `start` plus the total over one
      more neighbour. */
  lemma AccumulateOne(start: Vec3, m: map<int, NeighborRecord>, term: Term, remaining: set<int>, k: int)
    requires remaining <= m.Keys && k in remaining
    ensures Add(Add(start, Total(m.Keys - remaining, m, term)), Contribution(term, m[k])) ==
            Add(start, Total(m.Keys - (remaining - {k}), m, term))
  {
    var done := m.Keys - remaining;
    assert m.Keys - (remaining - {k}) == done + {k};
    assert done + {k} - {k} == done;
    TotalPick(done + {k}, m, term, k);
  }
}
