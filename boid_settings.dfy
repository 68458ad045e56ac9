/** BoidSettings: the tunables shared by every boid, and the clamping setters,
    reset and toggles through which the user interface changes them.
    `Tunables` is the value the object holds; `BoidSettings` is the object. */
module Settings {

  // The defaults and the boid-count ceiling.
  const InitBoidCount: int := 250
  const MaxBoidCount: int := 500
  const InitSeparStr: real := 0.65
  const InitAlignStr: real := 0.55
  const InitCohesStr: real := 0.4
  const InitMass: real := 1.0
  const InitSpeed: real := 2.5
  const InitMaxForce: real := 0.4
  const InitPerceptRange: real := 1.0

  /** The cast `(int)x` of C#: truncation toward zero. */
  function Truncate(x: real): (n: int)
    ensures 0.0 <= x ==> n as real <= x < n as real + 1.0
    ensures x < 0.0 ==> n as real - 1.0 < x <= n as real
  {
    if 0.0 <= x then x.Floor else -((-x).Floor)
  }

  /** Mathf.Clamp on integers. */
  function ClampInt(value: int, min: int, max: int): (r: int)
    requires min <= max
    ensures min <= r <= max
    ensures min <= value <= max ==> r == value
    ensures value < min ==> r == min
    ensures max < value ==> r == max
  {
    if value < min then min else if value > max then max else value
  }

  /** Mathf.Clamp on floats. */
  function Clamp(value: real, min: real, max: real): (r: real)
    requires min <= max
    ensures min <= r <= max
    ensures min <= value <= max ==> r == value
    ensures value < min ==> r == min
    ensures max < value ==> r == max
  {
    if value < min then min else if value > max then max else value
  }

  /** Truncating the slider value before clamping it to [1, MaxBoidCount]
      gives the same count as taking its floor: the two differ only on
      negative non-integers, which both clamp up to 1. */
  lemma TruncateAgreesWithFloorOnCount(count: real)
    ensures ClampInt(Truncate(count), 1, MaxBoidCount) == ClampInt(count.Floor, 1, MaxBoidCount)
  {
    if count < 0.0 {
      assert Truncate(count) <= 0;
      assert count.Floor < 0;
    }
  }

  datatype Tunables = Tunables(
    boidCount: int,
    separationStrength: real,
    alignmentStrength: real,
    cohesionStrength: real,
    mass: real,
    speed: real,
    maxAccel: real,
    perceptionRange: real,
    boundsOn: bool,
    drawDebugLines: bool)
  {
    /** The boid count becomes the truncated input clamped to [1, MaxBoidCount];
        nothing else changes. */
    function ChangeCount(count: real): (t: Tunables)
      ensures 1 <= t.boidCount <= MaxBoidCount
      ensures 1 <= Truncate(count) <= MaxBoidCount ==> t.boidCount == Truncate(count)
      ensures t == this.(boidCount := t.boidCount)
    {
      this.(boidCount := ClampInt(Truncate(count), 1, MaxBoidCount))
    }

    /** The separation strength becomes the input clamped to [0, 1]; nothing else changes. */
    function ChangeSeparation(separation: real): (t: Tunables)
      ensures 0.0 <= t.separationStrength <= 1.0
      ensures 0.0 <= separation <= 1.0 ==> t.separationStrength == separation
      ensures t == this.(separationStrength := t.separationStrength)
    {
      this.(separationStrength := Clamp(separation, 0.0, 1.0))
    }

    /** The alignment strength becomes the input clamped to [0, 1]; nothing else changes. */
    function ChangeAlignment(alignment: real): (t: Tunables)
      ensures 0.0 <= t.alignmentStrength <= 1.0
      ensures 0.0 <= alignment <= 1.0 ==> t.alignmentStrength == alignment
      ensures t == this.(alignmentStrength := t.alignmentStrength)
    {
      this.(alignmentStrength := Clamp(alignment, 0.0, 1.0))
    }

    /** The cohesion strength becomes the input clamped to [0, 1]; nothing else changes. */
    function ChangeCohesion(cohesion: real): (t: Tunables)
      ensures 0.0 <= t.cohesionStrength <= 1.0
      ensures 0.0 <= cohesion <= 1.0 ==> t.cohesionStrength == cohesion
      ensures t == this.(cohesionStrength := t.cohesionStrength)
    {
      this.(cohesionStrength := Clamp(cohesion, 0.0, 1.0))
    }

    /** The speed becomes the input clamped to [0, 8]; nothing else changes. */
    function ChangeSpeed(spd: real): (t: Tunables)
      ensures 0.0 <= t.speed <= 8.0
      ensures 0.0 <= spd <= 8.0 ==> t.speed == spd
      ensures t == this.(speed := t.speed)
    {
      this.(speed := Clamp(spd, 0.0, 8.0))
    }

    /** The acceleration limit becomes the input clamped to [0, 1]; nothing else changes. */
    function ChangeMaxForce(mxForce: real): (t: Tunables)
      ensures 0.0 <= t.maxAccel <= 1.0
      ensures 0.0 <= mxForce <= 1.0 ==> t.maxAccel == mxForce
      ensures t == this.(maxAccel := t.maxAccel)
    {
      this.(maxAccel := Clamp(mxForce, 0.0, 1.0))
    }

    /** The perception range becomes the input clamped to [0, 2]; nothing else changes. */
    function ChangePerception(perception: real): (t: Tunables)
      ensures 0.0 <= t.perceptionRange <= 2.0
      ensures 0.0 <= perception <= 2.0 ==> t.perceptionRange == perception
      ensures t == this.(perceptionRange := t.perceptionRange)
    {
      this.(perceptionRange := Clamp(perception, 0.0, 2.0))
    }

    /** Only the debug-lines flag changes, to its negation. */
    function ToggleDebugLines(): (t: Tunables)
      ensures t.drawDebugLines != drawDebugLines
      ensures t == this.(drawDebugLines := t.drawDebugLines)
    {
      this.(drawDebugLines := !drawDebugLines)
    }

    /** Only the bounds flag changes, to its negation. */
    function ToggleBounds(): (t: Tunables)
      ensures t.boundsOn != boundsOn
      ensures t == this.(boundsOn := t.boundsOn)
    {
      this.(boundsOn := !boundsOn)
    }
  }

  /** The values ResetSettings restores. */
  function Defaults(): (t: Tunables)
    ensures 1 <= t.boidCount <= MaxBoidCount
    ensures 0.0 <= t.separationStrength <= 1.0 && 0.0 <= t.alignmentStrength <= 1.0
    ensures 0.0 <= t.cohesionStrength <= 1.0 && 0.0 < t.mass
    ensures 0.0 <= t.speed <= 8.0 && 0.0 <= t.maxAccel <= 1.0 && 0.0 <= t.perceptionRange <= 2.0
    ensures t.boundsOn && !t.drawDebugLines
  {
    Tunables(InitBoidCount, InitSeparStr, InitAlignStr, InitCohesStr, InitMass,
             InitSpeed, InitMaxForce, InitPerceptRange, true, false)
  }

  /** Toggling the debug lines twice restores every setting. */
  lemma ToggleDebugLinesTwice(t: Tunables)
    ensures t.ToggleDebugLines().ToggleDebugLines() == t
  {
  }

  /** Toggling the bounds twice restores every setting. */
  lemma ToggleBoundsTwice(t: Tunables)
    ensures t.ToggleBounds().ToggleBounds() == t
  {
  }

  /** A setter applied to a value already in its range leaves the settings as they were. */
  lemma ChangeInRangeIsIdentity(t: Tunables)
    requires 0.0 <= t.separationStrength <= 1.0 && 0.0 <= t.alignmentStrength <= 1.0
    requires 0.0 <= t.cohesionStrength <= 1.0 && 0.0 <= t.speed <= 8.0
    requires 0.0 <= t.maxAccel <= 1.0 && 0.0 <= t.perceptionRange <= 2.0
    requires 1 <= t.boidCount <= MaxBoidCount
    ensures t.ChangeCount(t.boidCount as real) == t
    ensures t.ChangeSeparation(t.separationStrength) == t
    ensures t.ChangeAlignment(t.alignmentStrength) == t
    ensures t.ChangeCohesion(t.cohesionStrength) == t
    ensures t.ChangeSpeed(t.speed) == t
    ensures t.ChangeMaxForce(t.maxAccel) == t
    ensures t.ChangePerception(t.perceptionRange) == t
  {
    assert Truncate(t.boidCount as real) == t.boidCount;
  }

  /** The ScriptableObject. The prefab reference and the scene's bounds object
      are engine handles and are not modelled. */
  class BoidSettings {
    var boidCount: int
    var separationStrength: real
    var alignmentStrength: real
    var cohesionStrength: real
    var mass: real
    var speed: real
    var maxAccel: real
    var perceptionRange: real
    var boundsOn: bool
    var drawDebugLines: bool

    /** The mass is positive: it is set only from the asset and by the reset,
        and every force is divided by it. */
    ghost predicate Valid()
      reads this
    {
      0.0 < mass
    }

    /** The settings as a value. */
    function Snapshot(): Tunables
      reads this
    {
      Tunables(boidCount, separationStrength, alignmentStrength, cohesionStrength,
               mass, speed, maxAccel, perceptionRange, boundsOn, drawDebugLines)
    }

    /** The asset as authored in the editor. */
    constructor (authored: Tunables)
      requires 0.0 < authored.mass
      ensures Valid() && Snapshot() == authored
    {
      boidCount := authored.boidCount;
      separationStrength := authored.separationStrength;
      alignmentStrength := authored.alignmentStrength;
      cohesionStrength := authored.cohesionStrength;
      mass := authored.mass;
      speed := authored.speed;
      maxAccel := authored.maxAccel;
      perceptionRange := authored.perceptionRange;
      boundsOn := authored.boundsOn;
      drawDebugLines := authored.drawDebugLines;
    }

    method ChangeCount(count: real)
      requires Valid()
      modifies this
      ensures Valid() && Snapshot() == old(Snapshot()).ChangeCount(count)
    {
      boidCount := ClampInt(Truncate(count), 1, MaxBoidCount);
    }

    method ChangeSeparation(separation: real)
      requires Valid()
      modifies this
      ensures Valid() && Snapshot() == old(Snapshot()).ChangeSeparation(separation)
    {
      separationStrength := Clamp(separation, 0.0, 1.0);
    }

    method ChangeAlignment(alignment: real)
      requires Valid()
      modifies this
      ensures Valid() && Snapshot() == old(Snapshot()).ChangeAlignment(alignment)
    {
      alignmentStrength := Clamp(alignment, 0.0, 1.0);
    }

    method ChangeCohesion(cohesion: real)
      requires Valid()
      modifies this
      ensures Valid() && Snapshot() == old(Snapshot()).ChangeCohesion(cohesion)
    {
      cohesionStrength := Clamp(cohesion, 0.0, 1.0);
    }

    method ChangeSpeed(spd: real)
      requires Valid()
      modifies this
      ensures Valid() && Snapshot() == old(Snapshot()).ChangeSpeed(spd)
    {
      speed := Clamp(spd, 0.0, 8.0);
    }

    method ChangeMaxForce(mxForce: real)
      requires Valid()
      modifies this
      ensures Valid() && Snapshot() == old(Snapshot()).ChangeMaxForce(mxForce)
    {
      maxAccel := Clamp(mxForce, 0.0, 1.0);
    }

    method ChangePerception(perception: real)
      requires Valid()
      modifies this
      ensures Valid() && Snapshot() == old(Snapshot()).ChangePerception(perception)
    {
      perceptionRange := Clamp(perception, 0.0, 2.0);
    }

    /** Every setting returns to its default, whatever it was before; so a
        second reset changes nothing. */
    method ResetSettings()
      modifies this
      ensures Valid() && Snapshot() == Defaults()
    {
      boidCount := InitBoidCount;
      separationStrength := InitSeparStr;
      alignmentStrength := InitAlignStr;
      cohesionStrength := InitCohesStr;
      mass := InitMass;
      speed := InitSpeed;
      maxAccel := InitMaxForce;
      perceptionRange := InitPerceptRange;
      boundsOn := true;
      drawDebugLines := false;
    }

    /** The editor's reset hook. */
    method Reset()
      modifies this
      ensures Valid() && Snapshot() == Defaults()
    {
      ResetSettings();
    }

    method ToggleDebugLines()
      requires Valid()
      modifies this
      ensures Valid() && Snapshot() == old(Snapshot()).ToggleDebugLines()
    {
      drawDebugLines := !drawDebugLines;
    }

    method ToggleBounds()
      requires Valid()
      modifies this
      ensures Valid() && Snapshot() == old(Snapshot()).ToggleBounds()
    {
      boundsOn := !boundsOn;
    }
  }

  /** A client of the object: a second reset leaves the state of the first,
      and a second debug toggle restores the original state. */
  method ResetTwiceAndToggleTwice(s: BoidSettings)
    requires s.Valid()
    modifies s
    ensures s.Snapshot() == Defaults()
  {
    s.ResetSettings();
    var once := s.Snapshot();
    s.ResetSettings();
    assert s.Snapshot() == once;
    s.ToggleDebugLines();
    s.ToggleDebugLines();
    assert s.Snapshot() == once;
  }
}
