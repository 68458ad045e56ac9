/** The value-level rules of one boid's frame: which boids it sees, what it
    records about each, and the separation, alignment and cohesion forces it
    derives from those records. The Boid class in module Boids is proved to
    compute exactly these. */
module FlockRules {
  import opened Vectors
  import opened EngineMath
  import opened Settings

  /** What one boid reads of another: its position and its velocity. The
      population is the boid list, and a boid's identity is its index there. */
  datatype Agent = Agent(position: Vec3, velocity: Vec3)

  /** The tuple cached per neighbour: the neighbour's position, its velocity,
      the vector from the observer to it, and that vector's squared length. */
  datatype NeighborRecord = NeighborRecord(position: Vec3, velocity: Vec3, between: Vec3, sqrDistance: real)

  function Sighting(other: Agent, from: Vec3): (r: NeighborRecord)
    ensures r.position == other.position && r.velocity == other.velocity
    ensures Add(from, r.between) == other.position
    ensures r.sqrDistance == SqrMagnitude(Sub(other.position, from))
  {
    var between := Sub(other.position, from);
    NeighborRecord(other.position, other.velocity, between, SqrMagnitude(between))
  }

  /** The neighbours found among the first `n` boids of the population. */
  function ScanUpTo(population: seq<Agent>, n: int, self: int, from: Vec3, sqrRange: real): map<int, NeighborRecord>
    requires 0 <= n <= |population|
  {
    map j | 0 <= j < n && j != self && SqrMagnitude(Sub(population[j].position, from)) < sqrRange
      :: Sighting(population[j], from)
  }

  /** The neighbours of boid `self`, standing at `from`: every other boid
      strictly closer than the perception range, keyed by its index. */
  function Neighbors(population: seq<Agent>, self: int, from: Vec3, perceptionRange: real): map<int, NeighborRecord>
  {
    ScanUpTo(population, |population|, self, from, perceptionRange * perceptionRange)
  }

  /** Boid `j` is a neighbour exactly when it is another boid of the
      population within the perception range, and its record holds its
      position, its velocity, the vector to it and the squared length of that. */
  lemma NeighborsExactly(population: seq<Agent>, self: int, from: Vec3, perceptionRange: real, j: int)
    ensures j in Neighbors(population, self, from, perceptionRange) <==>
      0 <= j < |population| && j != self &&
      SqrMagnitude(Sub(population[j].position, from)) < perceptionRange * perceptionRange
    ensures j in Neighbors(population, self, from, perceptionRange) ==>
      var r := Neighbors(population, self, from, perceptionRange)[j];
      r.position == population[j].position && r.velocity == population[j].velocity &&
      r.between == Sub(population[j].position, from) && r.sqrDistance == SqrMagnitude(r.between)
  {
  }

  /** Seeing is mutual: when every boid stands where the population says,
      boid `j` is a neighbour of boid `i` exactly when `i` is one of `j`. */
  lemma NeighborsSymmetric(population: seq<Agent>, i: int, j: int, perceptionRange: real)
    requires 0 <= i < |population| && 0 <= j < |population| && i != j
    ensures j in Neighbors(population, i, population[i].position, perceptionRange) <==>
            i in Neighbors(population, j, population[j].position, perceptionRange)
  {
    SqrDistanceSymmetric(population[i].position, population[j].position);
  }

  /** A boid never sees itself, and every neighbour it sees is in range. */
  lemma NeighborsInRange(population: seq<Agent>, self: int, from: Vec3, perceptionRange: real)
    ensures self !in Neighbors(population, self, from, perceptionRange)
    ensures forall j | j in Neighbors(population, self, from, perceptionRange) ::
      Neighbors(population, self, from, perceptionRange)[j].sqrDistance < perceptionRange * perceptionRange
  {
  }

  /** Three boids at the origin, half a unit along x and at (5, 5, 5), with
      perception range 1: the boid at the origin sees the second boid and
      only that one, at squared distance 0.25. */
  lemma ThreeBoidsScenario(population: seq<Agent>)
    requires |population| == 3
    requires population[0].position == Zero
    requires population[1].position == Vec3(0.5, 0.0, 0.0)
    requires population[2].position == Vec3(5.0, 5.0, 5.0)
    ensures Neighbors(population, 0, population[0].position, 1.0) ==
      map[1 := NeighborRecord(Vec3(0.5, 0.0, 0.0), population[1].velocity, Vec3(0.5, 0.0, 0.0), 0.25)]
  {
    var p1 := Vec3(0.5, 0.0, 0.0);
    var p2 := Vec3(5.0, 5.0, 5.0);
    assert Sub(p1, Zero) == p1;
    assert SqrMagnitude(p1) == 0.25;
    assert Sub(p2, Zero) == p2;
    assert SqrMagnitude(p2) == 75.0;
    OnlySecondInRange(population, 1.0);
  }

  /** Of three boids, the one at index 0 sees exactly boid 1 when boid 1 is
      within range of the origin and boid 2 is not. */
  lemma OnlySecondInRange(population: seq<Agent>, perceptionRange: real)
    requires |population| == 3
    requires SqrMagnitude(Sub(population[1].position, Zero)) < perceptionRange * perceptionRange
    requires perceptionRange * perceptionRange <= SqrMagnitude(Sub(population[2].position, Zero))
    ensures Neighbors(population, 0, Zero, perceptionRange) == map[1 := Sighting(population[1], Zero)]
  {
    var n := Neighbors(population, 0, Zero, perceptionRange);
    forall j | j in n
      ensures j == 1
    {
      NeighborsExactly(population, 0, Zero, perceptionRange, j);
    }
    NeighborsExactly(population, 0, Zero, perceptionRange, 1);
    assert n.Keys == {1};
  }

  /** What each rule adds up over the neighbours: separation subtracts the
      vector to every neighbour closer than its threshold (squared distance
      compared with `threshold`), alignment adds velocities, cohesion adds
      positions. */
  datatype Term = Repel(threshold: real) | Heading | Place

  function Contribution(term: Term, r: NeighborRecord): Vec3 {
    match term
    case Repel(threshold) => if r.sqrDistance < threshold then Neg(r.between) else Zero
    case Heading => r.velocity
    case Place => r.position
  }

  /** The sum of the contributions of the neighbours in `keys`, in no
      particular order (a Dictionary's enumeration order is unspecified). */
  ghost function Total(keys: set<int>, m: map<int, NeighborRecord>, term: Term): Vec3
    requires keys <= m.Keys
    decreases keys
  {
    if keys == {} then Zero
    else
      HasKey(keys);
      var k :| k in keys;
      Add(Contribution(term, m[k]), Total(keys - {k}, m, term))
  }

  lemma HasKey(keys: set<int>)
    requires keys != {}
    ensures exists k :: k in keys
  {
    if forall k :: k !in keys {
      assert false;
    }
  }

  /** Any neighbour can be taken out of the sum first: the total does not
      depend on the order in which the dictionary is enumerated. */
  lemma {:induction false} TotalPick(keys: set<int>, m: map<int, NeighborRecord>, term: Term, k: int)
    requires keys <= m.Keys && k in keys
    ensures Total(keys, m, term) == Add(Contribution(term, m[k]), Total(keys - {k}, m, term))
    decreases keys
  {
    var j :| j in keys && Total(keys, m, term) == Add(Contribution(term, m[j]), Total(keys - {j}, m, term));
    if j != k {
      var rest := keys - {j} - {k};
      assert keys - {k} - {j} == rest;
      TotalPick(keys - {j}, m, term, k);
      TotalPick(keys - {k}, m, term, j);
      var cj, ck := Contribution(term, m[j]), Contribution(term, m[k]);
      calc {
        Total(keys, m, term);
        Add(cj, Total(keys - {j}, m, term));
        Add(cj, Add(ck, Total(rest, m, term)));
        Add(ck, Add(cj, Total(rest, m, term)));
        Add(ck, Total(keys - {k}, m, term));
      }
    }
  }

  /** When every neighbour contributes the same vector `c`, the total is `c`
      times the number of neighbours. */
  lemma {:induction false} TotalUniform(keys: set<int>, m: map<int, NeighborRecord>, term: Term, c: Vec3)
    requires keys <= m.Keys
    requires forall k | k in keys :: Contribution(term, m[k]) == c
    ensures Total(keys, m, term) == Scale(c, |keys| as real)
    decreases keys
  {
    if keys != {} {
      HasKey(keys);
      var k :| k in keys;
      TotalPick(keys, m, term, k);
      TotalUniform(keys - {k}, m, term, c);
      assert |keys - {k}| == |keys| - 1;
      OneMoreCopy(c, |keys - {k}| as real);
    }
  }

  lemma OneMoreCopy(c: Vec3, n: real)
    ensures Add(c, Scale(c, n)) == Scale(c, n + 1.0)
  {
    assert c.x + c.x * n == c.x * (n + 1.0);
    assert c.y + c.y * n == c.y * (n + 1.0);
    assert c.z + c.z * n == c.z * (n + 1.0);
  }

  /** Neighbours at or beyond the separation threshold push nothing. */
  lemma {:induction false} TotalRepelBeyond(keys: set<int>, m: map<int, NeighborRecord>, threshold: real)
    requires keys <= m.Keys
    requires forall k | k in keys :: threshold <= m[k].sqrDistance
    ensures Total(keys, m, Repel(threshold)) == Zero
    decreases keys
  {
    if keys != {} {
      HasKey(keys);
      var k :| k in keys;
      TotalPick(keys, m, Repel(threshold), k);
      TotalRepelBeyond(keys - {k}, m, threshold);
    }
  }

  /** The squared distance below which a neighbour repels: perceptionRange *
      separationStrength, compared as written with a squared distance. */
  function SeparationThreshold(t: Tunables): real {
    t.perceptionRange * t.separationStrength
  }

  /** Separation: starting from the accumulator's value `acc`, subtract the
      vector to every neighbour whose squared distance is below
      perceptionRange * separationStrength, scale by the strength and clamp to
      half the acceleration limit. The rule does nothing when its strength is
      not positive or there are no neighbours. */
  ghost function SeparationRule(acc: Vec3, neighbors: map<int, NeighborRecord>, t: Tunables, e: Engine): Vec3
    requires e.Lawful()
  {
    if t.separationStrength <= 0.0 || |neighbors| == 0 then acc
    else
      var pushed := Add(acc, Total(neighbors.Keys, neighbors, Repel(SeparationThreshold(t))));
      ClampMagnitude(e, Scale(pushed, t.separationStrength), t.maxAccel / 2.0)
  }

  /** Alignment: the mean of the accumulator plus the neighbours' velocities
      over the neighbour count, scaled by the strength and clamped to the
      acceleration limit. The division happens only when there is a
      neighbour. The rule does nothing when its strength is not positive or
      there are no neighbours. */
  ghost function AlignmentRule(acc: Vec3, neighbors: map<int, NeighborRecord>, t: Tunables, e: Engine): Vec3
    requires e.Lawful()
  {
    if t.alignmentStrength <= 0.0 || |neighbors| == 0 then acc
    else
      var mean := Div(Add(acc, Total(neighbors.Keys, neighbors, Heading)), |neighbors| as real);
      ClampMagnitude(e, Scale(mean, t.alignmentStrength), t.maxAccel)
  }

  /** Cohesion: the mean of the accumulator plus the neighbours' positions
      over the neighbour count, minus the boid's own position, scaled by the
      strength and clamped to the acceleration limit. The rule does nothing
      when its strength is not positive or there are no neighbours. */
  ghost function CohesionRule(acc: Vec3, neighbors: map<int, NeighborRecord>, position: Vec3, t: Tunables, e: Engine): Vec3
    requires e.Lawful()
  {
    if t.cohesionStrength <= 0.0 || |neighbors| == 0 then acc
    else
      var centre := Div(Add(acc, Total(neighbors.Keys, neighbors, Place)), |neighbors| as real);
      ClampMagnitude(e, Scale(Sub(centre, position), t.cohesionStrength), t.maxAccel)
  }

  /** Each rule leaves its accumulator alone when its strength is not
      positive or there is no neighbour; otherwise its force is bounded: half
      the acceleration limit for separation, the full limit for alignment and
      cohesion. */
  lemma RulesBounded(acc: Vec3, neighbors: map<int, NeighborRecord>, position: Vec3, t: Tunables, e: Engine)
    requires e.Lawful()
    ensures t.separationStrength <= 0.0 || |neighbors| == 0 ==> SeparationRule(acc, neighbors, t, e) == acc
    ensures 0.0 < t.separationStrength && |neighbors| > 0 ==>
      SqrMagnitude(SeparationRule(acc, neighbors, t, e)) <= (t.maxAccel / 2.0) * (t.maxAccel / 2.0)
    ensures t.alignmentStrength <= 0.0 || |neighbors| == 0 ==> AlignmentRule(acc, neighbors, t, e) == acc
    ensures 0.0 < t.alignmentStrength && |neighbors| > 0 ==>
      SqrMagnitude(AlignmentRule(acc, neighbors, t, e)) <= t.maxAccel * t.maxAccel
    ensures t.cohesionStrength <= 0.0 || |neighbors| == 0 ==> CohesionRule(acc, neighbors, position, t, e) == acc
    ensures 0.0 < t.cohesionStrength && |neighbors| > 0 ==>
      SqrMagnitude(CohesionRule(acc, neighbors, position, t, e)) <= t.maxAccel * t.maxAccel
  {
    if 0.0 < t.separationStrength && |neighbors| > 0 {
      SeparationBounded(acc, neighbors, t, e);
    }
    if 0.0 < t.alignmentStrength && |neighbors| > 0 {
      AlignmentBounded(acc, neighbors, t, e);
    }
    if 0.0 < t.cohesionStrength && |neighbors| > 0 {
      CohesionBounded(acc, neighbors, position, t, e);
    }
  }

  lemma AlignmentBounded(acc: Vec3, neighbors: map<int, NeighborRecord>, t: Tunables, e: Engine)
    requires e.Lawful()
    requires 0.0 < t.alignmentStrength && |neighbors| > 0
    ensures SqrMagnitude(AlignmentRule(acc, neighbors, t, e)) <= t.maxAccel * t.maxAccel
  {
    var mean := Div(Add(acc, Total(neighbors.Keys, neighbors, Heading)), |neighbors| as real);
    assert AlignmentRule(acc, neighbors, t, e) == ClampMagnitude(e, Scale(mean, t.alignmentStrength), t.maxAccel);
    ClampMagnitudeLimits(e, Scale(mean, t.alignmentStrength), t.maxAccel);
  }

  lemma CohesionBounded(acc: Vec3, neighbors: map<int, NeighborRecord>, position: Vec3, t: Tunables, e: Engine)
    requires e.Lawful()
    requires 0.0 < t.cohesionStrength && |neighbors| > 0
    ensures SqrMagnitude(CohesionRule(acc, neighbors, position, t, e)) <= t.maxAccel * t.maxAccel
  {
    var centre := Div(Add(acc, Total(neighbors.Keys, neighbors, Place)), |neighbors| as real);
    assert CohesionRule(acc, neighbors, position, t, e) == ClampMagnitude(e, Scale(Sub(centre, position), t.cohesionStrength), t.maxAccel);
    ClampMagnitudeLimits(e, Scale(Sub(centre, position), t.cohesionStrength), t.maxAccel);
  }

  lemma SeparationBounded(acc: Vec3, neighbors: map<int, NeighborRecord>, t: Tunables, e: Engine)
    requires e.Lawful()
    requires 0.0 < t.separationStrength && |neighbors| > 0
    ensures SqrMagnitude(SeparationRule(acc, neighbors, t, e)) <= (t.maxAccel / 2.0) * (t.maxAccel / 2.0)
  {
    SeparationActive(acc, neighbors, t, e);
    var pushed := Add(acc, Total(neighbors.Keys, neighbors, Repel(SeparationThreshold(t))));
    ClampMagnitudeLimits(e, Scale(pushed, t.separationStrength), t.maxAccel / 2.0);
  }

  /** With no neighbour closer than the separation threshold, separation from
      rest is zero however many neighbours there are. */
  lemma SeparationIgnoresDistantNeighbors(neighbors: map<int, NeighborRecord>, t: Tunables, e: Engine)
    requires e.Lawful()
    requires forall k | k in neighbors :: SeparationThreshold(t) <= neighbors[k].sqrDistance
    ensures SeparationRule(Zero, neighbors, t, e) == Zero
  {
    if 0.0 < t.separationStrength && |neighbors| > 0 {
      TotalRepelBeyond(neighbors.Keys, neighbors, SeparationThreshold(t));
      SeparationOfNothing(neighbors, t, e);
    }
  }

  lemma SeparationOfNothing(neighbors: map<int, NeighborRecord>, t: Tunables, e: Engine)
    requires e.Lawful()
    requires 0.0 < t.separationStrength && |neighbors| > 0
    requires Total(neighbors.Keys, neighbors, Repel(SeparationThreshold(t))) == Zero
    ensures SeparationRule(Zero, neighbors, t, e) == Zero
  {
    SeparationActive(Zero, neighbors, t, e);
    ScaleOfZeroSum(Total(neighbors.Keys, neighbors, Repel(SeparationThreshold(t))), t.separationStrength);
    ClampKeepsZero(e, t.maxAccel / 2.0);
  }

  lemma ScaleOfZeroSum(v: Vec3, k: real)
    requires v == Zero
    ensures Scale(Add(Zero, v), k) == Zero
  {
  }

  /** The separation rule when it does not apply leaves the accumulator as it was. */
  lemma SeparationInactive(acc: Vec3, neighbors: map<int, NeighborRecord>, t: Tunables, e: Engine)
    requires e.Lawful()
    requires t.separationStrength <= 0.0 || |neighbors| == 0
    ensures SeparationRule(acc, neighbors, t, e) == acc
  {
  }

  /** The separation rule when it applies, unfolded. */
  lemma SeparationActive(acc: Vec3, neighbors: map<int, NeighborRecord>, t: Tunables, e: Engine)
    requires e.Lawful()
    requires 0.0 < t.separationStrength && |neighbors| > 0
    ensures SeparationRule(acc, neighbors, t, e) ==
      ClampMagnitude(e, Scale(Add(acc, Total(neighbors.Keys, neighbors, Repel(SeparationThreshold(t)))),
                              t.separationStrength), t.maxAccel / 2.0)
  {
  }

  /** Alignment from rest is the mean neighbour velocity, scaled and clamped:
      when every neighbour moves with velocity `v`, the boid is steered along
      `v * alignmentStrength` (clamped). */
  lemma AlignmentFollowsCommonVelocity(neighbors: map<int, NeighborRecord>, v: Vec3, t: Tunables, e: Engine)
    requires e.Lawful()
    requires 0.0 < t.alignmentStrength && |neighbors| > 0
    requires forall k | k in neighbors :: neighbors[k].velocity == v
    ensures AlignmentRule(Zero, neighbors, t, e) == ClampMagnitude(e, Scale(v, t.alignmentStrength), t.maxAccel)
  {
    TotalUniform(neighbors.Keys, neighbors, Heading, v);
    MeanOfCopies(v, |neighbors| as real);
  }

  /** Cohesion from rest points from the boid to the neighbours' centre: when
      every neighbour stands at `p`, the boid is steered along
      `(p - position) * cohesionStrength` (clamped). */
  lemma CohesionSeeksCommonPosition(neighbors: map<int, NeighborRecord>, p: Vec3, position: Vec3, t: Tunables, e: Engine)
    requires e.Lawful()
    requires 0.0 < t.cohesionStrength && |neighbors| > 0
    requires forall k | k in neighbors :: neighbors[k].position == p
    ensures CohesionRule(Zero, neighbors, position, t, e) ==
      ClampMagnitude(e, Scale(Sub(p, position), t.cohesionStrength), t.maxAccel)
  {
    TotalUniform(neighbors.Keys, neighbors, Place, p);
    MeanOfCopies(p, |neighbors| as real);
  }

  lemma ClampKeepsZero(e: Engine, maxLength: real)
    requires e.Lawful()
    ensures ClampMagnitude(e, Zero, maxLength) == Zero
  {
    ClampMagnitudeLimits(e, Zero, maxLength);
    assert SqrMagnitude(Zero) == 0.0;
  }

  lemma MeanOfCopies(v: Vec3, n: real)
    requires 0.0 < n
    ensures Div(Add(Zero, Scale(v, n)), n) == v
  {
    assert (v.x * n) / n == v.x;
    assert (v.y * n) / n == v.y;
    assert (v.z * n) / n == v.z;
  }
}
