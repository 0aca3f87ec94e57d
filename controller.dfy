/**
 * The steering controller of c_implementation/controller.c: a repulsive
 * force felt through four range sensors, a random wander redrawn once per
 * wander period, and their normalised sum as the desired velocity.
 *
 * Two-element `double` buffers are modelled as `Vec` values and the
 * distance buffer as a sequence; `malloc`, `free` and the pointers between
 * buffers are not modelled. `pow`, the division by a norm and the square
 * root are exact over the reals; the square root is the parameter `sqrt`.
 * `rand()` is replaced by the integers it returned, passed in by the
 * caller.
 */
module SteeringController {
  import opened Vectors

  /** The defaults `initialize_controller_default` sets. */
  const CollideDistanceThreshold: real := 0.1
  const RunawayForceThreshold: real := 0.1
  const SignificantForceThreshold: real := 0.0
  const AvoidSupressTime: real := 0.5
  const NumSensors: nat := 4
  const SonarRadianOffsets: seq<int> := [0, 90, 180, 270]
  const InitialHeading: Vec := Vec(0.0, 1.0)
  const InitialWanderTime: real := -10.0
  const DefaultWanderPeriod: int := 6

  /** `RAND_MAX` of glibc and of macOS: `rand()` returns an integer from 0 to it. */
  const RandMax: int := 0x7fff_ffff

  /** `pow(x, n)` for a whole exponent `n`. */
  function Pow(x: real, n: nat): real
  {
    if n == 0 then 1.0 else x * Pow(x, n - 1)
  }

  /** One component of a wander draw, `rand() / RAND_MAX * 2 - 1`, from the integer `r` that `rand()` returned. */
  function DrawComponent(r: int): real
  {
    (r as real / RandMax as real) * 2.0 - 1.0
  }

  /** The raw wander force from two successive `rand()` results. */
  function Draw(r0: int, r1: int): Vec
  {
    Vec(DrawComponent(r0), DrawComponent(r1))
  }

  /**
   * Every component of a draw lies in [-1, 1] and is never zero, because
   * `RAND_MAX` is odd; so a draw is never the zero vector and can always be
   * normalised.
   */
  lemma DrawInSquare(r: int)
    requires 0 <= r <= RandMax
    ensures -1.0 <= DrawComponent(r) <= 1.0 && DrawComponent(r) != 0.0
  {
    var m := RandMax as real;
    assert DrawComponent(r) == (2 * r - RandMax) as real / m;
    assert (2 * r - RandMax) % 2 == 1;
    assert 2 * r - RandMax != 0;
  }

  /** The direction a wander draw normalises to. */
  function WanderDirection(r0: int, r1: int, sqrt: real -> real): Vec
    requires IsSqrt(sqrt) && 0 <= r0 <= RandMax && 0 <= r1 <= RandMax
  {
    DrawInSquare(r0);
    Normalize(Draw(r0, r1), sqrt)
  }

  /** `wander`'s output is a unit vector pointing the way of the draw. */
  lemma WanderIsUnit(r0: int, r1: int, sqrt: real -> real)
    requires IsSqrt(sqrt) && 0 <= r0 <= RandMax && 0 <= r1 <= RandMax
    ensures var w := WanderDirection(r0, r1, sqrt);
            LengthSq(w) == 1.0 && Cross(w, Draw(r0, r1)) == 0.0 && Dot(w, Draw(r0, r1)) > 0.0
  {
    DrawInSquare(r0);
    NormalizeFacts(Draw(r0, r1), sqrt);
  }

  /** The timer rule of `call`: a new wander force is due once a whole wander period has passed. */
  predicate WanderDue(previousWanderTime: real, wanderPeriod: int, time: real)
  {
    time - previousWanderTime >= wanderPeriod as real
  }

  /**
   * With the defaults a first call at time 0 draws, and so does any call up
   * to 4 time units earlier; no call before that does.
   */
  lemma FirstCallDraws(time: real)
    ensures WanderDue(InitialWanderTime, DefaultWanderPeriod, 0.0)
    ensures WanderDue(InitialWanderTime, DefaultWanderPeriod, time) <==> time >= -4.0
  {
  }

  /** The sensor basis as intended: one unit vector per sensor, at 0, 90, 180 and 270 degrees. */
  const IntendedBasis: seq<Vec> := [Vec(0.0, 1.0), Vec(1.0, 0.0), Vec(0.0, -1.0), Vec(-1.0, 0.0)]

  /**
   * The sensor basis as written: row 2 is assigned twice and keeps (-1, 0),
   * and row 3 is never assigned, so it holds `row3`, whatever the allocator
   * left there.
   */
  function AsWrittenBasis(row3: Vec): seq<Vec>
  {
    [Vec(0.0, 1.0), Vec(1.0, 0.0), Vec(-1.0, 0.0), row3]
  }

  /** The per-sensor force stays finite: no distance makes `pow`'s base zero. */
  predicate FiniteRepulsion(distances: seq<real>, n: nat)
    requires n <= |distances|
  {
    forall i :: 0 <= i < n ==> distances[i] + 0.001 != 0.0
  }

  /** The repulsion felt through one sensor at distance `d`: `-0.001 / (d + 0.001)^5`. */
  function Repulsion(d: real): real
    requires d + 0.001 != 0.0
  {
    PowNonZero(d + 0.001, 5);
    -0.001 / Pow(d + 0.001, 5)
  }

  /** `force_per_sensor`: the repulsion through each of the first `n` sensors. */
  function Repulsions(distances: seq<real>, n: nat): (r: seq<real>)
    requires n <= |distances| && FiniteRepulsion(distances, n)
    ensures |r| == n
  {
    seq(n, i requires 0 <= i < n => Repulsion(distances[i]))
  }

  /** The force summed over the first `n` sensors, in sensor order: `Σ basis[i] · perSensor[i]`. */
  function FeltForce(basis: seq<Vec>, perSensor: seq<real>, n: nat): Vec
    requires n <= |basis| && n <= |perSensor|
  {
    if n == 0 then Zero
    else
      var prior := FeltForce(basis, perSensor, n - 1);
      Vec(prior.x + basis[n - 1].x * perSensor[n - 1], prior.y + basis[n - 1].y * perSensor[n - 1])
  }

  lemma {:induction false} PowNonZero(x: real, n: nat)
    requires x != 0.0
    ensures Pow(x, n) != 0.0
  {
    if n > 0 {
      PowNonZero(x, n - 1);
    }
  }

  lemma MulLess(x: real, y: real, u: real, v: real)
    requires 0.0 < x < y && 0.0 < u < v
    ensures 0.0 < x * u < y * v
  {
    MulPositive(x, u);
    MulPositive(y - x, u);
    MulPositive(y, v - u);
  }

  /** `pow(x, n)` is positive and strictly increasing in `x > 0` for every exponent from 1. */
  lemma {:induction false} PowIncreasing(a: real, b: real, n: nat)
    requires 0.0 < a < b && 1 <= n
    ensures 0.0 < Pow(a, n) < Pow(b, n)
  {
    if n == 1 {
      assert Pow(a, 0) == 1.0 && Pow(b, 0) == 1.0;
    } else {
      PowIncreasing(a, b, n - 1);
      MulLess(a, b, Pow(a, n - 1), Pow(b, n - 1));
    }
  }

  lemma QuotientDecreasing(c: real, p: real, q: real)
    requires 0.0 < c && 0.0 < p < q
    ensures 0.0 < c / q < c / p
  {
    assert c / q * q == c && c / p * p == c;
    assert c / q * p < c / q * q;
  }

  /**
   * Each sensor pushes away: its repulsion is negative, and it weakens
   * strictly, towards 0, as the distance grows.
   */
  lemma RepulsionWeakensWithDistance(d1: real, d2: real)
    requires -0.001 < d1 < d2
    ensures Repulsion(d1) < Repulsion(d2) < 0.0
  {
    PowIncreasing(d1 + 0.001, d2 + 0.001, 5);
    QuotientDecreasing(0.001, Pow(d1 + 0.001, 5), Pow(d2 + 0.001, 5));
  }

  /**
   * With the intended basis, four equal distances balance: opposite sensors
   * cancel and no net force is felt.
   */
  lemma IntendedBasisBalances(d: real)
    requires d + 0.001 != 0.0
    ensures FeltForce(IntendedBasis, Repulsions([d, d, d, d], NumSensors), NumSensors) == Zero
  {
    var f := Repulsion(d);
    var per := Repulsions([d, d, d, d], NumSensors);
    assert per == [f, f, f, f];
    assert FeltForce(IntendedBasis, per, 1) == Vec(0.0, f);
    assert FeltForce(IntendedBasis, per, 2) == Vec(f, f);
    assert FeltForce(IntendedBasis, per, 3) == Vec(f, 0.0);
  }

  /**
   * With the basis as written, four equal distances leave a net force along
   * (0, 1) plus the unassigned row: it is not zero unless the allocator
   * happened to leave exactly (0, -1) in row 3.
   */
  lemma AsWrittenBasisUnbalanced(d: real, row3: Vec)
    requires -0.001 < d
    ensures var felt := FeltForce(AsWrittenBasis(row3), Repulsions([d, d, d, d], NumSensors), NumSensors);
            && felt == Scale(Repulsion(d), Add(Vec(0.0, 1.0), row3))
            && (felt == Zero <==> row3 == Vec(0.0, -1.0))
  {
    var f := Repulsion(d);
    RepulsionWeakensWithDistance(d, d + 1.0);
    var per := Repulsions([d, d, d, d], NumSensors);
    assert per == [f, f, f, f];
    var basis := AsWrittenBasis(row3);
    assert FeltForce(basis, per, 1) == Vec(0.0, f);
    assert FeltForce(basis, per, 2) == Vec(f, f);
    assert FeltForce(basis, per, 3) == Vec(0.0, f);
    var felt := FeltForce(basis, per, NumSensors);
    assert felt == Vec(f * row3.x, f + f * row3.y);
    if felt == Zero {
      assert f * row3.x == 0.0 && f * (1.0 + row3.y) == 0.0;
    }
  }

  /** `collide`: the front sensor, index 0, reads closer than the threshold. */
  predicate Collide(threshold: real, distances: seq<real>)
    requires 1 <= |distances|
  {
    distances[0] < threshold
  }

  /** `collide` looks at the front sensor only. */
  lemma CollideLooksAhead(a: seq<real>, b: seq<real>)
    requires 1 <= |a| && 1 <= |b|
    ensures Collide(CollideDistanceThreshold, a) <==> a[0] < 0.1
    ensures a[0] == b[0] ==> (Collide(CollideDistanceThreshold, a) <==> Collide(CollideDistanceThreshold, b))
  {
  }

  /** `runaway`: the force itself when its norm exceeds the threshold, otherwise zero. */
  function Runaway(threshold: real, force: Vec, sqrt: real -> real): Vec
    requires IsSqrt(sqrt)
  {
    if Norm(force, sqrt) > threshold then force else Zero
  }

  lemma SquareLess(a: real, b: real)
    requires 0.0 <= a < b
    ensures a * a < b * b
  {
    MulPositive(b, b);
    if a == 0.0 {
      calc {
        a * a;
      ==
        0.0;
      <
        b * b;
      }
    } else {
      MulPositive(a, b - a);
      MulPositive(b, b - a);
      assert a * a < a * b;
    }
  }

  /**
   * `runaway` passes a force through unchanged or suppresses it: what it
   * returns is zero or longer than the threshold, and it is zero exactly
   * when the force is no longer than the threshold.
   */
  lemma RunawaySuppressesWeakForces(threshold: real, force: Vec, sqrt: real -> real)
    requires IsSqrt(sqrt) && 0.0 <= threshold
    ensures var r := Runaway(threshold, force, sqrt);
            && (r == force || r == Zero)
            && (r == Zero || LengthSq(r) > threshold * threshold)
            && (r == Zero <==> LengthSq(force) <= threshold * threshold)
  {
    NormFacts(force, sqrt);
    var n := Norm(force, sqrt);
    if n > threshold {
      SquareLess(threshold, n);
    } else {
      if n < threshold {
        SquareLess(n, threshold);
      }
    }
  }

  /**
   * `avoid`: the avoid and wander forces added, divided by their norm when
   * it exceeds the threshold, otherwise zero.
   */
  function Avoid(threshold: real, avoidForce: Vec, wanderForce: Vec, sqrt: real -> real): Vec
    requires IsSqrt(sqrt) && 0.0 <= threshold
  {
    var combined := Add(avoidForce, wanderForce);
    var n := Norm(combined, sqrt);
    if n > threshold then Vec(combined.x / n, combined.y / n) else Zero
  }

  /**
   * `avoid` returns the unit vector along the combined force, or zero when
   * the combined force is not significant; with the default threshold 0 it
   * is zero only for a zero combined force.
   */
  lemma AvoidIsUnitOrZero(threshold: real, avoidForce: Vec, wanderForce: Vec, sqrt: real -> real)
    requires IsSqrt(sqrt) && 0.0 <= threshold
    ensures var r := Avoid(threshold, avoidForce, wanderForce, sqrt);
            var combined := Add(avoidForce, wanderForce);
            && (r == Zero || (combined != Zero && r == Normalize(combined, sqrt) && LengthSq(r) == 1.0))
            && (threshold == SignificantForceThreshold ==> (r == Zero <==> combined == Zero))
  {
    var combined := Add(avoidForce, wanderForce);
    NormFacts(combined, sqrt);
    var n := Norm(combined, sqrt);
    if n > threshold {
      NormalizeFacts(combined, sqrt);
      assert Vec(combined.x / n, combined.y / n) == Scale(1.0 / n, combined);
    }
  }

  /** One component after both if-chains of `discretize`, as written. */
  function BinAsWritten(c: real): real
  {
    var first :=
      if c >= 0.0 && c < PiOver8 then 0.0
      else if c >= PiOver8 && c <= 1.0 - PiOver8 then PiOver4
      else if c >= 1.0 - PiOver8 then 1.0
      else c;
    if first < 0.0 && first > -PiOver8 then 0.0
    else if first < -PiOver8 && first > -1.0 + PiOver8 then -PiOver4
    else if first < -1.0 + PiOver8 then -1.0
    else first
  }

  /** The value of pi that `discretize` uses, and its eighth and quarter. */
  const Pi: real := 3.1415926
  const PiOver4: real := Pi / 4.0
  const PiOver8: real := Pi / 8.0

  /** The five values a discretised component is meant to take. */
  predicate IsBin(c: real)
  {
    c == -1.0 || c == -PiOver4 || c == 0.0 || c == PiOver4 || c == 1.0
  }

  /**
   * One component after `discretize` as intended: the negative side
   * mirrors the non-negative side, boundaries included.
   */
  function Bin(c: real): (b: real)
    ensures IsBin(b)
  {
    if c >= 0.0 then
      if c < PiOver8 then 0.0 else if c <= 1.0 - PiOver8 then PiOver4 else 1.0
    else
      if c > -PiOver8 then 0.0 else if c >= -1.0 + PiOver8 then -PiOver4 else -1.0
  }

  /**
   * As written, every non-negative component lands on 0, pi/4 or 1, and
   * every component agrees with the intended one except at the two negative
   * boundaries -pi/8 and -1 + pi/8, which are left as they are and are not
   * among the five values.
   */
  lemma BinAsWrittenMissesBoundaries(c: real)
    ensures c >= 0.0 ==> BinAsWritten(c) == Bin(c) && (BinAsWritten(c) == 0.0 || BinAsWritten(c) == PiOver4 || BinAsWritten(c) == 1.0)
    ensures c != -PiOver8 && c != -1.0 + PiOver8 ==> BinAsWritten(c) == Bin(c)
    ensures BinAsWritten(-PiOver8) == -PiOver8 && !IsBin(-PiOver8)
    ensures BinAsWritten(-1.0 + PiOver8) == -1.0 + PiOver8 && !IsBin(-1.0 + PiOver8)
  {
  }

  /**
   * `discretize`: the direction is normalised in place by `normalize` (not
   * part of this model, so a parameter here), then each of its two
   * components goes through the two if-chains as written. A component lands
   * on one of the five bins, where it agrees with the intended `Bin`,
   * exactly when it is not one of the two negative boundaries.
   */
  method Discretize(direction: array<real>, size: int, normalize: (seq<real>, int) -> seq<real>)
    requires 2 <= direction.Length && |normalize(direction[..], size)| == direction.Length
    modifies direction
    ensures var n := normalize(old(direction[..]), size);
            direction[..] == n[0 := BinAsWritten(n[0])][1 := BinAsWritten(n[1])]
    ensures var n := normalize(old(direction[..]), size);
            forall k :: 0 <= k < 2 ==>
              && (IsBin(direction[k]) <==> n[k] != -PiOver8 && n[k] != -1.0 + PiOver8)
              && (n[k] != -PiOver8 && n[k] != -1.0 + PiOver8 ==> direction[k] == Bin(n[k]))
  {
    ghost var n := normalize(direction[..], size);
    var normalized := normalize(direction[..], size);
    forall k | 0 <= k < direction.Length {
      direction[k] := normalized[k];
    }
    BinComponent(direction, 0);
    BinComponent(direction, 1);
    BinAsWrittenMissesBoundaries(n[0]);
    BinAsWrittenMissesBoundaries(n[1]);
  }

  /** The two if-chains `discretize` applies to component `k`. */
  method BinComponent(direction: array<real>, k: nat)
    requires k < direction.Length
    modifies direction
    ensures direction[..] == old(direction[..])[k := BinAsWritten(old(direction[k]))]
  {
    if direction[k] >= 0.0 && direction[k] < PiOver8 {
      direction[k] := 0.0;
    } else if direction[k] >= PiOver8 && direction[k] <= 1.0 - PiOver8 {
      direction[k] := PiOver4;
    } else if direction[k] >= 1.0 - PiOver8 {
      direction[k] := 1.0;
    }
    if direction[k] < 0.0 && direction[k] > -PiOver8 {
      direction[k] := 0.0;
    } else if direction[k] < -PiOver8 && direction[k] > -1.0 + PiOver8 {
      direction[k] := -PiOver4;
    } else if direction[k] < -1.0 + PiOver8 {
      direction[k] := -1.0;
    }
  }

  class Controller {
    const collideDistanceThreshold: real
    const runawayForceThreshold: real
    const significantForceThreshold: real
    const avoidSupressTime: real
    var previousWanderTime: real
    var previousAvoidHeading: Vec
    var previousHeading: Vec
    /** The last wander direction drawn. The buffer it names is freed by `call` right after; only its values are kept here. */
    var previousWander: Vec
    var previousTime: real
    const wanderPeriod: int
    const numSensors: nat
    const sonarRadianOffsets: seq<int>
    const sonarBasisVectors: seq<Vec>

    /** The parameters agree with the sensors, and the avoid threshold is not negative. */
    predicate Valid()
    {
      numSensors <= |sonarBasisVectors| && 0.0 <= significantForceThreshold
    }

    /** `initialize_controller_default` with the basis as intended. */
    constructor ()
      ensures Valid() && sonarBasisVectors == IntendedBasis
      ensures collideDistanceThreshold == CollideDistanceThreshold && runawayForceThreshold == RunawayForceThreshold
      ensures significantForceThreshold == SignificantForceThreshold && avoidSupressTime == AvoidSupressTime
      ensures numSensors == NumSensors && sonarRadianOffsets == SonarRadianOffsets
      ensures previousWander == Zero && previousHeading == InitialHeading && previousAvoidHeading == Zero
      ensures previousTime == 0.0 && previousWanderTime == InitialWanderTime && wanderPeriod == DefaultWanderPeriod
    {
      collideDistanceThreshold := CollideDistanceThreshold;
      runawayForceThreshold := RunawayForceThreshold;
      significantForceThreshold := SignificantForceThreshold;
      avoidSupressTime := AvoidSupressTime;
      numSensors := NumSensors;
      sonarRadianOffsets := SonarRadianOffsets;
      sonarBasisVectors := IntendedBasis;
      previousWander := Zero;
      previousHeading := InitialHeading;
      previousAvoidHeading := Zero;
      previousTime := 0.0;
      previousWanderTime := InitialWanderTime;
      wanderPeriod := DefaultWanderPeriod;
    }

    /** `initialize_controller_default` as written: basis row 3 holds whatever `row3` the allocator left. */
    constructor AsWritten(row3: Vec)
      ensures Valid() && sonarBasisVectors == AsWrittenBasis(row3)
      ensures collideDistanceThreshold == CollideDistanceThreshold && runawayForceThreshold == RunawayForceThreshold
      ensures significantForceThreshold == SignificantForceThreshold && avoidSupressTime == AvoidSupressTime
      ensures numSensors == NumSensors && sonarRadianOffsets == SonarRadianOffsets
      ensures previousWander == Zero && previousHeading == InitialHeading && previousAvoidHeading == Zero
      ensures previousTime == 0.0 && previousWanderTime == InitialWanderTime && wanderPeriod == DefaultWanderPeriod
    {
      collideDistanceThreshold := CollideDistanceThreshold;
      runawayForceThreshold := RunawayForceThreshold;
      significantForceThreshold := SignificantForceThreshold;
      avoidSupressTime := AvoidSupressTime;
      numSensors := NumSensors;
      sonarRadianOffsets := SonarRadianOffsets;
      sonarBasisVectors := AsWrittenBasis(row3);
      previousWander := Zero;
      previousHeading := InitialHeading;
      previousAvoidHeading := Zero;
      previousTime := 0.0;
      previousWanderTime := InitialWanderTime;
      wanderPeriod := DefaultWanderPeriod;
    }

    /**
     * `feel_force`: the repulsion through each sensor, then their sum along
     * the sensor basis.
     */
    method FeelForce(distances: seq<real>) returns (force: Vec)
      requires Valid() && numSensors <= |distances| && FiniteRepulsion(distances, numSensors)
      ensures force == FeltForce(sonarBasisVectors, Repulsions(distances, numSensors), numSensors)
    {
      var perSensor: seq<real> := [];
      for i := 0 to numSensors
        invariant |perSensor| == i && forall k :: 0 <= k < i ==> perSensor[k] == Repulsion(distances[k])
      {
        PowNonZero(distances[i] + 0.001, 5);
        perSensor := perSensor + [-0.001 / Pow(distances[i] + 0.001, 5)];
      }
      assert perSensor == Repulsions(distances, numSensors);
      force := Zero;
      for i := 0 to numSensors
        invariant force == FeltForce(sonarBasisVectors, perSensor, i)
      {
        force := Vec(force.x + sonarBasisVectors[i].x * perSensor[i], force.y + sonarBasisVectors[i].y * perSensor[i]);
      }
    }

    /**
     * `wander`: a draw from `rand()` results `r0` and `r1`, normalised and
     * kept as the previous wander.
     */
    method Wander(r0: int, r1: int, sqrt: real -> real) returns (w: Vec)
      requires IsSqrt(sqrt) && 0 <= r0 <= RandMax && 0 <= r1 <= RandMax
      modifies this`previousWander
      ensures w == WanderDirection(r0, r1, sqrt) && previousWander == w
    {
      var force := Vec(DrawComponent(r0), DrawComponent(r1));
      DrawInSquare(r0);
      NormFacts(force, sqrt);
      var n := Norm(force, sqrt);
      w := Vec(force.x / n, force.y / n);
      assert w == Scale(1.0 / n, force);
      previousWander := w;
    }

    /** `reset`: the previous heading becomes (0, 0). */
    method Reset()
      modifies this`previousHeading
      ensures previousHeading == Zero
    {
      previousHeading := Zero;
    }

    /**
     * `call`: the felt force, plus a new wander direction when one is due
     * (restarting the wander timer) or nothing otherwise, combined by
     * `avoid`; the result is remembered as the previous heading.
     */
    method Call(distances: seq<real>, time: real, r0: int, r1: int, sqrt: real -> real) returns (desired: Vec)
      requires Valid() && IsSqrt(sqrt) && numSensors <= |distances| && FiniteRepulsion(distances, numSensors)
      requires 0 <= r0 <= RandMax && 0 <= r1 <= RandMax
      modifies this
      ensures var due := WanderDue(old(previousWanderTime), wanderPeriod, time);
              var wander := if due then WanderDirection(r0, r1, sqrt) else Zero;
              && desired == Avoid(significantForceThreshold, FeltForce(sonarBasisVectors, Repulsions(distances, numSensors), numSensors), wander, sqrt)
              && previousWanderTime == (if due then time else old(previousWanderTime))
              && previousWander == (if due then wander else old(previousWander))
              && previousHeading == desired && previousTime == time
              && previousAvoidHeading == old(previousAvoidHeading)
    {
      var avoidForce := FeelForce(distances);
      var wanderForce;
      if time - previousWanderTime >= wanderPeriod as real {
        wanderForce := Wander(r0, r1, sqrt);
        previousWanderTime := time;
      } else {
        wanderForce := Zero;
      }
      desired := Avoid(significantForceThreshold, avoidForce, wanderForce, sqrt);
      previousHeading := desired;
      previousTime := time;
    }
  }

  /**
   * The scenario of c_implementation/main.c, with the intended basis: on a
   * first call at time 0 with every sensor at distance 1, the sensors
   * balance, a wander direction is drawn, and the desired velocity is that
   * unit direction.
   */
  lemma FirstCallFollowsWander(r0: int, r1: int, sqrt: real -> real)
    requires IsSqrt(sqrt) && 0 <= r0 <= RandMax && 0 <= r1 <= RandMax
    ensures WanderDue(InitialWanderTime, DefaultWanderPeriod, 0.0)
    ensures var felt := FeltForce(IntendedBasis, Repulsions([1.0, 1.0, 1.0, 1.0], NumSensors), NumSensors);
            var w := WanderDirection(r0, r1, sqrt);
            felt == Zero && Avoid(SignificantForceThreshold, felt, w, sqrt) == w
  {
    IntendedBasisBalances(1.0);
    var w := WanderDirection(r0, r1, sqrt);
    WanderIsUnit(r0, r1, sqrt);
    assert Add(Zero, w) == w;
    AvoidIsUnitOrZero(SignificantForceThreshold, Zero, w, sqrt);
    LengthSqZero(w);
    NormalizeUnit(w, sqrt);
  }
}
