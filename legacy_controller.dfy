/**
 * The older steering controller of c_implementation/src/controller.c. It
 * shares the sensor basis, the timer rule, `collide` and `runaway` with
 * the newer one in c_implementation/controller.c, and differs in three
 * places: the repulsion is `-1 / (10 d + 0.001)^5`, `wander` adds the draw
 * to a previous wander that nothing ever updates, and `avoid` returns the
 * combined force without normalising it. The previous heading is a pointer
 * that `initialize_controller_default` never allocates, so `reset` and
 * `call` write through it only when some other code has set it.
 */
module LegacySteeringController {
  import opened Wrappers
  import opened Vectors
  import opened SteeringController

  /** The per-sensor force stays finite: no distance makes `pow`'s base zero. */
  predicate FiniteLegacyRepulsion(distances: seq<real>, n: nat)
    requires n <= |distances|
  {
    forall i :: 0 <= i < n ==> 10.0 * distances[i] + 0.001 != 0.0
  }

  /** The repulsion felt through one sensor at distance `d`: `-1 / (10 d + 0.001)^5`. */
  function LegacyRepulsion(d: real): real
    requires 10.0 * d + 0.001 != 0.0
  {
    PowNonZero(10.0 * d + 0.001, 5);
    -1.0 / Pow(10.0 * d + 0.001, 5)
  }

  /** `force_per_sensor`: the repulsion through each of the first `n` sensors. */
  function LegacyRepulsions(distances: seq<real>, n: nat): (r: seq<real>)
    requires n <= |distances| && FiniteLegacyRepulsion(distances, n)
    ensures |r| == n
  {
    seq(n, i requires 0 <= i < n => LegacyRepulsion(distances[i]))
  }

  /**
   * Each sensor pushes away, weaker with distance; compared with the newer
   * controller's, the older repulsion at distance `d` is the newer one at
   * distance `10 d` scaled by 1000.
   */
  lemma LegacyRepulsionWeakensWithDistance(d1: real, d2: real)
    requires -0.0001 < d1 < d2
    ensures LegacyRepulsion(d1) < LegacyRepulsion(d2) < 0.0
    ensures LegacyRepulsion(d1) == 1000.0 * Repulsion(10.0 * d1)
  {
    PowIncreasing(10.0 * d1 + 0.001, 10.0 * d2 + 0.001, 5);
    QuotientDecreasing(1.0, Pow(10.0 * d1 + 0.001, 5), Pow(10.0 * d2 + 0.001, 5));
  }

  /** `avoid`: the avoid and wander forces added, kept as they are when their norm exceeds the threshold, otherwise zero. */
  function LegacyAvoid(threshold: real, avoidForce: Vec, wanderForce: Vec, sqrt: real -> real): Vec
    requires IsSqrt(sqrt)
  {
    var combined := Add(avoidForce, wanderForce);
    if Norm(combined, sqrt) > threshold then combined else Zero
  }

  /**
   * The older `avoid` keeps the magnitude of the combined force; where the
   * combined force is significant, the newer `avoid` returns the same
   * direction scaled to unit length.
   */
  lemma LegacyAvoidKeepsMagnitude(threshold: real, avoidForce: Vec, wanderForce: Vec, sqrt: real -> real)
    requires IsSqrt(sqrt) && 0.0 <= threshold
    ensures var r := LegacyAvoid(threshold, avoidForce, wanderForce, sqrt);
            var combined := Add(avoidForce, wanderForce);
            && (r == combined || r == Zero)
            && (r == Zero <==> Avoid(threshold, avoidForce, wanderForce, sqrt) == Zero)
            && (r != Zero ==> Avoid(threshold, avoidForce, wanderForce, sqrt) == Normalize(r, sqrt))
  {
    var combined := Add(avoidForce, wanderForce);
    NormFacts(combined, sqrt);
    var n := Norm(combined, sqrt);
    if n > threshold {
      NormalizeFacts(combined, sqrt);
      assert Vec(combined.x / n, combined.y / n) == Scale(1.0 / n, combined);
      assert Avoid(threshold, avoidForce, wanderForce, sqrt) != Zero by {
        LengthSqZero(Normalize(combined, sqrt));
      }
    }
  }

  /** A force of length 2 comes out of the older `avoid` with length 2 and out of the newer one with length 1. */
  lemma AvoidVersionsDiffer(sqrt: real -> real)
    requires IsSqrt(sqrt)
    ensures LegacyAvoid(SignificantForceThreshold, Vec(2.0, 0.0), Zero, sqrt) == Vec(2.0, 0.0)
    ensures Avoid(SignificantForceThreshold, Vec(2.0, 0.0), Zero, sqrt) == Vec(1.0, 0.0)
  {
    SqrtOfSquare(sqrt, 4.0, 2.0);
    assert Add(Vec(2.0, 0.0), Zero) == Vec(2.0, 0.0);
    assert LengthSq(Vec(2.0, 0.0)) == 4.0;
  }

  class Controller {
    const collideDistanceThreshold: real
    const runawayForceThreshold: real
    const significantForceThreshold: real
    const avoidSupressTime: real
    var previousWanderTime: real
    var previousAvoidHeading: Vec
    /** The buffer `previous_heading` points to, `None` while it points nowhere. */
    var previousHeading: Option<Vec>
    var previousWander: Vec
    var previousTime: real
    const wanderPeriod: int
    const numSensors: nat
    const sonarRadianOffsets: seq<int>
    const sonarBasisVectors: seq<Vec>

    /** The parameters agree with the sensors, and the previous wander is the zero vector that nothing overwrites. */
    predicate Valid()
      reads this
    {
      numSensors <= |sonarBasisVectors| && previousWander == Zero
    }

    /** `initialize_controller_default` with the basis as intended; the previous heading is left unallocated. */
    constructor ()
      ensures Valid() && sonarBasisVectors == IntendedBasis
      ensures collideDistanceThreshold == CollideDistanceThreshold && runawayForceThreshold == RunawayForceThreshold
      ensures significantForceThreshold == SignificantForceThreshold && avoidSupressTime == AvoidSupressTime
      ensures numSensors == NumSensors && sonarRadianOffsets == SonarRadianOffsets
      ensures previousHeading == None && previousAvoidHeading == Zero
      ensures previousTime == 0.0 && previousWanderTime == InitialWanderTime && wanderPeriod == DefaultWanderPeriod
    {
      collideDistanceThreshold := CollideDistanceThreshold;
      runawayForceThreshold := RunawayForceThreshold;
      significantForceThreshold := SignificantForceThreshold;
      avoidSupressTime := AvoidSupressTime;
      numSensors := NumSensors;
      sonarRadianOffsets := SonarRadianOffsets;
      sonarBasisVectors := IntendedBasis;
      previousWander := Zero;
      previousHeading := None;
      previousAvoidHeading := Zero;
      previousTime := 0.0;
      previousWanderTime := InitialWanderTime;
      wanderPeriod := DefaultWanderPeriod;
    }

    /** `initialize_controller_default` as written: basis row 3 holds whatever `row3` the allocator left. */
    constructor AsWritten(row3: Vec)
      ensures Valid() && sonarBasisVectors == AsWrittenBasis(row3)
      ensures collideDistanceThreshold == CollideDistanceThreshold && runawayForceThreshold == RunawayForceThreshold
      ensures significantForceThreshold == SignificantForceThreshold && avoidSupressTime == AvoidSupressTime
      ensures numSensors == NumSensors && sonarRadianOffsets == SonarRadianOffsets
      ensures previousHeading == None && previousAvoidHeading == Zero
      ensures previousTime == 0.0 && previousWanderTime == InitialWanderTime && wanderPeriod == DefaultWanderPeriod
    {
      collideDistanceThreshold := CollideDistanceThreshold;
      runawayForceThreshold := RunawayForceThreshold;
      significantForceThreshold := SignificantForceThreshold;
      avoidSupressTime := AvoidSupressTime;
      numSensors := NumSensors;
      sonarRadianOffsets := SonarRadianOffsets;
      sonarBasisVectors := AsWrittenBasis(row3);
      previousWander := Zero;
      previousHeading := None;
      previousAvoidHeading := Zero;
      previousTime := 0.0;
      previousWanderTime := InitialWanderTime;
      wanderPeriod := DefaultWanderPeriod;
    }

    /** `feel_force`: the repulsion through each sensor, then their sum along the sensor basis. */
    method FeelForce(distances: seq<real>) returns (force: Vec)
      requires Valid() && numSensors <= |distances| && FiniteLegacyRepulsion(distances, numSensors)
      ensures force == FeltForce(sonarBasisVectors, LegacyRepulsions(distances, numSensors), numSensors)
    {
      var perSensor: seq<real> := [];
      for i := 0 to numSensors
        invariant |perSensor| == i && forall k :: 0 <= k < i ==> perSensor[k] == LegacyRepulsion(distances[k])
      {
        PowNonZero(10.0 * distances[i] + 0.001, 5);
        perSensor := perSensor + [-1.0 / Pow(10.0 * distances[i] + 0.001, 5)];
      }
      assert perSensor == LegacyRepulsions(distances, numSensors);
      force := Zero;
      for i := 0 to numSensors
        invariant force == FeltForce(sonarBasisVectors, perSensor, i)
      {
        force := Vec(force.x + sonarBasisVectors[i].x * perSensor[i], force.y + sonarBasisVectors[i].y * perSensor[i]);
      }
    }

    /**
     * `wander`: the previous wander plus a draw from `rand()` results `r0`
     * and `r1`, normalised. The previous wander stays zero, so the result is
     * the newer controller's wander direction, and nothing is remembered.
     */
    method Wander(r0: int, r1: int, sqrt: real -> real) returns (w: Vec)
      requires Valid() && IsSqrt(sqrt) && 0 <= r0 <= RandMax && 0 <= r1 <= RandMax
      ensures w == WanderDirection(r0, r1, sqrt)
    {
      var randomDirection := Vec(DrawComponent(r0), DrawComponent(r1));
      var heading := Vec(previousWander.x + randomDirection.x, previousWander.y + randomDirection.y);
      DrawInSquare(r0);
      assert heading == Draw(r0, r1);
      NormFacts(heading, sqrt);
      var n := Norm(heading, sqrt);
      w := Vec(heading.x / n, heading.y / n);
      assert w == Scale(1.0 / n, heading);
    }

    /** `reset`: the previous heading becomes (0, 0); it must point somewhere. */
    method Reset()
      requires previousHeading.Some?
      modifies this`previousHeading
      ensures previousHeading == Some(Zero)
    {
      previousHeading := Some(Zero);
    }

    /**
     * `call`: the felt force, plus a wander direction when one is due
     * (restarting the wander timer) or nothing otherwise, combined by the
     * unnormalising `avoid`; the result is written to the previous heading.
     */
    method Call(distances: seq<real>, time: real, r0: int, r1: int, sqrt: real -> real) returns (desired: Vec)
      requires Valid() && IsSqrt(sqrt) && previousHeading.Some?
      requires numSensors <= |distances| && FiniteLegacyRepulsion(distances, numSensors)
      requires 0 <= r0 <= RandMax && 0 <= r1 <= RandMax
      modifies this
      ensures Valid()
      ensures var due := WanderDue(old(previousWanderTime), wanderPeriod, time);
              var wander := if due then WanderDirection(r0, r1, sqrt) else Zero;
              && desired == LegacyAvoid(significantForceThreshold, FeltForce(sonarBasisVectors, LegacyRepulsions(distances, numSensors), numSensors), wander, sqrt)
              && previousWanderTime == (if due then time else old(previousWanderTime))
              && previousHeading == Some(desired) && previousTime == time
              && previousWander == old(previousWander) && previousAvoidHeading == old(previousAvoidHeading)
    {
      var avoidForce := FeelForce(distances);
      var wanderForce;
      if time - previousWanderTime >= wanderPeriod as real {
        wanderForce := Wander(r0, r1, sqrt);
        previousWanderTime := time;
      } else {
        wanderForce := Zero;
      }
      desired := LegacyAvoid(significantForceThreshold, avoidForce, wanderForce, sqrt);
      previousHeading := Some(desired);
      previousTime := time;
    }
  }
}
