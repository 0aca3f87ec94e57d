/**
 * The HC-SR04 ultrasonic range sensor of src/sensor.py: a stored reading and
 * a heading, a clamping `write` and a noisy `read`.
 */
module Sensor {
  import opened Vectors

  /** The closest distance the sensor can measure, in metres. */
  const MinimumRange: real := 0.02
  /** The farthest distance the sensor can measure, in metres. */
  const MaximumRange: real := 4.0
  /** What a distance beyond the maximum range is stored as. */
  const OutOfRangeReading: real := 100.0
  /** The standard deviation of the read noise (the class attribute `noise_scale`). */
  const NoiseScale: real := 0.0

  /** The values `write` can leave behind. */
  predicate Storable(v: real)
  {
    v == 0.0 || (MinimumRange <= v <= MaximumRange) || v == OutOfRangeReading
  }

  /** What `write` stores for a measured distance `v`. */
  function Clamp(v: real): (r: real)
    ensures Storable(r)
  {
    if v < MinimumRange then 0.0
    else if v > MaximumRange then OutOfRangeReading
    else v
  }

  /**
   * The three branches of `write`: too close reads as 0, too far as the
   * out-of-range sentinel 100 (not the maximum range 4), anything in range as
   * itself.
   */
  lemma ClampBranches(v: real)
    ensures v < MinimumRange ==> Clamp(v) == 0.0
    ensures v > MaximumRange ==> Clamp(v) == OutOfRangeReading && Clamp(v) != MaximumRange
    ensures MinimumRange <= v <= MaximumRange ==> Clamp(v) == v
  {
  }

  /**
   * The stored values are exactly the fixed points of `write`: writing the
   * stored value back changes nothing, so `write` is idempotent.
   */
  lemma ClampFixedPoints(v: real)
    ensures Clamp(v) == v <==> Storable(v)
    ensures Clamp(Clamp(v)) == Clamp(v)
  {
  }

  /** A sensor's observable state: its stored value and its heading. */
  datatype SensorState = SensorState(value: real, heading: Vec)

  /** The state `reset` leaves: value 0 and heading (0, 0). */
  const ResetSensor: SensorState := SensorState(0.0, Zero)

  class HCS04 {
    var value: real
    var heading: Vec

    /** A fresh sensor is reset. */
    constructor ()
      ensures State() == ResetSensor
    {
      new;
      Reset();
    }

    function State(): SensorState
      reads this
    {
      SensorState(value, heading)
    }

    /** Every value the sensor can hold after `reset` or `write`. */
    predicate Valid()
      reads this
    {
      Storable(value)
    }

    method Reset()
      modifies this
      ensures State() == ResetSensor && Valid()
    {
      value := 0.0;
      heading := Zero;
    }

    /** The heading setter: stores exactly the given vector. */
    method SetHeading(newHeading: Vec)
      modifies this`heading
      ensures State() == old(State()).(heading := newHeading)
    {
      heading := newHeading;
    }

    /**
     * `read`: the stored value plus `noise_scale` times a standard normal
     * draw `noise`. With `noise_scale` 0 this is the stored value exactly.
     */
    function Read(noise: real): (reading: real)
      reads this
      ensures reading == value
    {
      value + NoiseScale * noise
    }

    /** `write`: stores the clamped distance and keeps the heading. */
    method Write(v: real)
      modifies this`value
      ensures State() == old(State()).(value := Clamp(v))
      ensures Valid()
    {
      if v < MinimumRange {
        value := 0.0;
      } else if v > MaximumRange {
        value := OutOfRangeReading;
      } else {
        value := v;
      }
    }
  }
}
