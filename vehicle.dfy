/**
 * The point vehicle of src/vehicle.py: a position, a velocity, a unit
 * heading, a ring of four range sensors turned a quarter turn apart, and the
 * controller the sensor headings are registered with.
 */
module Vehicle {
  import opened Wrappers
  import opened Vectors
  import opened Sensor
  import opened Control

  /** The heading of a new car. */
  const Up: Vec := Vec(0.0, 1.0)
  /** `SimpleCar` carries four sensors. */
  const SensorCount: nat := 4

  /** A car's observable state, sensors and registered controller headings included. */
  datatype CarState = CarState(
    position: Vec,
    velocity: Vec,
    heading: Vec,
    sensors: seq<SensorState>,
    registered: Option<seq<Vec>>)

  /** The headings `configure_sensors` hands out from `h`: each the rotation of the one before. */
  function Ring(h: Vec, n: nat): (r: seq<Vec>)
    ensures |r| == n
  {
    seq(n, i requires 0 <= i < n => RotateN(h, i))
  }

  /** The sensors with their headings replaced, values kept. */
  function WithHeadings(sensors: seq<SensorState>, headings: seq<Vec>): (r: seq<SensorState>)
    requires |headings| == |sensors|
    ensures |r| == |sensors|
  {
    seq(|sensors|, i requires 0 <= i < |sensors| => sensors[i].(heading := headings[i]))
  }

  /** The headings of the sensors, in order: what `configure_controller` registers. */
  function Headings(sensors: seq<SensorState>): (r: seq<Vec>)
    ensures |r| == |sensors|
  {
    seq(|sensors|, i requires 0 <= i < |sensors| => sensors[i].heading)
  }

  /**
   * The velocity setter: a non-zero velocity also turns the car to face it and
   * re-derives every sensor heading; a zero velocity is stored and nothing
   * else changes.
   */
  function WithVelocity(s: CarState, v: Vec, sqrt: real -> real): CarState
    requires IsSqrt(sqrt)
  {
    NormFacts(v, sqrt);
    if Norm(v, sqrt) != 0.0 then
      var h := Normalize(v, sqrt);
      s.(velocity := v, heading := h, sensors := WithHeadings(s.sensors, Ring(h, |s.sensors|)))
    else
      s.(velocity := v)
  }

  /** The state a new `SimpleCar` is in once its constructor returns. */
  function InitialState(): CarState
  {
    var sensors := seq(SensorCount, _ => ResetSensor);
    CarState(Zero, Zero, Up, WithHeadings(sensors, Ring(Up, SensorCount)), Some(Ring(Up, SensorCount)))
  }

  /** The state `reset` is meant to leave: everything zeroed, registration kept. */
  function ResetState(s: CarState): CarState
  {
    s.(position := Zero, velocity := Zero, heading := Zero,
       sensors := seq(|s.sensors|, _ => ResetSensor))
  }

  /** The state `reset` as written leaves when it raises: the sensors are not reached. */
  function ResetAsWrittenState(s: CarState): CarState
  {
    s.(position := Zero, velocity := Zero, heading := Zero)
  }

  /**
   * A car ready to drive: a unit heading, the sensor ring aligned with it,
   * stored values `write` can produce, and the four headings registered at
   * construction.
   */
  predicate Operational(s: CarState)
  {
    |s.sensors| == SensorCount
    && LengthSq(s.heading) == 1.0
    && (forall i :: 0 <= i < |s.sensors| ==>
          s.sensors[i].heading == RotateN(s.heading, i) && Storable(s.sensors[i].value))
    && s.registered == Some(Ring(Up, SensorCount))
  }

  /** The ring closes after four sensors and each sensor is the previous one turned. */
  lemma RingClosure(h: Vec, n: nat)
    ensures forall i :: 0 <= i < n - 1 ==> Ring(h, n)[i + 1] == Rotate(Ring(h, n)[i])
    ensures forall i :: 0 <= i < n ==> LengthSq(Ring(h, n)[i]) == LengthSq(h)
    ensures n == SensorCount + 1 ==> Ring(h, n)[SensorCount] == h
  {
    forall i | 0 <= i < n
      ensures LengthSq(Ring(h, n)[i]) == LengthSq(h)
    {
      RotatePeriodic(h, i);
    }
    if n == SensorCount + 1 {
      RotatePeriodic(h, 0);
    }
  }

  /** The ring from (0, 1): up, right, down, left. */
  lemma UpRing()
    ensures Ring(Up, SensorCount) == [Vec(0.0, 1.0), Vec(1.0, 0.0), Vec(0.0, -1.0), Vec(-1.0, 0.0)]
  {
    UpTurns();
  }

  /** Turning (0, 1) a quarter turn at a time visits (1, 0), (0, -1) and (-1, 0). */
  lemma UpTurns()
    ensures RotateN(Up, 1) == Vec(1.0, 0.0) && RotateN(Up, 2) == Vec(0.0, -1.0) && RotateN(Up, 3) == Vec(-1.0, 0.0)
  {
  }

  /** A new car faces up; its sensors face up, right, down and left, and read 0. */
  lemma InitialLayout()
    ensures InitialState().sensors == [SensorState(0.0, Vec(0.0, 1.0)), SensorState(0.0, Vec(1.0, 0.0)),
                                       SensorState(0.0, Vec(0.0, -1.0)), SensorState(0.0, Vec(-1.0, 0.0))]
    ensures Headings(InitialState().sensors) == Ring(Up, SensorCount)
    ensures Operational(InitialState())
  {
    UpRing();
    var s := InitialState();
    assert |s.sensors| == 4;
    assert s.sensors[0] == SensorState(0.0, Vec(0.0, 1.0));
    assert s.sensors[1] == SensorState(0.0, Vec(1.0, 0.0));
    assert s.sensors[2] == SensorState(0.0, Vec(0.0, -1.0));
    assert s.sensors[3] == SensorState(0.0, Vec(-1.0, 0.0));
    assert Headings(s.sensors) == Ring(Up, SensorCount);
  }

  /**
   * The setter always stores the velocity and keeps the position, the stored
   * sensor values and the registration; it turns the car only for a non-zero
   * velocity.
   */
  lemma VelocitySetter(s: CarState, v: Vec, sqrt: real -> real)
    requires IsSqrt(sqrt)
    ensures var r := WithVelocity(s, v, sqrt);
            r.velocity == v && r.position == s.position && r.registered == s.registered
            && |r.sensors| == |s.sensors|
            && (forall i :: 0 <= i < |s.sensors| ==> r.sensors[i].value == s.sensors[i].value)
  {
  }

  /** A zero velocity is stored and nothing else changes: the car keeps its heading. */
  lemma StoppingKeepsHeading(s: CarState, sqrt: real -> real)
    requires IsSqrt(sqrt)
    ensures WithVelocity(s, Zero, sqrt) == s.(velocity := Zero)
  {
    NormFacts(Zero, sqrt);
  }

  /**
   * A non-zero velocity turns the car to face it with a unit heading, and
   * turns every sensor with it.
   */
  lemma MovingTurnsCar(s: CarState, v: Vec, sqrt: real -> real)
    requires IsSqrt(sqrt) && v != Zero
    ensures var r := WithVelocity(s, v, sqrt);
            LengthSq(r.heading) == 1.0 && Cross(r.heading, v) == 0.0 && Dot(r.heading, v) > 0.0
            && (forall i :: 0 <= i < |s.sensors| ==> r.sensors[i].heading == RotateN(r.heading, i))
  {
    NormFacts(v, sqrt);
    NormalizeFacts(v, sqrt);
  }

  /** Driving keeps a car operational, whatever velocity it is given. */
  lemma VelocityKeepsOperational(s: CarState, v: Vec, sqrt: real -> real)
    requires IsSqrt(sqrt) && Operational(s)
    ensures Operational(WithVelocity(s, v, sqrt))
  {
  }

  /** An operational car's sensors all point somewhere: no sensor heading is zero. */
  lemma OperationalSensorsAim(s: CarState)
    requires Operational(s)
    ensures forall i :: 0 <= i < |s.sensors| ==> LengthSq(s.sensors[i].heading) == 1.0
    ensures forall i :: 0 <= i < |s.sensors| ==> s.sensors[i].heading != Zero
  {
    forall i | 0 <= i < |s.sensors|
      ensures LengthSq(s.sensors[i].heading) == 1.0
    {
      RotatePeriodic(s.heading, i);
    }
  }

  /**
   * `reset` zeroes the heading to (0, 0), not back to (0, 1), so a reset car
   * is not operational; and stopping before the sensors leaves a state that
   * differs from the intended one on every operational car.
   */
  lemma ResetHeadingIsZero(s: CarState)
    ensures ResetState(s).heading == Zero && ResetState(s).heading != Up
    ensures !Operational(ResetState(s))
    ensures Operational(s) ==> ResetAsWrittenState(s) != ResetState(s)
  {
    if Operational(s) {
      OperationalSensorsAim(s);
      assert ResetAsWrittenState(s).sensors[0] != ResetState(s).sensors[0];
    }
  }

  /**
   * Resetting a car twice leaves it as resetting it once does, so a car
   * named twice in a simulator's list ends its `reset` as intended.
   */
  lemma ResetIdempotent(s: CarState)
    ensures ResetState(ResetState(s)) == ResetState(s)
  {
  }

  /** The reason `reset` as written raises: a Python list has no `reset`. */
  datatype VehicleError = ListHasNoReset

  class SimpleCar {
    var position: Vec
    var velocity: Vec
    var heading: Vec
    const sensors: seq<HCS04>
    const controller: AvoidingController
    /** The objects besides the car itself whose fields its state reads. */
    ghost const Repr: set<object>

    ghost predicate Valid()
    {
      |sensors| == SensorCount
      && (forall i, j :: 0 <= i < j < |sensors| ==> sensors[i] != sensors[j])
      && Repr == {controller as object} + (set s | s in sensors :: s as object)
      && controller in Repr && (forall k :: 0 <= k < |sensors| ==> sensors[k] in Repr)
    }

    function SensorStates(): (r: seq<SensorState>)
      reads sensors
      ensures |r| == |sensors|
    {
      seq(|sensors|, i requires 0 <= i < |sensors| reads sensors => sensors[i].State())
    }

    function State(): CarState
      reads this, sensors, controller
    {
      CarState(position, velocity, heading, SensorStates(), controller.headings)
    }

    /**
     * Four fresh sensors, facing up, right, down and left, and a controller
     * with those headings registered.
     */
    constructor ()
      ensures Valid() && fresh(Repr)
      ensures State() == InitialState()
    {
      var s0 := new HCS04();
      var s1 := new HCS04();
      var s2 := new HCS04();
      var s3 := new HCS04();
      var c := new AvoidingController(None);
      sensors := [s0, s1, s2, s3];
      controller := c;
      position := Zero;
      velocity := Zero;
      heading := Up;
      Repr := {c as object} + (set s | s in [s0, s1, s2, s3] :: s as object);
      new;
      assert s0 in sensors && s1 in sensors && s2 in sensors && s3 in sensors;
      assert Valid() && fresh(Repr);
      ghost var start := State();
      assert start.sensors == seq(SensorCount, _ => ResetSensor);
      ConfigureSensors();
      ghost var configured := State();
      assert configured == start.(sensors := WithHeadings(start.sensors, Ring(Up, SensorCount)));
      ConfigureController();
      InitialLayout();
      assert State() == configured.(registered := Some(Ring(Up, SensorCount)));
    }

    method SetPosition(p: Vec)
      modifies this`position
      ensures State() == old(State()).(position := p)
    {
      position := p;
    }

    method SetVelocity(v: Vec, sqrt: real -> real)
      requires Valid() && IsSqrt(sqrt)
      modifies this`velocity, this`heading, sensors
      ensures State() == WithVelocity(old(State()), v, sqrt)
    {
      ghost var before := State();
      velocity := v;
      assert SensorStates() == before.sensors;
      assert State() == before.(velocity := v);
      NormFacts(v, sqrt);
      if Norm(v, sqrt) != 0.0 {
        var h := Normalize(v, sqrt);
        heading := h;
        assert SensorStates() == before.sensors;
        assert State() == before.(velocity := v, heading := h);
        ConfigureSensors();
        assert State() == before.(velocity := v, heading := h, sensors := WithHeadings(before.sensors, Ring(h, |sensors|)));
      }
    }

    /** Sensor `i` gets the car's heading turned `i` quarter turns. */
    method ConfigureSensors()
      requires Valid()
      modifies sensors
      ensures State() == old(State()).(sensors := WithHeadings(old(State()).sensors, Ring(heading, |sensors|)))
    {
      var next := heading;
      for i := 0 to |sensors|
        invariant next == RotateN(heading, i)
        invariant forall j :: 0 <= j < |sensors| ==> sensors[j].value == old(sensors[j].value)
        invariant forall j :: 0 <= j < i ==> sensors[j].heading == RotateN(heading, j)
        invariant forall j :: i <= j < |sensors| ==> sensors[j].heading == old(sensors[j].heading)
      {
        sensors[i].SetHeading(next);
        next := Rotate(next);
      }
    }

    method ConfigureController()
      requires Valid()
      modifies controller
      ensures State() == old(State()).(registered := Some(Headings(old(State()).sensors)))
    {
      var headings := seq(|sensors|, i requires 0 <= i < |sensors| reads sensors => sensors[i].heading);
      assert headings == Headings(SensorStates());
      controller.RegisterHeadings(headings);
      assert SensorStates() == old(SensorStates());
    }

    /** `reset` as intended: zero the motion and reset every sensor. */
    method Reset()
      requires Valid()
      modifies this, sensors
      ensures State() == ResetState(old(State()))
    {
      position := Zero;
      velocity := Zero;
      heading := Zero;
      controller.Reset();
      for i := 0 to |sensors|
        invariant position == Zero && velocity == Zero && heading == Zero
        invariant controller.headings == old(controller.headings)
        invariant forall j :: 0 <= j < i ==> sensors[j].State() == ResetSensor
        invariant forall j :: i <= j < |sensors| ==> sensors[j].State() == old(sensors[j].State())
      {
        sensors[i].Reset();
      }
      assert SensorStates() == seq(|sensors|, _ => ResetSensor);
    }

    /**
     * `reset` as written: the motion is zeroed, then `self.sensors.reset()`
     * raises before any sensor is reset.
     */
    method ResetAsWritten() returns (r: Outcome<VehicleError>)
      modifies this
      ensures r == Fail(ListHasNoReset)
      ensures State() == ResetAsWrittenState(old(State()))
    {
      position := Zero;
      velocity := Zero;
      heading := Zero;
      controller.Reset();
      return Fail(ListHasNoReset);
    }
  }
}
