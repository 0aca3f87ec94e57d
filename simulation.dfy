/**
 * The tick loop of src/simulation.py: each vehicle in turn moves by its
 * velocity, is checked against the arena, measures with every sensor and
 * takes the controller's command as its new velocity.
 */
module Simulation {
  import opened Wrappers
  import opened Vectors
  import opened Environment
  import opened Sensor
  import opened Control
  import opened Vehicle

  /** Seconds per step (the class attribute `step_duration`). */
  const StepDuration: real := 1.0

  /** Why a step stops early. */
  datatype StepError =
    | Collision(position: Vec)   // the vehicle left the arena
    | SensorSeesNoWall           // a sensor's ray met no wall: `min` of an empty list
    | ControllerMisuse           // the controller's registration check failed
    | NoEnvironment              // no environment was given: `inside` is looked up on `None`

  /** A vehicle's position after moving for one step at its velocity. */
  function Moved(s: CarState): CarState
  {
    s.(position := Add(s.position, Scale(StepDuration, s.velocity)))
  }

  /** The sensors after measuring, and whether one of them saw no wall. */
  datatype Sensing = Sensing(sensors: seq<SensorState>, blind: bool)

  /**
   * The sensors from index `j` on measure in turn, each storing the distance
   * to the boundary along its heading; the first whose ray meets no wall
   * stops the round, leaving it and the later sensors as they were.
   */
  function SenseFrom(env: Arena, position: Vec, sensors: seq<SensorState>, j: nat)
    : (r: Sensing)
    requires j <= |sensors|
    ensures |r.sensors| == |sensors|
    decreases |sensors| - j
  {
    if j == |sensors| then Sensing(sensors, false)
    else
      var d := env.distance(position, sensors[j].heading);
      if d.Failure? then Sensing(sensors, true)
      else SenseFrom(env, position, sensors[j := sensors[j].(value := Clamp(d.value))], j + 1)
  }

  /** The first sensor from index `i` on whose ray meets no wall, or the sensor count if none. */
  function FirstBlind(env: Arena, position: Vec, sensors: seq<SensorState>, i: nat): (k: nat)
    requires i <= |sensors|
    ensures i <= k <= |sensors|
    decreases |sensors| - i
  {
    if i == |sensors| then i
    else if env.distance(position, sensors[i].heading).Failure? then i
    else FirstBlind(env, position, sensors, i + 1)
  }

  /** Every one of the first `n` sensors measures a distance. */
  predicate Measurable(env: Arena, position: Vec, sensors: seq<SensorState>, n: nat)
    requires n <= |sensors|
  {
    forall j :: 0 <= j < n ==> env.distance(position, sensors[j].heading).Success?
  }

  /** The sensors once the first `n` have been written with their measured distances; the rest are untouched. */
  function Written(env: Arena, position: Vec, sensors: seq<SensorState>, n: nat)
    : (r: seq<SensorState>)
    requires n <= |sensors| && Measurable(env, position, sensors, n)
    ensures |r| == |sensors| && forall j :: n <= j < |sensors| ==> r[j] == sensors[j]
  {
    if n == 0 then sensors
    else
      var w := Written(env, position, sensors, n - 1);
      w[n - 1 := sensors[n - 1].(value := Clamp(env.distance(position, sensors[n - 1].heading).value))]
  }

  /** The stored sensor values, in order. */
  function Values(sensors: seq<SensorState>): (r: seq<real>)
    ensures |r| == |sensors|
  {
    seq(|sensors|, j requires 0 <= j < |sensors| => sensors[j].value)
  }

  /** A vehicle's state after its turn in a step, and whether the step goes on. */
  datatype CarStep = CarStep(state: CarState, outcome: Outcome<StepError>)

  /**
   * One vehicle's turn: move; stop (keeping the move) when there is no
   * environment to ask, or with a collision if outside; write and read each
   * sensor, stopping at the first that sees no wall; then set the velocity
   * to the controller's command.
   */
  function StepCar(env: Option<Arena>, s: CarState, sqrt: real -> real): CarStep
    requires IsSqrt(sqrt)
  {
    var moved := Moved(s);
    if env.None? then CarStep(moved, Fail(NoEnvironment))
    else if !env.value.inside(moved.position) then CarStep(moved, Fail(Collision(moved.position)))
    else
      var sensed := SenseFrom(env.value, moved.position, moved.sensors, 0);
      var written := moved.(sensors := sensed.sensors);
      if sensed.blind then CarStep(written, Fail(SensorSeesNoWall))
      else
        match Command(written.registered, Values(written.sensors))
        case Failure(_) => CarStep(written, Fail(ControllerMisuse))
        case Success(v) => CarStep(WithVelocity(written, v, sqrt), Pass)
  }

  /** A vehicle's turn in `env`, as a function of its state. */
  function TurnIn(env: Option<Arena>, sqrt: real -> real): CarState -> CarStep
    requires IsSqrt(sqrt)
  {
    s => StepCar(env, s, sqrt)
  }

  /** The fleet after the vehicles from `i` on have had their turns, the snapshots taken, and the outcome. */
  datatype FleetStep = FleetStep(states: seq<CarState>, frames: seq<seq<CarState>>, outcome: Outcome<StepError>)

  /**
   * The fleet once the car at entry `i` is in state `v`. Entries `j` and `k`
   * name the same car exactly when `ids[j] == ids[k]`, and every entry
   * naming that car shows the new state.
   */
  function Update(states: seq<CarState>, ids: seq<nat>, i: nat, v: CarState): (r: seq<CarState>)
    requires |ids| == |states| && i < |states|
    ensures |r| == |states|
  {
    seq(|states|, j requires 0 <= j < |states| => if ids[j] == ids[i] then v else states[j])
  }

  /** No car is named twice. */
  predicate Distinct(ids: seq<nat>)
  {
    forall j, k :: 0 <= j < k < |ids| ==> ids[j] != ids[k]
  }

  /** Among distinct cars, updating one entry changes that entry only. */
  lemma UpdateDistinct(states: seq<CarState>, ids: seq<nat>, i: nat, v: CarState)
    requires |ids| == |states| && i < |states| && Distinct(ids)
    ensures Update(states, ids, i, v) == states[i := v]
  {
    forall j | 0 <= j < |states| && j != i
      ensures ids[j] != ids[i]
    {
      if j < i {
        assert ids[j] != ids[i];
      } else {
        assert ids[i] != ids[j];
      }
    }
  }

  /**
   * The entries from `i` on take their turns in order, each from the state
   * its car is in by then; the first failure ends the step.
   */
  function StepFrom(turn: CarState -> CarStep, states: seq<CarState>, ids: seq<nat>, i: nat, save: bool)
    : (r: FleetStep)
    requires i <= |states| == |ids|
    ensures |r.states| == |states|
    decreases |states| - i
  {
    if i == |states| then FleetStep(states, [], Pass)
    else
      var frame := if save then [states] else [];
      var c := turn(states[i]);
      var next := Update(states, ids, i, c.state);
      if c.outcome.Fail? then FleetStep(next, frame, c.outcome)
      else
        var rest := StepFrom(turn, next, ids, i + 1, save);
        FleetStep(rest.states, frame + rest.frames, rest.outcome)
  }

  /**
   * Measuring in turn writes exactly the sensors before the first blind one,
   * and is blind exactly when some sensor is.
   */
  lemma {:induction false} SenseFromWritesPrefix(env: Arena, position: Vec, sensors: seq<SensorState>,
                                                 j: nat)
    requires j <= |sensors| && Measurable(env, position, sensors, j)
    ensures var k := FirstBlind(env, position, sensors, j);
            && Measurable(env, position, sensors, k)
            && (k < |sensors| ==> env.distance(position, sensors[k].heading).Failure?)
            && SenseFrom(env, position, Written(env, position, sensors, j), j)
               == Sensing(Written(env, position, sensors, k), k < |sensors|)
    decreases |sensors| - j
  {
    if j < |sensors| && env.distance(position, sensors[j].heading).Success? {
      assert Measurable(env, position, sensors, j + 1);
      SenseFromWritesPrefix(env, position, sensors, j + 1);
    }
  }

  /** From the start, the round of measurements is the closed form above. */
  lemma SenseIsFirstBlind(env: Arena, position: Vec, sensors: seq<SensorState>)
    ensures var k := FirstBlind(env, position, sensors, 0);
            && Measurable(env, position, sensors, k)
            && (k < |sensors| ==> env.distance(position, sensors[k].heading).Failure?)
            && SenseFrom(env, position, sensors, 0) == Sensing(Written(env, position, sensors, k), k < |sensors|)
  {
    SenseFromWritesPrefix(env, position, sensors, 0);
  }

  /**
   * Part way through a step: the vehicles before `i` have had their turns,
   * producing `current` and the snapshots `saved`; what remains of the step
   * completes it with the result `total`.
   */
  ghost predicate StepSoFar(turn: CarState -> CarStep, total: FleetStep, current: seq<CarState>, ids: seq<nat>,
                            i: nat, save: bool, saved: seq<seq<CarState>>)
    requires i <= |current| == |ids|
  {
    var r := StepFrom(turn, current, ids, i, save);
    total.states == r.states && total.outcome == r.outcome && total.frames == saved + r.frames
  }

  /** Before any turn, what remains is the whole step. */
  lemma StepSoFarStart(turn: CarState -> CarStep, states: seq<CarState>, ids: seq<nat>, save: bool)
    requires |states| == |ids|
    ensures StepSoFar(turn, StepFrom(turn, states, ids, 0, save), states, ids, 0, save, [])
  {
    assert [] + StepFrom(turn, states, ids, 0, save).frames == StepFrom(turn, states, ids, 0, save).frames;
  }

  /** After the last turn, the step is complete and passed. */
  lemma StepSoFarDone(turn: CarState -> CarStep, total: FleetStep, current: seq<CarState>, ids: seq<nat>,
                      save: bool, saved: seq<seq<CarState>>)
    requires |current| == |ids| && StepSoFar(turn, total, current, ids, |current|, save, saved)
    ensures total == FleetStep(current, saved, Pass)
  {
    assert saved + [] == saved;
  }

  /** A turn `c` that passes moves the step on to vehicle `i + 1`. */
  lemma StepSoFarPass(turn: CarState -> CarStep, total: FleetStep, current: seq<CarState>, ids: seq<nat>,
                      i: nat, save: bool, saved: seq<seq<CarState>>, c: CarStep)
    requires i < |current| == |ids| && StepSoFar(turn, total, current, ids, i, save, saved)
    requires c == turn(current[i]) && c.outcome.Pass?
    ensures StepSoFar(turn, total, Update(current, ids, i, c.state), ids, i + 1, save,
                      saved + if save then [current] else [])
  {
    var frame := if save then [current] else [];
    var rest := StepFrom(turn, Update(current, ids, i, c.state), ids, i + 1, save);
    assert saved + (frame + rest.frames) == (saved + frame) + rest.frames;
  }

  /** A turn `c` that fails ends the step with its failure. */
  lemma StepSoFarFail(turn: CarState -> CarStep, total: FleetStep, current: seq<CarState>, ids: seq<nat>,
                      i: nat, save: bool, saved: seq<seq<CarState>>, c: CarStep)
    requires i < |current| == |ids| && StepSoFar(turn, total, current, ids, i, save, saved)
    requires c == turn(current[i]) && c.outcome.Fail?
    ensures total == FleetStep(Update(current, ids, i, c.state), saved + (if save then [current] else []), c.outcome)
  {
  }

  /** What `reset` leaves of every vehicle. */
  function ResetAll(states: seq<CarState>): (r: seq<CarState>)
    ensures |r| == |states|
  {
    seq(|states|, i requires 0 <= i < |states| => ResetState(states[i]))
  }

  /** Entries with the same label hold the same state. */
  predicate Agree(states: seq<CarState>, ids: seq<nat>)
    requires |ids| == |states|
  {
    forall j, k :: 0 <= j < |states| && 0 <= k < |states| && ids[j] == ids[k] ==> states[j] == states[k]
  }

  /** The entries before `i` are reset, and every entry is either reset or as it started. */
  predicate ResetUpTo(start: seq<CarState>, current: seq<CarState>, i: nat)
    requires |current| == |start|
  {
    && (forall j :: 0 <= j < i && j < |start| ==> current[j] == ResetState(start[j]))
    && (forall j :: 0 <= j < |start| ==> current[j] == start[j] || current[j] == ResetState(start[j]))
  }

  /**
   * Resetting entry `i` keeps `reset`'s loop on track even when entry `i`
   * names a vehicle an earlier entry already reset.
   */
  lemma ResetNext(start: seq<CarState>, current: seq<CarState>, ids: seq<nat>, i: nat)
    requires |start| == |current| == |ids| && i < |start|
    requires Agree(start, ids) && ResetUpTo(start, current, i)
    ensures ResetUpTo(start, Update(current, ids, i, ResetState(current[i])), i + 1)
  {
    ResetIdempotent(start[i]);
  }

  /** The fleet, snapshots and completed step count after up to `n` steps, stopping at the first failure. */
  datatype Run = Run(states: seq<CarState>, frames: seq<seq<CarState>>, steps: nat, outcome: Outcome<StepError>)

  function RunSteps(turn: CarState -> CarStep, states: seq<CarState>, ids: seq<nat>, n: nat, save: bool): (r: Run)
    requires |states| == |ids|
    ensures |r.states| == |states| && r.steps <= n
    ensures r.outcome.Pass? ==> r.steps == n
    decreases n
  {
    if n == 0 then Run(states, [], 0, Pass)
    else
      var s := StepFrom(turn, states, ids, 0, save);
      if s.outcome.Fail? then Run(s.states, s.frames, 0, s.outcome)
      else
        var rest := RunSteps(turn, s.states, ids, n - 1, save);
        Run(rest.states, s.frames + rest.frames, rest.steps + 1, rest.outcome)
  }

  /** Each of the first `n` sensors keeps its heading and stores its clamped distance. */
  lemma {:induction false} WrittenContents(env: Arena, position: Vec, sensors: seq<SensorState>, n: nat)
    requires n <= |sensors| && Measurable(env, position, sensors, n)
    ensures forall j :: 0 <= j < n ==>
              Written(env, position, sensors, n)[j]
              == sensors[j].(value := Clamp(env.distance(position, sensors[j].heading).value))
  {
    if n > 0 {
      assert Measurable(env, position, sensors, n - 1);
      WrittenContents(env, position, sensors, n - 1);
    }
  }

  /** The first vehicle from `i` on whose turn fails, or the vehicle count if none does. */
  function FirstFailure(turn: CarState -> CarStep, states: seq<CarState>, i: nat): (k: nat)
    requires i <= |states|
    ensures i <= k <= |states|
    decreases |states| - i
  {
    if i == |states| then i
    else if turn(states[i]).outcome.Fail? then i
    else FirstFailure(turn, states, i + 1)
  }

  /** The first failure depends only on the vehicles it looks at. */
  lemma {:induction false} FirstFailureOfSuffix(turn: CarState -> CarStep, a: seq<CarState>, b: seq<CarState>, i: nat)
    requires i <= |a| == |b| && a[i..] == b[i..]
    ensures FirstFailure(turn, a, i) == FirstFailure(turn, b, i)
    decreases |a| - i
  {
    if i < |a| {
      assert a[i] == a[i..][0] == b[i..][0] == b[i];
      assert a[i + 1..] == a[i..][1..];
      FirstFailureOfSuffix(turn, a, b, i + 1);
    }
  }

  /** The fleet once the vehicles from `i` up to `j` have taken their turns, each from its own state. */
  function Turned(turn: CarState -> CarStep, states: seq<CarState>, i: nat, j: nat): (r: seq<CarState>)
    ensures |r| == |states|
  {
    seq(|states|, x requires 0 <= x < |states| => if i <= x < j then turn(states[x]).state else states[x])
  }

  /** Turning vehicle `i` first and the rest after it is turning them all from `i`. */
  lemma TurnedAfterFirst(turn: CarState -> CarStep, states: seq<CarState>, i: nat, j: nat)
    requires i < |states| && i < j
    ensures Turned(turn, states[i := turn(states[i]).state], i + 1, j) == Turned(turn, states, i, j)
  {
    var next := states[i := turn(states[i]).state];
    forall x | 0 <= x < |states|
      ensures Turned(turn, next, i + 1, j)[x] == Turned(turn, states, i, j)[x]
    {
      if x != i {
        assert next[x] == states[x];
      }
    }
  }

  /**
   * A step in closed form, for a fleet of distinct cars: the vehicles from
   * `i` up to and including the first whose turn fails each take their turn
   * from their own state alone, the vehicles after it are not reached, and
   * the outcome is that vehicle's.
   */
  lemma {:induction false} StepFromClosedForm(turn: CarState -> CarStep, states: seq<CarState>, ids: seq<nat>,
                                              i: nat, save: bool)
    requires i <= |states| == |ids| && Distinct(ids)
    ensures var r := StepFrom(turn, states, ids, i, save);
            var k := FirstFailure(turn, states, i);
            && r.states == Turned(turn, states, i, if k < |states| then k + 1 else k)
            && r.outcome == (if k < |states| then turn(states[k]).outcome else Pass)
    decreases |states| - i
  {
    if i < |states| {
      var c := turn(states[i]);
      var next := states[i := c.state];
      UpdateDistinct(states, ids, i, c.state);
      if c.outcome.Fail? {
        assert next == Turned(turn, states, i, i + 1);
      } else {
        StepFromClosedForm(turn, next, ids, i + 1, save);
        assert next[i + 1..] == states[i + 1..];
        FirstFailureOfSuffix(turn, next, states, i + 1);
        var k := FirstFailure(turn, states, i);
        TurnedAfterFirst(turn, states, i, if k < |states| then k + 1 else k);
      }
    }
  }

  /**
   * When saving, a step over distinct cars takes one snapshot per vehicle it
   * reaches, of the fleet just before that vehicle moves; otherwise it takes
   * none.
   */
  lemma {:induction false} StepFromSnapshots(turn: CarState -> CarStep, states: seq<CarState>, ids: seq<nat>,
                                             i: nat, save: bool)
    requires i <= |states| == |ids| && Distinct(ids)
    ensures var r := StepFrom(turn, states, ids, i, save);
            var k := FirstFailure(turn, states, i);
            && (save ==> |r.frames| == (if k < |states| then k + 1 else k) - i
                         && forall m :: 0 <= m < |r.frames| ==> r.frames[m] == Turned(turn, states, i, i + m))
            && (!save ==> r.frames == [])
    decreases |states| - i
  {
    if i < |states| {
      var r := StepFrom(turn, states, ids, i, save);
      var c := turn(states[i]);
      var next := states[i := c.state];
      UpdateDistinct(states, ids, i, c.state);
      assert Turned(turn, states, i, i) == states;
      if c.outcome.Pass? {
        StepFromSnapshots(turn, next, ids, i + 1, save);
        assert next[i + 1..] == states[i + 1..];
        FirstFailureOfSuffix(turn, next, states, i + 1);
        if save {
          var rest := StepFrom(turn, next, ids, i + 1, save);
          assert r.frames == [states] + rest.frames;
          forall m | 0 < m < |r.frames|
            ensures r.frames[m] == Turned(turn, states, i, i + m)
          {
            assert r.frames[m] == rest.frames[m - 1];
            TurnedAfterFirst(turn, states, i, i + m);
          }
        }
      }
    }
  }

  /**
   * An operational car whose every sensor measures a distance writes them
   * all, clamped, and stays operational.
   */
  lemma OperationalSensing(env: Arena, s: CarState)
    requires Operational(s)
    requires forall j :: 0 <= j < |s.sensors| ==> env.distance(s.position, s.sensors[j].heading).Success?
    ensures var sensed := SenseFrom(env, s.position, s.sensors, 0);
            && !sensed.blind && Operational(s.(sensors := sensed.sensors))
            && forall j :: 0 <= j < |s.sensors| ==>
                 sensed.sensors[j].value == Clamp(env.distance(s.position, s.sensors[j].heading).value)
  {
    var n := |s.sensors|;
    assert Measurable(env, s.position, s.sensors, n);
    SenseIsFirstBlind(env, s.position, s.sensors);
    WrittenContents(env, s.position, s.sensors, n);
  }

  /**
   * In an arena where every sensor of an operational car measures a
   * distance from inside, the car fails its turn exactly when its move
   * leaves the arena, keeping the move; otherwise it passes, stays
   * operational and comes to rest where it moved, since the controller
   * commands the zero velocity.
   */
  lemma OperationalTurnIn(env: Arena, s: CarState, sqrt: real -> real)
    requires IsSqrt(sqrt) && Operational(s)
    requires env.inside(Moved(s).position) ==>
               forall j :: 0 <= j < |s.sensors| ==> env.distance(Moved(s).position, s.sensors[j].heading).Success?
    ensures var c := StepCar(Some(env), s, sqrt);
            && (c.outcome.Fail? <==> !env.inside(Moved(s).position))
            && (c.outcome.Fail? ==> c.outcome == Fail(Collision(Moved(s).position)) && c.state == Moved(s))
            && (c.outcome.Pass? ==> Operational(c.state) && c.state.velocity == Zero
                                    && c.state.position == Moved(s).position && c.state.heading == s.heading)
  {
    var moved := Moved(s);
    if env.inside(moved.position) {
      OperationalSensing(env, moved);
      var written := moved.(sensors := SenseFrom(env, moved.position, moved.sensors, 0).sensors);
      StoppingKeepsHeading(written, sqrt);
    }
  }

  /** The same in the box: from inside, an operational car's sensors always meet a wall. */
  lemma OperationalTurn(box: BoxEnvironment, s: CarState, sqrt: real -> real)
    requires IsSqrt(sqrt) && Operational(s)
    ensures var c := StepCar(Some(BoxArena(box, sqrt)), s, sqrt);
            && (c.outcome.Fail? <==> !box.Inside(Moved(s).position))
            && (c.outcome.Fail? ==> c.outcome == Fail(Collision(Moved(s).position)) && c.state == Moved(s))
            && (c.outcome.Pass? ==> Operational(c.state) && c.state.velocity == Zero
                                    && c.state.position == Moved(s).position && c.state.heading == s.heading)
  {
    var env := BoxArena(box, sqrt);
    var p := Moved(s).position;
    if box.Inside(p) {
      OperationalSensorsAim(s);
      forall j | 0 <= j < |s.sensors|
        ensures env.distance(p, s.sensors[j].heading).Success?
      {
        InsideHasBoundaryDistance(box, p, s.sensors[j].heading, sqrt);
      }
    }
    OperationalTurnIn(env, s, sqrt);
  }

  /**
   * A car that has been reset (as intended) cannot take a turn in a box:
   * it stays at the centre, but its sensors face (0, 0), so the first
   * measurement meets no wall.
   */
  lemma ResetCarIsBlind(box: BoxEnvironment, s: CarState, sqrt: real -> real)
    requires IsSqrt(sqrt) && 0.0 < box.wallLength && 0 < |s.sensors|
    ensures StepCar(Some(BoxArena(box, sqrt)), ResetState(s), sqrt) == CarStep(ResetState(s), Fail(SensorSeesNoWall))
  {
    var r := ResetState(s);
    assert Moved(r) == r;
    ZeroDirectionSeesNoWall(box, Zero, sqrt);
  }

  /**
   * Part way through a run: `done` steps have passed, producing `current`
   * and the snapshots `saved`; the `remaining` steps complete it with the
   * result `total`.
   */
  ghost predicate RunSoFar(turn: CarState -> CarStep, total: Run, current: seq<CarState>, ids: seq<nat>,
                           remaining: nat, save: bool, saved: seq<seq<CarState>>, done: nat)
    requires |current| == |ids|
  {
    var r := RunSteps(turn, current, ids, remaining, save);
    total.states == r.states && total.outcome == r.outcome
    && total.frames == saved + r.frames && total.steps == done + r.steps
  }

  /** Before any step, what remains is the whole run. */
  lemma RunSoFarStart(turn: CarState -> CarStep, states: seq<CarState>, ids: seq<nat>, n: nat, save: bool)
    requires |states| == |ids|
    ensures RunSoFar(turn, RunSteps(turn, states, ids, n, save), states, ids, n, save, [], 0)
  {
    assert [] + RunSteps(turn, states, ids, n, save).frames == RunSteps(turn, states, ids, n, save).frames;
  }

  /** A step `s` that passes leaves one step fewer to run. */
  lemma RunSoFarPass(turn: CarState -> CarStep, total: Run, current: seq<CarState>, ids: seq<nat>, remaining: nat,
                     save: bool, saved: seq<seq<CarState>>, done: nat, s: FleetStep)
    requires |current| == |ids| && 0 < remaining && RunSoFar(turn, total, current, ids, remaining, save, saved, done)
    requires s == StepFrom(turn, current, ids, 0, save) && s.outcome.Pass?
    ensures RunSoFar(turn, total, s.states, ids, remaining - 1, save, saved + s.frames, done + 1)
  {
    var rest := RunSteps(turn, s.states, ids, remaining - 1, save);
    assert saved + (s.frames + rest.frames) == (saved + s.frames) + rest.frames;
  }

  /** A step `s` that fails ends the run with its failure. */
  lemma RunSoFarFail(turn: CarState -> CarStep, total: Run, current: seq<CarState>, ids: seq<nat>, remaining: nat,
                     save: bool, saved: seq<seq<CarState>>, done: nat, s: FleetStep)
    requires |current| == |ids| && 0 < remaining && RunSoFar(turn, total, current, ids, remaining, save, saved, done)
    requires s == StepFrom(turn, current, ids, 0, save) && s.outcome.Fail?
    ensures total == Run(s.states, saved + s.frames, done, s.outcome)
  {
  }

  /** With no step left, the run is complete and passed. */
  lemma RunSoFarDone(turn: CarState -> CarStep, total: Run, current: seq<CarState>, ids: seq<nat>, save: bool,
                     saved: seq<seq<CarState>>, done: nat)
    requires |current| == |ids| && RunSoFar(turn, total, current, ids, 0, save, saved, done)
    ensures total == Run(current, saved, done, Pass)
  {
    assert saved + [] == saved;
  }

  /** Sequence concatenation regroups; kept apart so the step proof stays small. */
  lemma Associative<T>(a: seq<T>, b: seq<T>, c: seq<T>)
    ensures (a + b) + c == a + (b + c)
  {
  }

  /**
   * A list naming one car twice moves it twice in a step: the second
   * entry's turn starts where the first one left the car, and both entries
   * show the result.
   */
  lemma SameCarTurnsTwice(turn: CarState -> CarStep, s: CarState, save: bool)
    requires turn(s).outcome.Pass?
    ensures var t := turn(turn(s).state);
            var r := StepFrom(turn, [s, s], [0, 0], 0, save);
            r.states == [t.state, t.state] && r.outcome == t.outcome
  {
    var once := turn(s).state;
    assert Update([s, s], [0, 0], 0, once) == [once, once];
    var t := turn(once);
    var twice := Update([once, once], [0, 0], 1, t.state);
    assert twice == [t.state, t.state];
    assert StepFrom(turn, twice, [0, 0], 2, save).states == twice;
    assert StepFrom(turn, [s, s], [0, 0], 0, save).states == StepFrom(turn, [once, once], [0, 0], 1, save).states;
  }

  /**
   * Without an environment, a step stops at the first vehicle, after its
   * snapshot and its move; a simulator without vehicles steps regardless.
   */
  lemma StepWithoutEnvironment(states: seq<CarState>, ids: seq<nat>, save: bool, sqrt: real -> real)
    requires IsSqrt(sqrt) && |states| == |ids|
    ensures var r := StepFrom(TurnIn(None, sqrt), states, ids, 0, save);
            if states == [] then r == FleetStep([], [], Pass)
            else r == FleetStep(Update(states, ids, 0, Moved(states[0])), if save then [states] else [],
                                Fail(NoEnvironment))
  {
  }

  /**
   * Each vehicle is well formed, and vehicles that are different objects
   * share no sensor or controller; a list may name one vehicle more than
   * once.
   */
  ghost predicate Fleet(vehicles: seq<SimpleCar>)
  {
    (forall i :: 0 <= i < |vehicles| ==> vehicles[i].Valid())
    && (forall i, j :: 0 <= i < |vehicles| && 0 <= j < |vehicles| && vehicles[i] != vehicles[j] ==>
          vehicles[i].Repr !! vehicles[j].Repr)
  }

  /** Entries `j` and `k` carry the same label exactly when they name the same vehicle. */
  predicate NamesCars(vehicles: seq<SimpleCar>, ids: seq<nat>)
    requires |ids| == |vehicles|
  {
    forall j, k :: 0 <= j < |vehicles| && 0 <= k < |vehicles| ==> (ids[j] == ids[k] <==> vehicles[j] == vehicles[k])
  }

  /** The first entry from `k` on that names the vehicle at entry `j`. */
  function FirstEntry(vehicles: seq<SimpleCar>, j: nat, k: nat): (r: nat)
    requires k <= j < |vehicles|
    ensures k <= r <= j && vehicles[r] == vehicles[j]
    ensures forall m :: k <= m < r ==> vehicles[m] != vehicles[j]
    decreases j - k
  {
    if vehicles[k] == vehicles[j] then k else FirstEntry(vehicles, j, k + 1)
  }

  /** Each entry labelled by the first entry naming the same vehicle. */
  function Labels(vehicles: seq<SimpleCar>): (ids: seq<nat>)
    ensures |ids| == |vehicles| && NamesCars(vehicles, ids)
  {
    var ids := seq(|vehicles|, j requires 0 <= j < |vehicles| => FirstEntry(vehicles, j, 0));
    assert forall j :: 0 <= j < |vehicles| ==> vehicles[ids[j]] == vehicles[j];
    ids
  }

  /** The vehicles and every object their states read. */
  ghost function Footprint(vehicles: seq<SimpleCar>): set<object>
  {
    (set i | 0 <= i < |vehicles| :: vehicles[i] as object)
    + (set i, o | 0 <= i < |vehicles| && o in vehicles[i].Repr :: o)
  }

  lemma InFootprint(vehicles: seq<SimpleCar>, i: nat)
    requires Fleet(vehicles) && i < |vehicles|
    ensures vehicles[i] in Footprint(vehicles) && vehicles[i].Repr <= Footprint(vehicles)
    ensures vehicles[i].controller in Footprint(vehicles)
    ensures forall k :: 0 <= k < |vehicles[i].sensors| ==> vehicles[i].sensors[k] in Footprint(vehicles)
  {
    var car := vehicles[i];
    assert car.Valid();
    forall k | 0 <= k < |car.sensors|
      ensures car.sensors[k] in Footprint(vehicles)
    {
      assert car.sensors[k] in car.sensors;
      assert car.sensors[k] in car.Repr;
    }
  }

  class Simulator {
    var currentStep: nat
    /** The arena, or `None` when none was given. */
    const environment: Option<Arena>
    const vehicles: seq<SimpleCar>
    var renderArtifacts: seq<seq<CarState>>
    /** Which vehicle each entry names: equal labels for the same object. */
    ghost const ids: seq<nat>
    ghost const Repr: set<object>

    ghost predicate Valid()
    {
      Fleet(vehicles) && |ids| == |vehicles| && NamesCars(vehicles, ids)
      && Repr == Footprint(vehicles) && this !in Repr
    }

    /** The states of the vehicles, in order. */
    function States(): (r: seq<CarState>)
      requires Valid()
      reads Repr
      ensures |r| == |vehicles|
    {
      seq(|vehicles|, i requires 0 <= i < |vehicles| reads Repr =>
        InFootprint(vehicles, i); vehicles[i].State())
    }

    constructor (environment: Option<Arena>, vehicles: seq<SimpleCar>)
      requires Fleet(vehicles)
      ensures Valid() && this.environment == environment && this.vehicles == vehicles
      ensures currentStep == 0 && renderArtifacts == []
    {
      this.environment := environment;
      this.vehicles := vehicles;
      currentStep := 0;
      renderArtifacts := [];
      ids := Labels(vehicles);
      Repr := Footprint(vehicles);
    }

    /** A single vehicle given on its own is wrapped in a list. */
    constructor Single(environment: Option<Arena>, vehicle: SimpleCar)
      requires vehicle.Valid()
      ensures Valid() && this.environment == environment && vehicles == [vehicle]
      ensures currentStep == 0 && renderArtifacts == []
    {
      this.environment := environment;
      vehicles := [vehicle];
      currentStep := 0;
      renderArtifacts := [];
      ids := [0];
      Repr := Footprint([vehicle]);
    }

    /** `current_time`: the elapsed simulated time. */
    function CurrentTime(): real
      reads this
    {
      StepDuration * currentStep as real
    }

    /** Appends a snapshot of every vehicle. */
    method SaveRenderArtifacts()
      requires Valid()
      modifies this`renderArtifacts
      ensures renderArtifacts == old(renderArtifacts) + [States()]
    {
      renderArtifacts := renderArtifacts + [States()];
    }

    /**
     * `reset` as intended: the step count and snapshots are cleared and
     * every vehicle is reset; a vehicle named twice is reset twice, which
     * leaves it as resetting it once does.
     */
    method Reset()
      requires Valid()
      modifies this, Repr
      ensures Valid() && currentStep == 0 && renderArtifacts == []
      ensures States() == ResetAll(old(States()))
    {
      currentStep := 0;
      renderArtifacts := [];
      ghost var start := States();
      forall j, k | 0 <= j < |vehicles| && 0 <= k < |vehicles| && ids[j] == ids[k]
        ensures start[j] == start[k]
      {
        assert vehicles[j] == vehicles[k];
      }
      for i := 0 to |vehicles|
        invariant Valid() && currentStep == 0 && renderArtifacts == []
        invariant ResetUpTo(start, States(), i)
      {
        ResetNext(start, States(), ids, i);
        ResetVehicle(i);
      }
      assert States() == ResetAll(start);
    }

    /** Vehicle `i` is reset as intended, under every entry that names it; no other vehicle changes. */
    method ResetVehicle(i: nat)
      requires Valid() && i < |vehicles|
      modifies Repr
      ensures Valid() && States() == Update(old(States()), ids, i, ResetState(old(States())[i]))
    {
      ghost var before := States();
      InFootprint(vehicles, i);
      var car := vehicles[i];
      car.Reset();
      forall j | 0 <= j < |vehicles| && ids[j] != ids[i]
        ensures vehicles[j].State() == before[j]
      {
        var other := vehicles[j];
        assert other.Valid() && other.Repr !! car.Repr && other != car;
      }
    }

    /**
     * `reset` as written: the step count and snapshots are cleared, then the
     * first vehicle's `reset` raises once it has zeroed its motion, so no
     * other vehicle is reached; with no vehicles nothing raises.
     */
    method ResetAsWritten() returns (outcome: Outcome<VehicleError>)
      requires Valid()
      modifies this, Repr
      ensures Valid() && currentStep == 0 && renderArtifacts == []
      ensures |vehicles| == 0 ==> outcome == Pass && States() == old(States())
      ensures |vehicles| > 0 ==> outcome == Fail(ListHasNoReset)
                                 && States() == Update(old(States()), ids, 0, ResetAsWrittenState(old(States())[0]))
    {
      currentStep := 0;
      renderArtifacts := [];
      if |vehicles| == 0 {
        return Pass;
      }
      outcome := ResetFirstAsWritten();
    }

    /** The first vehicle's `reset` as written, under every entry that names it; no other vehicle changes. */
    method ResetFirstAsWritten() returns (outcome: Outcome<VehicleError>)
      requires Valid() && |vehicles| > 0
      modifies Repr
      ensures Valid() && outcome == Fail(ListHasNoReset)
      ensures States() == Update(old(States()), ids, 0, ResetAsWrittenState(old(States())[0]))
    {
      ghost var before := States();
      InFootprint(vehicles, 0);
      var car := vehicles[0];
      outcome := car.ResetAsWritten();
      forall j | 0 <= j < |vehicles| && ids[j] != ids[0]
        ensures vehicles[j].State() == before[j]
      {
        var other := vehicles[j];
        assert other.Valid() && other.Repr !! car.Repr && other != car;
      }
    }

    /**
     * `simulate`: `step` is taken `numSteps` times (none when negative),
     * stopping at the first step that raises.
     */
    method Simulate(numSteps: int, save: bool, sqrt: real -> real, noise: (nat, nat, nat) -> real)
      returns (outcome: Outcome<StepError>)
      requires Valid() && IsSqrt(sqrt)
      modifies this, Repr
      ensures Valid()
      ensures var r := RunSteps(TurnIn(environment, sqrt), old(States()), ids, if numSteps < 0 then 0 else numSteps, save);
              && States() == r.states
              && renderArtifacts == old(renderArtifacts) + r.frames
              && outcome == r.outcome
              && currentStep == old(currentStep) + r.steps
    {
      var n: nat := if numSteps < 0 then 0 else numSteps;
      ghost var turn := TurnIn(environment, sqrt);
      ghost var current := States();
      ghost var total := RunSteps(turn, current, ids, n, save);
      ghost var saved := [];
      RunSoFarStart(turn, current, ids, n, save);
      outcome := Pass;
      for k := 0 to n
        invariant Valid() && current == States()
        invariant RunSoFar(turn, total, current, ids, n - k, save, saved, k)
        invariant renderArtifacts == old(renderArtifacts) + saved && currentStep == old(currentStep) + k
        invariant outcome == Pass
      {
        outcome, current, saved := StepWithin(n - k, save, sqrt, noise, total, current, old(renderArtifacts), saved, k);
        if outcome.Fail? {
          assert States() == total.states && renderArtifacts == old(renderArtifacts) + total.frames;
          assert outcome == total.outcome && currentStep == old(currentStep) + total.steps;
          return;
        }
      }
      RunSoFarDone(turn, total, current, ids, save, saved, n);
    }

    /** One step of `simulate`, tracked against the whole run's result `total`. */
    method StepWithin(remaining: nat, save: bool, sqrt: real -> real, noise: (nat, nat, nat) -> real,
                      ghost total: Run, ghost current: seq<CarState>, ghost start: seq<seq<CarState>>,
                      ghost saved: seq<seq<CarState>>, ghost done: nat)
      returns (outcome: Outcome<StepError>, ghost next: seq<CarState>, ghost savedNext: seq<seq<CarState>>)
      requires Valid() && IsSqrt(sqrt) && 0 < remaining && current == States()
      requires RunSoFar(TurnIn(environment, sqrt), total, current, ids, remaining, save, saved, done)
      requires renderArtifacts == start + saved
      modifies this, Repr
      ensures Valid() && next == States() && renderArtifacts == start + savedNext
      ensures outcome.Fail? ==> total == Run(next, savedNext, done, outcome) && currentStep == old(currentStep)
      ensures outcome.Pass? ==> RunSoFar(TurnIn(environment, sqrt), total, next, ids, remaining - 1, save, savedNext, done + 1)
                                && currentStep == old(currentStep) + 1
    {
      ghost var s := StepFrom(TurnIn(environment, sqrt), current, ids, 0, save);
      outcome := Step(save, sqrt, noise);
      next := States();
      savedNext := saved + s.frames;
      Associative(start, saved, s.frames);
      if outcome.Fail? {
        RunSoFarFail(TurnIn(environment, sqrt), total, current, ids, remaining, save, saved, done, s);
      } else {
        RunSoFarPass(TurnIn(environment, sqrt), total, current, ids, remaining, save, saved, done, s);
      }
    }

    /**
     * `step`: every vehicle in turn takes its snapshot (when `save`), moves,
     * measures and steers; the step count advances only when all of them
     * finish. The first failure ends the step, leaving the later vehicles as
     * they were.
     */
    method Step(save: bool, sqrt: real -> real, noise: (nat, nat, nat) -> real) returns (outcome: Outcome<StepError>)
      requires Valid() && IsSqrt(sqrt)
      modifies this, Repr
      ensures Valid()
      ensures var r := StepFrom(TurnIn(environment, sqrt), old(States()), ids, 0, save);
              && States() == r.states
              && renderArtifacts == old(renderArtifacts) + r.frames
              && outcome == r.outcome
              && currentStep == if r.outcome.Pass? then old(currentStep) + 1 else old(currentStep)
      ensures outcome.Pass? ==> CurrentTime() == old(CurrentTime()) + StepDuration
    {
      ghost var total;
      outcome, total := TakeTurns(save, sqrt, noise);
      if outcome.Pass? {
        currentStep := currentStep + 1;
      }
    }

    /** The vehicles' turns within `step`, in order, up to the first failure. */
    method TakeTurns(save: bool, sqrt: real -> real, noise: (nat, nat, nat) -> real)
      returns (outcome: Outcome<StepError>, ghost total: FleetStep)
      requires Valid() && IsSqrt(sqrt)
      modifies this`renderArtifacts, Repr
      ensures Valid() && total == StepFrom(TurnIn(environment, sqrt), old(States()), ids, 0, save)
      ensures States() == total.states && renderArtifacts == old(renderArtifacts) + total.frames
      ensures outcome == total.outcome
    {
      ghost var current := States();
      total := StepFrom(TurnIn(environment, sqrt), current, ids, 0, save);
      ghost var saved := [];
      StepSoFarStart(TurnIn(environment, sqrt), current, ids, save);
      var i := 0;
      while i < |vehicles|
        invariant i <= |vehicles| == |current|
        invariant Valid() && current == States() && renderArtifacts == old(renderArtifacts) + saved
        invariant StepSoFar(TurnIn(environment, sqrt), total, current, ids, i, save, saved)
      {
        outcome, current, saved := Advance(i, save, sqrt, noise, total, current, old(renderArtifacts), saved);
        if outcome.Fail? {
          return;
        }
        i := i + 1;
      }
      StepSoFarDone(TurnIn(environment, sqrt), total, current, ids, save, saved);
      outcome := Pass;
    }

    /**
     * Vehicle `i`'s turn, tracked against the whole step's result `total`:
     * a failure completes the step, a pass leaves the rest of it to do.
     */
    method Advance(i: nat, save: bool, sqrt: real -> real, noise: (nat, nat, nat) -> real,
                   ghost total: FleetStep, ghost current: seq<CarState>,
                   ghost start: seq<seq<CarState>>, ghost saved: seq<seq<CarState>>)
      returns (outcome: Outcome<StepError>, ghost next: seq<CarState>, ghost savedNext: seq<seq<CarState>>)
      requires Valid() && IsSqrt(sqrt) && i < |vehicles| && current == States()
      requires StepSoFar(TurnIn(environment, sqrt), total, current, ids, i, save, saved) && renderArtifacts == start + saved
      modifies this`renderArtifacts, Repr
      ensures Valid() && next == States() && renderArtifacts == start + savedNext
      ensures outcome.Fail? ==> total == FleetStep(next, savedNext, outcome)
      ensures outcome.Pass? ==> StepSoFar(TurnIn(environment, sqrt), total, next, ids, i + 1, save, savedNext)
    {
      ghost var c;
      outcome, c := Turn(i, save, sqrt, noise);
      next := States();
      savedNext := saved + if save then [current] else [];
      assert renderArtifacts == start + savedNext;
      if outcome.Fail? {
        StepSoFarFail(TurnIn(environment, sqrt), total, current, ids, i, save, saved, c);
      } else {
        StepSoFarPass(TurnIn(environment, sqrt), total, current, ids, i, save, saved, c);
      }
    }

    /**
     * Vehicle `i`'s turn within `step`, after the snapshot when `save`: only
     * vehicle `i` changes, under every entry that names it.
     */
    method Turn(i: nat, save: bool, sqrt: real -> real, noise: (nat, nat, nat) -> real)
      returns (outcome: Outcome<StepError>, ghost c: CarStep)
      requires Valid() && IsSqrt(sqrt) && i < |vehicles|
      modifies this`renderArtifacts, Repr
      ensures Valid()
      ensures c == StepCar(environment, old(States())[i], sqrt)
      ensures States() == Update(old(States()), ids, i, c.state)
              && outcome == c.outcome
              && renderArtifacts == old(renderArtifacts) + (if save then [old(States())] else [])
    {
      if save {
        SaveRenderArtifacts();
      }
      outcome, c := Drive(i, sqrt, noise);
    }

    /** Vehicle `i` moves, measures and steers, under every entry that names it; no other vehicle changes. */
    method Drive(i: nat, sqrt: real -> real, noise: (nat, nat, nat) -> real)
      returns (outcome: Outcome<StepError>, ghost c: CarStep)
      requires Valid() && IsSqrt(sqrt) && i < |vehicles|
      modifies Repr
      ensures Valid()
      ensures c == StepCar(environment, old(States())[i], sqrt)
      ensures States() == Update(old(States()), ids, i, c.state) && outcome == c.outcome
    {
      ghost var before := States();
      c := StepCar(environment, before[i], sqrt);
      InFootprint(vehicles, i);
      var car := vehicles[i];
      assert car.Valid();
      outcome := StepVehicle(i, sqrt, noise);
      forall j | 0 <= j < |vehicles| && ids[j] != ids[i]
        ensures vehicles[j].State() == before[j]
      {
        var other := vehicles[j];
        assert other.Valid() && other.Repr !! car.Repr && other != car;
      }
    }

    /** Vehicle `i`'s turn within `step`. */
    method StepVehicle(i: nat, sqrt: real -> real, noise: (nat, nat, nat) -> real) returns (outcome: Outcome<StepError>)
      requires Valid() && IsSqrt(sqrt) && i < |vehicles|
      modifies vehicles[i], vehicles[i].sensors
      ensures var c := StepCar(environment, old(vehicles[i].State()), sqrt);
              vehicles[i].State() == c.state && outcome == c.outcome
    {
      var car := vehicles[i];
      assert forall k :: 0 <= k < |car.sensors| ==> allocated(car.sensors[k]);
      ghost var moved := Moved(car.State());
      car.SetPosition(Add(car.position, Scale(StepDuration, car.velocity)));
      assert car.State() == moved;
      if environment.None? {
        return Fail(NoEnvironment);
      }
      if !environment.value.inside(car.position) {
        return Fail(Collision(car.position));
      }
      var step := currentStep;
      var measurements, blind := Measure(car, (j: nat) => noise(step, i, j));
      if blind {
        return Fail(SensorSeesNoWall);
      }
      outcome := Steer(car, measurements, sqrt);
    }

    /**
     * Each sensor in turn measures the distance to the boundary along its
     * heading and stores it; the readings are collected. Stops at the first
     * sensor whose ray meets no wall.
     */
    method Measure(car: SimpleCar, noise: nat -> real) returns (measurements: seq<real>, blind: bool)
      requires car.Valid() && environment.Some?
      modifies car.sensors
      ensures var s := old(car.State());
              var sensed := SenseFrom(environment.value, s.position, s.sensors, 0);
              && car.State() == s.(sensors := sensed.sensors)
              && blind == sensed.blind
              && (!blind ==> measurements == Values(car.SensorStates()))
    {
      assert forall k :: 0 <= k < |car.sensors| ==> allocated(car.sensors[k]);
      ghost var s := car.State();
      ghost var sensed := SenseFrom(environment.value, s.position, s.sensors, 0);
      measurements := [];
      for j := 0 to |car.sensors|
        invariant SenseFrom(environment.value, s.position, car.SensorStates(), j) == sensed
        invariant |measurements| == j
        invariant forall k :: 0 <= k < j ==> measurements[k] == car.SensorStates()[k].value
      {
        var reading := MeasureSensor(car, j, noise(j));
        if reading.None? {
          assert car.State() == s.(sensors := car.SensorStates());
          return measurements, true;
        }
        measurements := measurements + [reading.value];
      }
      assert car.State() == s.(sensors := car.SensorStates());
      assert measurements == Values(car.SensorStates());
      blind := false;
    }

    /**
     * Sensor `j` measures the distance to the boundary along its heading,
     * stores it and is read back; `None` when its ray meets no wall.
     */
    method MeasureSensor(car: SimpleCar, j: nat, noise: real) returns (reading: Option<real>)
      requires car.Valid() && j < |car.sensors| && environment.Some?
      modifies car.sensors[j]
      ensures var before := old(car.SensorStates());
              var d := environment.value.distance(car.position, before[j].heading);
              && (reading.None? <==> d.Failure?)
              && (d.Failure? ==> car.SensorStates() == before)
              && (d.Success? ==> car.SensorStates() == before[j := before[j].(value := Clamp(d.value))]
                                 && reading == Some(Clamp(d.value)))
    {
      var d := environment.value.distance(car.position, car.sensors[j].heading);
      if d.Failure? {
        return None;
      }
      car.sensors[j].Write(d.value);
      return Some(car.sensors[j].Read(noise));
    }

    /** The controller's command for the measurements becomes the vehicle's velocity. */
    method Steer(car: SimpleCar, measurements: seq<real>, sqrt: real -> real) returns (outcome: Outcome<StepError>)
      requires car.Valid() && IsSqrt(sqrt)
      modifies car`velocity, car`heading, car.sensors
      ensures match Command(old(car.State()).registered, measurements)
              case Failure(_) => car.State() == old(car.State()) && outcome == Fail(ControllerMisuse)
              case Success(v) => car.State() == WithVelocity(old(car.State()), v, sqrt) && outcome == Pass
    {
      assert forall k :: 0 <= k < |car.sensors| ==> allocated(car.sensors[k]);
      var command := car.controller.Call(measurements);
      if command.Failure? {
        return Fail(ControllerMisuse);
      }
      car.SetVelocity(command.value, sqrt);
      return Pass;
    }
  }
}
