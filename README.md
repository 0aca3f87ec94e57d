# creatures — a verified model of the vehicle simulator and its steering controllers

The creatures repository simulates a point vehicle in a square arena. The
vehicle carries four HC-SR04 style range sensors arranged at quarter turns.
A reactive controller turns the sensor readings into a new velocity. This
project models, in Dafny:

- the Python simulator (`src/`):
  - the box environment: walls, ray/wall intersection, strict containment,
    and the nearest wall along a ray;
  - the clamping range sensor;
  - the car: its velocity setter, which renormalises the heading and turns
    the sensor ring with the integer matrix `[[0, 1], [-1, 0]]`;
  - the registration-checking `AvoidingController`;
  - the simulator's `reset`, `simulate` and `step`.
- the two snapshots of the C steering controller:
  - `c_implementation/controller.c`, the newer one;
  - `c_implementation/src/controller.c`, the older one;
  - their helpers `norm` and `initialize_to_zeros`.

Each source file keeps its own form. Objects whose fields the source
overwrites are Dafny classes:

- `Sensor.HCS04`, `Vehicle.SimpleCar`, `Control.AvoidingController`,
  `Simulation.Simulator`;
- the C `Controller` structs, one per snapshot.

Their methods are proved against specification functions of the state they
change. Examples:

- `Simulator.Step` against `StepFrom`;
- `Simulator.Simulate` against `RunSteps`;
- `SimpleCar.SetVelocity` against `WithVelocity`;
- the C `call` against `Avoid`, `FeltForce` and `WanderDue`.

Loops in the source stay loops: `configure_sensors`, the per-sensor
measurement, `distance_to_boundary`'s walk over the walls, the C `norm`,
`initialize_to_zeros` and `feel_force`. Pure computations are functions
with lemmas beside them.

Modules:

- `Wrappers`: `Option`, `Result`, `Outcome`.
- `Vectors`: 2-vectors over `real`, the quarter-turn rotation, norms and
  normalisation. The square root is a parameter `sqrt` satisfying `IsSqrt`.
- `Environment`: walls, `BoxEnvironment`, and `Arena`. `Arena` is the
  interface the simulator uses: the two operations of the abstract
  `Environment` class.
- `Sensor`, `Control`, `Vehicle`, `Simulation`: the Python classes.
- `LinearAlgebra`, `Utils`: the C helpers.
- `SteeringController`, `LegacySteeringController`: the two C controllers.
  `collide`, `runaway`, the sensor basis, the wander draw and the
  wander-timer rule are the same in both snapshots. They are defined once,
  in `SteeringController`.

The repository's design description differs from the code in four places.
The model follows the code in each:

- It says a ray that meets no wall gives an infinite distance. The code
  takes `min` of an empty list, which raises. That is `Failure(NoWallAhead)`
  here, and it stops the step with `SensorSeesNoWall`.
- It says the simulator rotates the controller's output from the body frame
  to the world frame and rescales it to a fixed speed. `step` assigns the
  output directly as the new velocity (src/simulation.py:109-110).
- It says the wander force defaults to "straight ahead" between draws. Both
  C files use (0, 0).
- It describes controller histories that no core file keeps.

## Model

| member | source | states |
|---|---|---|
| Vectors.RotatePeriodic | src/vehicle.py:45 | four applications of the per-sensor rotation give back the original vector, and every application keeps the squared length |
| Vectors.RotateIsQuarterTurn | src/vehicle.py:45 | the rotation keeps squared length and maps a vector to one perpendicular to it |
| Vectors.NormalizeFacts | src/environment.py:12 | `x / norm(x)` has unit length and points the same way as `x` (zero cross product, positive dot product) |
| Vectors.NormalizeScaleInvariant | src/environment.py:12 | normalising any positive multiple of a vector gives the same direction |
| Vectors.SqrtOfSquare | c_implementation/linear_algebra.h:6-10 | the square root is unique: a non-negative `r` with `r * r == x` is `sqrt(x)` |
| Environment.RayIntersection | src/environment.py:19-39 | at most one hit point; none when the ray is parallel to the wall (zero denominator) |
| Environment.ParametersMeet | src/environment.py:22-29 | for a non-parallel ray, `origin + t1 d` equals `endpoint0 + t2 (endpoint1 - endpoint0)` with the computed `t1`, `t2` |
| Environment.MeetingGivesParameters | src/environment.py:27-29 | conversely, any meeting point of ray and wall line has exactly the computed parameters |
| Environment.HitLiesOnWall | src/environment.py:20-37 | a reported hit means a nonzero direction, `t1 >= 0` and `0 <= t2 <= 1`, and the hit is `origin + t1 d`, which lies on the segment |
| Environment.CrossingIsReported | src/environment.py:36-37 | every crossing ahead of the origin within the segment is reported, as that exact point |
| Environment.RayIntersectionScaleInvariant | src/environment.py:12-20 | any positive multiple of the direction gives the same result |
| Environment.HitDistanceIsRayParameter | src/environment.py:87-95 | the distance to a reported hit is the ray parameter `t1` along the normalised direction, never negative |
| Environment.BoxEnvironment.Walls | src/environment.py:58-76 | the box has four walls |
| Environment.WallLayout | src/environment.py:61-76 | the walls form a closed loop, each inside normal has unit length, is perpendicular to its wall and points towards the centre |
| Environment.WallPointsNotInside | src/environment.py:81-85 | every point of a wall is outside: containment is strict |
| Environment.BoxEnvironment.DistanceToBoundary | src/environment.py:87-95 | the loop over the walls computes `BoundaryDistance`: the minimum over the hit distances, or `Failure(NoWallAhead)` when no wall reports a hit |
| Environment.Minimum | src/environment.py:95 | `min` of a non-empty list is an element of it and no greater than any element |
| Environment.HitDistancesMembers | src/environment.py:88-93 | the collected distances are exactly those of the walls that report a hit; the list is empty exactly when no wall does |
| Environment.HitDistancesComplete | src/environment.py:88-93 | every reporting wall's distance is collected |
| Environment.HitDistancesSound | src/environment.py:88-93 | every collected distance comes from a reporting wall |
| Environment.HitDistancesOfOneHit | src/environment.py:88-93 | when exactly one wall reports a hit, the list is that one distance |
| Environment.BoundaryDistanceIsNearestHit | src/environment.py:87-95 | `distance_to_boundary` fails exactly when no wall reports a hit; otherwise it is the distance of some reporting wall and no greater than any reporting wall's |
| Environment.ZeroDirectionSeesNoWall | src/environment.py:12-20 | along the zero direction, for which the normalisation is undefined, no wall reports a hit and the distance fails |
| Environment.HitsFromInsideAreAhead | src/environment.py:81-95 | from a point inside, every hit is at a strictly positive distance |
| Environment.WallAhead | src/environment.py:81-95 | from a point inside, along a nonzero direction, some wall reports a hit |
| Environment.InsideHasBoundaryDistance | src/environment.py:81-95 | from a point inside, along a nonzero direction, `distance_to_boundary` does not raise and returns a positive distance |
| Environment.SidewaysExit | src/environment.py:81-85 | a ray from inside the open square with a nonzero horizontal component leaves it through some wall, at a parameter within that wall |
| Environment.VerticalExit | src/environment.py:81-85 | a vertical ray leaving the open square crosses the top or bottom wall |
| Environment.ExitCrosses | src/environment.py:61-76 | the exit found from the square's geometry is a crossing of the corresponding wall of the layout |
| Environment.ExitIsReported | src/environment.py:19-39 | that crossing is reported by `ray_intersection` |
| Environment.CentreAxisOnlyFacing | src/environment.py:61-76 | from the centre along an axis direction, only the facing wall can report a hit, at distance L/2 |
| Environment.CentreAxisDistance | src/environment.py:87-95 | from the centre along an axis direction exactly one wall reports a hit, and the distance is L/2 |
| Sensor.Clamp | src/sensor.py:60-66 | every written value is storable: 0, within [0.02, 4], or the sentinel 100 |
| Sensor.ClampBranches | src/sensor.py:34-35 | below 0.02 stores 0; above 4 stores 100, not the maximum range 4; in between stores the value unchanged |
| Sensor.ClampFixedPoints | src/sensor.py:60-66 | a value is stored unchanged exactly when it is storable, so writing the stored value again changes nothing |
| Sensor.HCS04.constructor | src/sensor.py:38-39 | a fresh sensor is in the reset state: value 0, heading (0, 0) |
| Sensor.HCS04.Reset | src/sensor.py:44-46 | value 0 and heading (0, 0) |
| Sensor.HCS04.SetHeading | src/sensor.py:52-54 | stores exactly the given heading and changes nothing else |
| Sensor.HCS04.Read | src/sensor.py:56-58 | with noise scale 0 the reading is exactly the stored value; it changes no state |
| Sensor.HCS04.Write | src/sensor.py:60-66 | the value becomes `Clamp(v)`, the heading is kept |
| Control.Command | src/control.py:45-51 | fails exactly when no headings are registered or their count differs from the number of distances; otherwise returns (0, 0) |
| Control.AvoidingController.constructor | src/control.py:38-39 | stores the given headings, by default none |
| Control.AvoidingController.RegisterHeadings | src/control.py:9-10 | stores exactly the given headings |
| Control.AvoidingController.Reset | src/control.py:41-43 | changes nothing |
| Control.AvoidingController.Call | src/control.py:45-51 | returns `Command` of the registered headings and the distances |
| Vehicle.Ring | src/vehicle.py:84-89 | one heading per sensor |
| Vehicle.RingClosure | src/vehicle.py:84-89 | each heading is the previous one rotated; all have the length of the first; the rotation closes after four sensors |
| Vehicle.UpRing | src/vehicle.py:84-89 | starting from (0, 1) the four headings are (0, 1), (1, 0), (0, -1), (-1, 0) |
| Vehicle.InitialLayout | src/vehicle.py:37-53 | a new car's four sensors hold 0 with headings (0, 1), (1, 0), (0, -1), (-1, 0); those headings are registered; the car is operational |
| Vehicle.SimpleCar.constructor | src/vehicle.py:37-53 | position (0, 0), velocity (0, 0), heading (0, 1), four fresh sensors aimed by `configure_sensors`, their headings registered with the controller |
| Vehicle.SimpleCar.SetPosition | src/vehicle.py:70-72 | only the position changes |
| Vehicle.SimpleCar.SetVelocity | src/vehicle.py:74-82 | the new state is `WithVelocity`: velocity stored; for a nonzero velocity, the heading is renormalised and the sensors re-aimed |
| Vehicle.VelocitySetter | src/vehicle.py:74-82 | the velocity is stored; position, registration and sensor values are kept |
| Vehicle.StoppingKeepsHeading | src/vehicle.py:76-78 | setting the zero velocity changes the velocity and nothing else |
| Vehicle.MovingTurnsCar | src/vehicle.py:78-82 | a nonzero velocity makes the heading the unit vector along it and aims sensor i at the heading rotated i times |
| Vehicle.VelocityKeepsOperational | src/vehicle.py:74-82 | setting any velocity keeps a car operational: unit heading, four sensors aimed in a ring |
| Vehicle.OperationalSensorsAim | src/vehicle.py:84-89 | in an operational car every sensor heading has unit length, so no sensor looks along the zero vector |
| Vehicle.SimpleCar.ConfigureSensors | src/vehicle.py:84-89 | the loop aims sensor i at the heading rotated i times and keeps the sensor values |
| Vehicle.SimpleCar.ConfigureController | src/vehicle.py:92-93 | registers the current sensor headings; later velocity changes do not re-register them |
| Vehicle.SimpleCar.Reset | src/vehicle.py:55-60 | corrected reset: position, velocity and heading become (0, 0), and every sensor is reset |
| Vehicle.SimpleCar.ResetAsWritten | src/vehicle.py:55-60 | reset as written: position, velocity and heading are zeroed, then the call on the sensor list fails, leaving the sensors as they were |
| Vehicle.ResetIdempotent | src/vehicle.py:55-58 | resetting a car twice leaves it as resetting it once |
| Vehicle.ResetHeadingIsZero | src/vehicle.py:55-58 | after reset the heading is (0, 0), not (0, 1), so the car is no longer operational; for an operational car the as-written reset differs from the corrected one |
| Simulation.SenseIsFirstBlind | src/simulation.py:100-107 | the sensors measure in order; those before the first sensor whose ray meets no wall store their clamped distances, and that sensor stops the round |
| Simulation.WrittenContents | src/simulation.py:102-105 | measured sensor j stores `Clamp(distance_to_boundary(position, heading j))` |
| Simulation.OperationalSensing | src/simulation.py:100-107 | when every ray meets a wall, each sensor stores its clamped distance and the car stays operational |
| Simulation.OperationalTurnIn | src/simulation.py:91-110 | for an operational car whose rays meet walls: the turn fails exactly when the moved position is outside; on failure it reports a collision at the new position and keeps the move; on success the car is moved to `position + velocity * 1.0` with its heading, and its velocity becomes the controller's (0, 0) |
| Simulation.OperationalTurn | src/simulation.py:91-110 | the same for the box environment, where every ray from inside meets a wall |
| Simulation.ResetCarIsBlind | src/simulation.py:100-105 | after `reset` the sensor headings are (0, 0), so in a box the first measurement fails and the step stops |
| Simulation.StepFromClosedForm | src/simulation.py:86-112 | for a list of distinct vehicles, a step turns the vehicles in order, each from its own state, up to and including the first that fails; later vehicles are not processed; the outcome is that vehicle's |
| Simulation.StepFromSnapshots | src/simulation.py:87-89 | for a list of distinct vehicles, with `save_artifacts`, one snapshot of all vehicles per vehicle reached, taken before that vehicle moves; none otherwise |
| Simulation.RunSteps | src/simulation.py:82-84 | a run of n steps counts at most n completed steps, and exactly n when it passes |
| Simulation.Simulator.constructor | src/simulation.py:20-28 | step 0, no render artifacts, the given environment (possibly none) and vehicles; a list may name the same vehicle more than once, and entries get equal labels exactly when they name the same vehicle |
| Simulation.Labels | src/simulation.py:27-28 | entries of the vehicle list carry equal labels exactly when they are the same object |
| Simulation.SameCarTurnsTwice | src/simulation.py:87-110 | a vehicle named twice in the list takes two turns in one step, the second from where the first left it, and both entries show the result |
| Simulation.StepWithoutEnvironment | src/simulation.py:20-22 | without an environment, a step with vehicles moves the first vehicle and then fails, after its snapshot, at the `inside` lookup (line 94); with no vehicles it passes |
| Simulation.Simulator.Single | src/simulation.py:23-26 | a single vehicle is wrapped in a list |
| Simulation.Simulator.SaveRenderArtifacts | src/simulation.py:37-41 | appends one snapshot of all vehicles |
| Simulation.Simulator.Reset | src/simulation.py:76-80 | step 0, no render artifacts, every vehicle reset in order (with the corrected vehicle reset); a vehicle named twice ends as after one reset |
| Simulation.Simulator.ResetVehicle | src/simulation.py:79-80 | resets one vehicle, under every entry naming it, and leaves the other vehicles unchanged |
| Simulation.Simulator.ResetAsWritten | src/simulation.py:76-80 | as written: with no vehicles the reset succeeds; otherwise the first vehicle's reset fails, after zeroing only that vehicle's motion (under every entry naming it) |
| Simulation.Simulator.ResetFirstAsWritten | src/simulation.py:79-80 | the first vehicle's as-written reset fails after zeroing its motion, under every entry naming it; no other vehicle changes |
| Simulation.ResetNext | src/simulation.py:79-80 | resetting the next entry keeps `reset`'s loop on track even when that entry names a vehicle an earlier entry already reset |
| Simulation.Simulator.Simulate | src/simulation.py:82-84 | the new states, render artifacts, outcome and step count are those of `RunSteps`, n steps or up to the first failing one |
| Simulation.Simulator.Step | src/simulation.py:86-112 | the new states, snapshots and outcome are those of `StepFrom`; the step count and the current time advance by one step exactly when every vehicle completed |
| Simulation.Simulator.TakeTurns | src/simulation.py:87-110 | the loop over vehicles computes `StepFrom`, stopping at the first failure |
| Simulation.Simulator.Turn | src/simulation.py:87-110 | one vehicle's turn, snapshot first when saving: the new state and outcome are `StepCar`'s, under every entry naming that vehicle; the other vehicles are unchanged |
| Simulation.Simulator.Drive | src/simulation.py:91-110 | one vehicle moves, measures and steers as `StepCar`, under every entry naming it; no other vehicle changes |
| Simulation.Simulator.StepVehicle | src/simulation.py:91-110 | moves, checks containment (failing with `NoEnvironment` when there is none), measures and steers one vehicle, as `StepCar` |
| Simulation.Simulator.Measure | src/simulation.py:100-107 | the loop over sensors writes each clamped distance in order, collects the readings, and stops at the first ray that meets no wall |
| Simulation.Simulator.MeasureSensor | src/simulation.py:102-105 | one sensor writes `distance_to_boundary` along its heading and reads it back; when the distance fails, nothing changes |
| Simulation.Simulator.Steer | src/simulation.py:109-110 | the controller's output becomes the velocity, through the setter; a controller failure leaves the car unchanged |
| LinearAlgebra.SumSquares | c_implementation/linear_algebra.h:6-10 | the sum of squares is never negative |
| LinearAlgebra.Norm | c_implementation/linear_algebra.h:6-10 | the loop returns the square root of the sum of squares of the first `num_elements` entries; the result is non-negative, and the array is not modified |
| LinearAlgebra.SumSquaresZero | c_implementation/linear_algebra.h:6-10 | the sum of squares is 0 exactly when every entry is 0 |
| LinearAlgebra.NormZero | c_implementation/linear_algebra.h:6-10 | `norm` of all-zero entries is 0 |
| LinearAlgebra.NormOfPair | c_implementation/linear_algebra.h:6-10 | `norm(v, 2)` of a 2-vector is its Euclidean length |
| Utils.InitializeToZeros | c_implementation/utils.c:5-7 | the loop computes `ZeroedPrefix` in place |
| Utils.ZeroedPrefixContents | c_implementation/utils.c:5-7 | the first `size` entries are 0 and the rest are unchanged; with size 0 the array is unchanged |
| Utils.ZeroedPrefixIdempotent | c_implementation/utils.c:5-7 | zeroing twice is zeroing once |
| SteeringController.Controller.constructor | c_implementation/controller.c:10-52 | the defaults: thresholds 0.1, 0.1, 0 and 0.5; four sensors at 0, 90, 180 and 270 degrees; previous heading (0, 1); previous wander time -10; wander period 6; with the intended basis |
| SteeringController.Controller.AsWritten | c_implementation/controller.c:10-52 | the same defaults, with basis row 2 set to (-1, 0) and row 3 whatever was in memory |
| SteeringController.Controller.FeelForce | c_implementation/controller.c:70-89 | the two loops compute the sum over sensors of `basis[i] * (-0.001 / (d_i + 0.001)^5)` |
| SteeringController.RepulsionWeakensWithDistance | c_implementation/controller.c:84 | the per-sensor force is negative and rises strictly towards 0 as the distance grows |
| SteeringController.PowIncreasing | c_implementation/controller.c:84 | `pow(x, n)` is positive and strictly increasing for positive `x` |
| SteeringController.IntendedBasisBalances | c_implementation/controller.c:23-37 | with the intended basis, four equal distances produce no net force |
| SteeringController.AsWrittenBasisUnbalanced | c_implementation/controller.c:33-37 | with the basis as written, four equal distances produce `f * ((0, 1) + row3)`, which is zero only if row 3 happens to hold (0, -1) |
| SteeringController.CollideLooksAhead | c_implementation/controller.c:91-95 | `collide` holds exactly when the front sensor reads below 0.1, and only the front sensor matters |
| SteeringController.RunawaySuppressesWeakForces | c_implementation/controller.c:97-102 | `runaway` returns its argument or (0, 0); (0, 0) exactly when the force is no longer than the threshold, so a returned nonzero force is longer than the threshold |
| SteeringController.DrawInSquare | c_implementation/controller.c:111 | each wander component `rand() / RAND_MAX * 2 - 1` lies in [-1, 1] and is never 0 |
| SteeringController.WanderIsUnit | c_implementation/controller.c:119-121 | the wander direction has unit length and points along the draw |
| SteeringController.Controller.Wander | c_implementation/controller.c:104-127 | returns the normalised draw and stores it as the previous wander |
| SteeringController.AvoidIsUnitOrZero | c_implementation/controller.c:129-146 | `avoid` returns the unit vector along the sum of the two forces, or (0, 0); with threshold 0 it is (0, 0) only for a zero sum |
| SteeringController.Controller.Reset | c_implementation/controller.c:147-150 | the previous heading becomes (0, 0) |
| SteeringController.Bin | c_implementation/controller.c:157-177 | every component is discretised to one of -1, -pi/4, 0, pi/4, 1, the negative side mirroring the positive side |
| SteeringController.BinAsWrittenMissesBoundaries | c_implementation/controller.c:163-177 | as written, every non-negative component becomes 0, pi/4 or 1, with pi = 3.1415926; the two if-chains agree with `Bin` except at -pi/8 and -1 + pi/8, which stay unchanged |
| SteeringController.Discretize | c_implementation/controller.c:152-178 | as written: after normalising, both components go through the two if-chains in place, so they become `BinAsWritten` of the normalised values; a component lands on one of the five bins, and agrees with the intended `Bin`, exactly when it is neither -pi/8 nor -1 + pi/8 |
| SteeringController.BinComponent | c_implementation/controller.c:163-169 | the two if-chains change component k to `BinAsWritten` of its value and leave the rest of the array unchanged |
| SteeringController.Controller.Call | c_implementation/controller.c:180-204 | a new wander draw is taken, and the wander time set to `time`, exactly when `time - previous_wander_time >= wander_period`; otherwise the wander term is (0, 0) and the timer is unchanged; the result is `avoid` of the felt force and the wander term; the previous heading becomes the result and the previous time becomes `time` |
| SteeringController.FirstCallDraws | c_implementation/controller.c:49-51 | with the defaults, a call at time 0 takes the draw branch, and so does any call from time -4 on |
| SteeringController.FirstCallFollowsWander | c_implementation/main.c:12-19 | with the intended basis, the first call at time 0 with all distances 1 feels no force and returns the unit wander direction |
| LegacySteeringController.Controller.constructor | c_implementation/src/controller.c:10-48 | the same defaults as the newer controller; the previous heading is never allocated and the previous wander is (0, 0) |
| LegacySteeringController.Controller.AsWritten | c_implementation/src/controller.c:10-48 | as above, with basis row 2 set to (-1, 0) and row 3 whatever was in memory |
| LegacySteeringController.Controller.FeelForce | c_implementation/src/controller.c:60-79 | the two loops compute the sum over sensors of `basis[i] * (-1 / (10 d_i + 0.001)^5)` |
| LegacySteeringController.LegacyRepulsionWeakensWithDistance | c_implementation/src/controller.c:74 | the per-sensor force is negative and rises strictly towards 0 with distance; it equals 1000 times the newer force at ten times the distance |
| LegacySteeringController.Controller.Wander | c_implementation/src/controller.c:94-112 | returns `normalize(previous_wander + draw)`; since the previous wander stays (0, 0) this is the normalised draw; no state changes |
| LegacySteeringController.LegacyAvoidKeepsMagnitude | c_implementation/src/controller.c:114-124 | the older `avoid` returns the sum unnormalised or (0, 0); the newer `avoid` returns (0, 0) for the same inputs, or else the older result normalised |
| LegacySteeringController.AvoidVersionsDiffer | c_implementation/src/controller.c:114-124 | a combined force (2, 0) comes out of the older `avoid` as (2, 0) and out of the newer one as (1, 0) |
| LegacySteeringController.Controller.Reset | c_implementation/src/controller.c:125-128 | requires the previous heading to be allocated; it becomes (0, 0) |
| LegacySteeringController.Controller.Call | c_implementation/src/controller.c:130-154 | requires the previous heading to be allocated; the same wander-timer rule as the newer `call`; the result is the older `avoid` of the felt force and the wander term; the previous heading becomes the result, the previous time becomes `time`, and the previous wander stays unchanged |

## Left out

- Rendering and animation (`render`, `create_animation`, the `draw` methods) are matplotlib output and are not modelled. A saved render artifact is the list of vehicle states at that moment.
- `save_render_artifacts` creates its list on first use. The model starts every simulator with an empty list, which `reset` also produces.
- Floating point is not modelled. Vectors, distances and times are `real`, and `pow`, the divisions and the square root are exact. NaN and infinity do not arise in the model, partly because the preconditions keep them out: see the next line. The one place numpy would produce NaN, normalising the zero direction in `ray_intersection`, is modelled as reporting no hit: every comparison with NaN is false.
- SteeringController.Controller.FeelForce and SteeringController.Controller.Call require `FiniteRepulsion`: no distance equals -0.001, where the C divides by `pow(0, 5)` and the force becomes infinite or NaN. LegacySteeringController.Controller.FeelForce and LegacySteeringController.Controller.Call likewise require `FiniteLegacyRepulsion`, which excludes -0.0001. Range readings are never negative: `write` stores 0, 100 or a value in [0.02, 4].
- `sqrt` (numpy's and libm's) is a parameter characterised by `IsSqrt`.
- `npr.randn()` is a parameter `noise` of `Simulate` and `Step`. With the noise scale 0 it has no effect.
- `rand()` is replaced by the integers it returned, passed to `Wander` and `Call`.
- `Creature` and `CreatureCInterface` are not part of this model. The car's controller is `AvoidingController`, and the simulator's vehicles are `SimpleCar`s.
- `Simulator.__init__` accepts `vehicles=None`. The model always takes a list of vehicles.
- Simulation.Fleet: two different vehicles in one simulator must not share a sensor or a controller object. The model does not capture what a shared sensor would do.
- `environment=None` is modelled as `None`: the first vehicle's move happens, then `inside` is looked up on `None` and raises. The model reports this as `NoEnvironment`; in the source it is an `AttributeError`, which the `except ValueError` at src/simulation.py:96 does not catch.
- The C `normalize` that `discretize` calls is not part of this model. `Discretize` takes it as a parameter.
- Memory management in both C files (`malloc`, `free`, `free_controller`, leaks) is not modelled. Two-element buffers are values.
- SteeringController.Controller.Call: after a draw, `previous_wander` is left pointing at the buffer that `call` frees at c_implementation/controller.c:197, and `free_controller` frees it again. The model keeps the values that buffer held and does not capture the dangling reference.
- LegacySteeringController.Controller.Call: the older file is compiled against the struct layout of c_implementation/controller.h. c_implementation/include/controller.h declares inline arrays instead, and the older file's `malloc` calls cannot compile against it. Under that layout `previous_heading` is never allocated. The model makes its allocation (`previousHeading.Some?`) a precondition of `Reset` and `Call`, and no constructor provides it.
- The C `print_double_vector` and the `printf` calls in `free_controller` are console output and are not modelled.

## Findings

| source | as written | input that shows it | evidently intended | confidence | as-written member | corrected member |
|---|---|---|---|---|---|---|
| src/vehicle.py:55-60 | `reset` zeroes the car's motion, then calls `.reset()` on the list of sensors, which raises | any `SimpleCar`, e.g. a new one | reset each sensor | not executed | Vehicle.SimpleCar.ResetAsWritten | Vehicle.SimpleCar.Reset |
| c_implementation/controller.c:33-37 | basis row 2 is assigned (0, -1) and then (-1, 0); row 3 is never assigned, so `feel_force` reads uninitialised memory (the same lines in c_implementation/src/controller.c) | distances (1, 1, 1, 1) as in c_implementation/main.c: the force is `f * ((0, 1) + row3)`, nonzero unless row 3 holds (0, -1) | rows (0, 1), (1, 0), (0, -1), (-1, 0), one per sensor offset, so that equal distances balance | not executed | SteeringController.AsWrittenBasisUnbalanced | SteeringController.IntendedBasisBalances |
| c_implementation/controller.c:167-169 | the negative-side chain uses strict comparisons at both ends, so -pi/8 and -1 + pi/8 match no branch (lines 175-177 likewise) | a normalised component equal to -pi/8 (about -0.3927) stays -0.3927 | the mirror of the non-negative side: -pi/8 and -1 + pi/8 map to -pi/4 | not executed | SteeringController.BinAsWrittenMissesBoundaries | SteeringController.Bin |
