# Klauzury-3D game logic in Dafny

This project models the decision and state logic of the Klauzury-3D Unity game. It also proves
properties of that model. There is one Dafny module per C# script, plus `UnityMath`, which holds
the Unity maths the scripts rely on, written out exactly:

- `Mathf.Clamp` checks the lower bound first.
- `Mathf.Lerp` clamps `t`.
- `Mathf.Sign(0)` is 1.
- `Mathf.RoundToInt` rounds half to even.
- C# `/` on `int` truncates toward zero.
- Distances are compared through their squares.

The scripts fall into four groups:

- **Traffic.**
  - `TrafficLightControl` (`SimpleTrafficLightController`) is a junction with a cyclic green approach, a registry of live junctions, and the stop-or-go decision for an approaching car.
  - `TrafficCar` (`CarAI`) is a kinematic follower that holds a set of front/back contacts.
  - `Sensors` (`SensorNode`) is its front-on-back trigger filter.
  - `AIDriver` (`CarAIDriver`) is the steer and throttle law for the physics car.
- **Vehicle control.**
  - `WheelCar` (`WheelCarController`) gates inputs by control mode, probes the suspension and checks for ground.
  - `DriverState` (`CarDriverState`) kills the driver, brakes the car to a stop and lets the player take over.
  - `DriverHead` (`CarDriverHead`) is the driver's health.
  - `EnterExit` (`CarEnterExit`) is the single-car lock, the cooldowns, the permanent AI lockout and the braking after an exit.
  - `VehicleInteraction` (`PlayerVehicleInteractor`, `VehicleSeat`) picks the nearest seat and gets in and out.
- **Shop and economy.**
  - `Shop` (`Basket`) and `ShopUI` (`BasketUI`) hold the basket and its text.
  - `Inventory` (`InventoryManager`) places a purchase all-or-nothing, with undo.
  - `InventoryDb` (`InventoryDatabase`) looks items up by name, ignoring case.
  - `PlayerMenu` (`PlayerMenuController`) holds money, gems, kills and stars.
  - `Cash` (`MoneyDropper`) and `CashPickup` (`AutoCashPickup`) handle cash drops.
- **Small state machines.**
  - `Testosterone` (`TestosteroneSystem`), `ShopHighlight` (`ShopItem`) and `Doors` (`DoubleDoor`).
  - `Weapons` (`WeaponHotkeys`).
  - `Damage` (`DamageHitbox`, `DummyEnemy`).

Scripts whose fields change in place are classes: methods carry `modifies` clauses, functions carry
`reads` clauses, and every loop is a method with invariants. Each method is proved against a
specification function or states its whole new state. Where a method may change another script
(the car, its AI, the driver state, the menu), a two-state predicate on that script states which of
its fields stay as they were. Lemmas prove the properties of the specification functions.

Things the engine provides become parameters:

- `Time.time` and `Time.deltaTime` become `now` and `dt`.
- Raycasts and overlaps become hit flags and distances.
- Key presses become booleans.
- A `Random.value` draw becomes a number in [0, 1].

Engine effects are recorded as values, for example applied forces and `UnityEvent` invocations.
Static fields live in explicit holder objects: `JunctionRegistry`, `EnterExitGlobals`,
`WeaponGlobals` and `TestosteroneGlobals`. A coroutine becomes a step method. Starting a coroutine
runs its body up to the first `yield`, as Unity does. Enabling or disabling a component runs its
`OnEnable`/`OnDisable` at once.

## Model

| member | source | states |
|---|---|---|
| UnityMath.Dist2 | Assets/Scripts/Cars/PlayerVehicleInteractor.cs:43 | a squared distance is never negative |
| UnityMath.FlatDist2 | Assets/Scripts/Cars/SimpleTrafficLightController.cs:97-104 | the ground-plane squared distance is the full squared distance of the points with their heights set to 0, and is never negative |
| UnityMath.DistLeMonotone | Assets/Scripts/Cars/SimpleTrafficLightController.cs:121 | a distance within a radius is within every larger radius, compared through squares |
| UnityMath.Clamp | Assets/Scripts/Cars/CarController.cs:45-46 | with ordered bounds the result lies within them, a value inside is kept and one outside goes to the nearer bound |
| UnityMath.ClampInt | Assets/Scripts/NPC/MoneyDropper.cs:65 | the same for ints; a value below the lower bound always goes to the lower bound, since that test comes first |
| UnityMath.Clamp01 | Assets/Scripts/Cars/CarDriverState.cs:49 | the result lies in [0, 1], keeps a value inside and sends values outside to the nearer end |
| UnityMath.Lerp | Assets/Scripts/Cars/CarDriverState.cs:50 | the result lies between the two ends, is the first end for a parameter at or below 0 and the second at or above 1 |
| UnityMath.LerpMonotone | Assets/Scripts/Cars/CarDriverState.cs:49-50 | a later parameter moves the result toward the second end |
| UnityMath.Sign | Assets/Scripts/Cars/CarController.cs:111 | the sign is 1 exactly for zero and positive values and -1 otherwise |
| UnityMath.MoveTowards | Assets/Scripts/Cars/CarAI.cs:61 | a step of at most maxDelta that never passes the target and reaches it when it is within maxDelta |
| UnityMath.FloorToInt | Assets/Scripts/NPC/MoneyDropper.cs:65 | the greatest integer not above the value |
| UnityMath.RoundToInt | Assets/Scripts/NPC/DamageHitbox.cs:27 | the nearest integer, within one half of the value, and even when the value lies exactly halfway |
| UnityMath.RoundToIntUnique | Assets/Scripts/NPC/DamageHitbox.cs:27 | only one integer meets the rounding rule, so the rounding is determined |
| UnityMath.CsHalf | Assets/Scripts/NPC/MoneyDropper.cs:83 | halving truncates toward zero: the remainder is 0, or 1 for positive odd values and -1 for negative odd ones |
| TrafficLightControl.ScanApproaches | Assets/Scripts/Cars/SimpleTrafficLightController.cs:99-110 | the scan ends with -1 exactly when no assigned approach lies within the radius, and otherwise with the approach strictly nearer than every earlier qualifying one and no farther than every later one |
| TrafficLightControl.NearestApproach | Assets/Scripts/Cars/SimpleTrafficLightController.cs:94-112 | the approach the car is at: none exactly when no approach is within the radius, otherwise the nearest, ties going to the lowest index |
| TrafficLightControl.NearestApproachUnique | Assets/Scripts/Cars/SimpleTrafficLightController.cs:99-110 | at most one approach is the nearest, so the approach picked is determined |
| TrafficLightControl.JunctionRegistry.constructor | Assets/Scripts/Cars/SimpleTrafficLightController.cs:34 | the registry starts empty and without duplicates |
| TrafficLightControl.RemoveFirst | Assets/Scripts/Cars/SimpleTrafficLightController.cs:36 | removing drops exactly one occurrence when there is one, and leaves the list unchanged otherwise |
| TrafficLightControl.RemoveFirstNoDuplicates | Assets/Scripts/Cars/SimpleTrafficLightController.cs:35-36 | in a registry without duplicates, removal leaves no copy of the controller behind and no duplicates |
| TrafficLightControl.SimpleTrafficLightController.constructor | Assets/Scripts/Cars/SimpleTrafficLightController.cs:7-31 | a controller starts green at approach 0 with the timer at 0 and no green occupancy recorded |
| TrafficLightControl.SimpleTrafficLightController.OnEnable | Assets/Scripts/Cars/SimpleTrafficLightController.cs:35 | the controller ends registered exactly once; the registry keeps no duplicates |
| TrafficLightControl.SimpleTrafficLightController.OnDisable | Assets/Scripts/Cars/SimpleTrafficLightController.cs:36 | the controller ends unregistered and every other controller keeps its registration; no duplicates |
| TrafficLightControl.SimpleTrafficLightController.Start | Assets/Scripts/Cars/SimpleTrafficLightController.cs:38-44 | a missing or mis-sized STOP-leg array is replaced by one of all normal legs the size of the approaches, a fitting one is kept, and the grace window opens now |
| TrafficLightControl.SimpleTrafficLightController.Update | Assets/Scripts/Cars/SimpleTrafficLightController.cs:46-77 | without approaches nothing changes; otherwise the green moves to the next approach exactly when the timer reaches the cycle time, the timer restarts, and the grace timestamp is refreshed on a switch or while the green approach is occupied; the green index stays in range |
| TrafficLightControl.SimpleTrafficLightController.WantsStop | Assets/Scripts/Cars/SimpleTrafficLightController.cs:90-132 | no stop without approaches or away from every approach or at the green one; always stop at a red light leg within the radius; at a STOP leg, stop exactly while within the grace window |
| TrafficLightControl.SimpleTrafficLightController.ShouldStopForCar | Assets/Scripts/Cars/SimpleTrafficLightController.cs:90-132 | the scan and decision give exactly the junction's verdict |
| TrafficLightControl.SimpleTrafficLightController.IsValidIndex | Assets/Scripts/Cars/SimpleTrafficLightController.cs:134 | an index is valid exactly when it is within the lights and its light is assigned |
| TrafficCar.ControllerList | Assets/Scripts/Cars/CarAI.cs:71-73 | the scene search is used only when the registry is empty, the registry otherwise |
| TrafficCar.NextSpeed | Assets/Scripts/Cars/CarAI.cs:59-61 | the speed moves toward 0 (stopping) or the cruise speed by at most rate·dt, never past the target, and reaches it when it is within reach |
| TrafficCar.CarAI.constructor | Assets/Scripts/Cars/CarAI.cs:7-22 | a new car starts at waypoint 0, at rest, with no contacts |
| TrafficCar.CarAI.NotifyFrontBackEnter | Assets/Scripts/Cars/CarAI.cs:23-25 | the contact set gains the other car (set semantics, so a repeated enter changes nothing) and then reports a contact |
| TrafficCar.CarAI.NotifyFrontBackExit | Assets/Scripts/Cars/CarAI.cs:24-25 | the contact set loses exactly the other car |
| TrafficCar.CarAI.HasFrontBackContact | Assets/Scripts/Cars/CarAI.cs:25 | a contact is reported exactly when the contact set holds some car |
| TrafficCar.CarAI.GetNearestController | Assets/Scripts/Cars/CarAI.cs:67-84 | the result is null iff no present controller reports the car at its junction, otherwise the nearest such controller, the first one on ties |
| TrafficCar.CarAI.Update | Assets/Scripts/Cars/CarAI.cs:27-65 | without waypoints nothing changes; otherwise the index advances by one modulo the count exactly when the flat distance is below the switch radius, the car must stop iff the nearest junction says so or a contact exists, and the speed is `NextSpeed` of the old speed |
| TrafficCar.CarAI.DecideStop | Assets/Scripts/Cars/CarAI.cs:46-55 | the car must stop exactly when the nearest junction wants it to or a car is held in front |
| Sensors.SensorNode.constructor | Assets/Scripts/Cars/SensorNode.cs:7-11 | the sensor starts with its type and owner |
| Sensors.SensorNode.Awake | Assets/Scripts/Cars/SensorNode.cs:13-25 | an unset owner defaults to the car on the parent chain; a set one is kept |
| Sensors.SensorNode.OnTriggerEnter | Assets/Scripts/Cars/SensorNode.cs:27-37 | the owner gains a front-back contact with the other car exactly when this front sensor meets another car's back sensor, and its contacts are otherwise unchanged; the owner's route, index, speed and tuning are kept |
| Sensors.SensorNode.OnTriggerExit | Assets/Scripts/Cars/SensorNode.cs:39-48 | the owner loses the contact with the other car exactly for a front sensor leaving another car's back sensor, and its contacts are otherwise unchanged; the owner's other fields are kept |
| Sensors.EnterThenExit | Assets/Scripts/Cars/SensorNode.cs:27-48 | an enter and then an exit between the same pair of sensors leave the owner's contact set as it was, when that car was not already held, and every other field of the owner as it was |
| AIDriver.SteerLimit | Assets/Scripts/Cars/CarAIDriver.cs:58-59 | the steer bound lies between `maxSteerAtLowSpeed` and 0.25, is `maxSteerAtLowSpeed` at rest and 0.25 from cruise speed (floored at 1) on |
| AIDriver.DesiredSteer | Assets/Scripts/Cars/CarAIDriver.cs:50-61 | no steer within 0.1 m of the target; otherwise the angle over 45 degrees while that lies within both [-1, 1] and the speed-dependent limit, else the nearer bound (±limit for a limit in [0, 1], ±1 above it); steer in [-1, 1] whenever the limit is at least -1, within the limit and with the sign of the angle whenever it is non-negative |
| AIDriver.DesiredThrottle | Assets/Scripts/Cars/CarAIDriver.cs:63-65 | throttle in [-1, 1], positive exactly below cruise speed, zero exactly at it, and 0.15 per m/s of error while unclamped |
| AIDriver.Smooth | Assets/Scripts/Cars/CarAIDriver.cs:67-69 | smoothing keeps the sign and never grows the magnitude; it gives 0 or the raw value at the ends of the factor's range |
| AIDriver.CarAIDriver.constructor | Assets/Scripts/Cars/CarAIDriver.cs:28-33 | Awake puts the car in External mode; the driver starts at waypoint 0, enabled |
| AIDriver.CarAIDriver.SetEnabled | Assets/Scripts/Cars/CarAIDriver.cs:104-105 | enabling selects External mode and disabling Player mode, through OnEnable/OnDisable, only on an actual change; the route, index and tuning of the AI and the car's physics and inputs are kept |
| AIDriver.CarAIDriver.FixedUpdate | Assets/Scripts/Cars/CarAIDriver.cs:35-71 | without waypoints nothing changes; otherwise the index advances by one modulo the count when within the flat switch radius, and the commands, computed from the target before the advance, reach the car's inputs in External mode |
| AIDriver.CarAIDriver.EnableAI | Assets/Scripts/Cars/CarAIDriver.cs:95-101 | AI driving is on only with waypoints; the car is in External mode iff it is on, Player otherwise |
| AIDriver.SteerWithinInputRange | Assets/Scripts/Cars/CarAIDriver.cs:56-71 | with a low-speed limit of at least -1 the steer command already lies in [-1, 1], so the car's own clamp leaves it unchanged |
| WheelCar.SpringCompression | Assets/Scripts/Cars/CarController.cs:150-151 | the compression lies in [0, 1], is 0 at or beyond rest length, and is exactly the compressed length over the travel while unclamped |
| WheelCar.SpringCompressionMonotone | Assets/Scripts/Cars/CarController.cs:150-151 | a nearer probe hit never compresses the spring less |
| WheelCar.VelocityRatio | Assets/Scripts/Cars/CarController.cs:135 | the ratio lies in [-1, 1], has the sign of the forward speed, and is exactly that speed over max(1, `maxSpeed`) while unclamped |
| WheelCar.SumFlagsCountsGrounded | Assets/Scripts/Cars/CarController.cs:127-129 | with 0/1 flags the accumulated sum is the number of grounded wheels |
| WheelCar.CountGroundedBounds | Assets/Scripts/Cars/CarController.cs:125-130 | never more grounded wheels than flags, and none when all flags are clear |
| WheelCar.WheelCarController.constructor | Assets/Scripts/Cars/CarController.cs:15-39 | a new car is in Player mode with zero inputs, four clear wheel flags and not grounded |
| WheelCar.WheelCarController.SetControlMode | Assets/Scripts/Cars/CarController.cs:41 | the mode becomes the one given; inputs, physics state and tuning are kept |
| WheelCar.WheelCarController.SetExternalInputs | Assets/Scripts/Cars/CarController.cs:42-52 | a no-op unless in External mode; there both inputs become their values clamped to [-1, 1], so `Steer01` is in [-1, 1]; the mode, physics state and tuning are kept |
| WheelCar.WheelCarController.Steer01 | Assets/Scripts/Cars/CarController.cs:52 | the current steer input |
| WheelCar.WheelCarController.SpringForce | Assets/Scripts/Cars/CarController.cs:141-158 | a force exactly for a probe that hit; at rest, with a non-negative stiffness, it lies between 0 and the stiffness |
| WheelCar.WheelCarController.PollPlayerInput | Assets/Scripts/Cars/CarController.cs:62-69 | in Player mode the inputs are the input axes; otherwise they are unchanged |
| WheelCar.WheelCarController.Suspension | Assets/Scripts/Cars/CarController.cs:139-170 | wheel i's flag is 1 iff its probe hit, other flags are untouched, and a spring force is applied exactly at the ray points that hit |
| WheelCar.WheelCarController.GroundCheck | Assets/Scripts/Cars/CarController.cs:125-130 | grounded iff the flag sum exceeds 1, that is iff more than one wheel is grounded |
| WheelCar.WheelCarController.CalculateCarVelocity | Assets/Scripts/Cars/CarController.cs:132-136 | the local velocity is stored and the velocity ratio lies in [-1, 1] |
| WheelCar.WheelCarController.Movement | Assets/Scripts/Cars/CarController.cs:80-120 | no force off the ground; on it, drive only with positive input below `maxSpeed`, brake only with negative input, never both, and always steer torque and sideways drag |
| WheelCar.WheelCarController.FixedUpdate | Assets/Scripts/Cars/CarController.cs:71-77 | after the step the flags match the probe hits, grounded means more than one grounded wheel, and the forces are those of `Movement` |
| DriverState.BrakeCommand | Assets/Scripts/Cars/CarDriverState.cs:49-51 | moving forward, the throttle is -brakeStrength times the blend fraction clamp01((now - killTime) / max(0.001, blend)); it is 0 when not moving forward or before the kill, lies between -brakeStrength and 0, and reaches -brakeStrength once the blend time has passed |
| DriverState.BrakeCommandTightens | Assets/Scripts/Cars/CarDriverState.cs:49-50 | as time passes the commanded brake never loosens |
| DriverState.CarDriverState.constructor | Assets/Scripts/Cars/CarDriverState.cs:17-26 | the inspector defaults: blend 1 s, brake 0.75, stop threshold 0.25, takeover allowed, driver alive and not braking |
| DriverState.CarDriverState.Awake | Assets/Scripts/Cars/CarDriverState.cs:29-34 | a missing car or AI reference is filled from the same object; a set one is kept |
| DriverState.CarDriverState.OnEnable | Assets/Scripts/Cars/CarDriverState.cs:36-39 | a car whose AI is enabled is switched to External control; its inputs, physics state and tuning are kept; otherwise nothing changes |
| DriverState.CarDriverState.Update | Assets/Scripts/Cars/CarDriverState.cs:41-60 | without braking, car or rigidbody nothing changes; otherwise the car is External with no steering, braking stops exactly when the speed is within the threshold, and the throttle is the brake command (never positive) or 0 once stopped; the car's physics state and tuning are kept |
| DriverState.CarDriverState.OnDriverKilled | Assets/Scripts/Cars/CarDriverState.cs:62-75 | only the first call acts: the driver dies, the AI is disabled, braking starts at the given time, the car goes External with its inputs kept and the body is hidden; the inspector settings, the AI's route and index and the cars' physics and tuning are kept; later calls change nothing |
| DriverState.CarDriverState.EnterAsPlayer | Assets/Scripts/Cars/CarDriverState.cs:77-88 | with a car and takeover allowed, a dead driver or disabled AI hands the car to Player mode with braking stopped; the car's physics and tuning are kept; otherwise nothing changes |
| DriverState.CarDriverState.ReEnableAI | Assets/Scripts/Cars/CarDriverState.cs:90-96 | the driver lives, the AI is enabled, the car goes External with its inputs kept and the body is shown; the brake state, the inspector settings, the AI's route and index and the cars' physics and tuning are kept |
| DriverState.CarDriverState.HideDriverBody | Assets/Scripts/Cars/CarDriverState.cs:99-103 | an assigned body ends inactive; without one nothing changes; every other field is kept |
| DriverState.CarDriverState.ShowDriverBody | Assets/Scripts/Cars/CarDriverState.cs:105-109 | an assigned body ends active; without one nothing changes; every other field is kept |
| DriverHead.CarDriverHead.constructor | Assets/Scripts/Cars/CarDriverHead.cs:7-10 | the head starts with the configured car and health |
| DriverHead.CarDriverHead.TakeDamage | Assets/Scripts/Cars/CarDriverHead.cs:34-45 | a dead head ignores hits; otherwise health falls by max(1, damage), so strictly; the car is killed exactly on the hit that takes health from above 0 to 0 or below; the driver state, its AI and its car are untouched on every other hit, and even on the killing hit the settings, the AI's route and the cars' physics are kept |
| DriverHead.HitsToKill | Assets/Scripts/Cars/CarDriverHead.cs:36-37 | after k hits of any damage, health is at most its start minus k, or already 0 or below |
| DriverHead.KilledAtMostOnce | Assets/Scripts/Cars/CarDriverHead.cs:36-44 | over any run of hits the kill is notified exactly once if a living driver ends at 0 or below, and never otherwise |
| EnterExit.EnterExitGlobals.constructor | Assets/Scripts/Cars/CarEnterExit.cs:7-8 | no car holds the global lock and the global cooldown is 0 at first |
| EnterExit.CarEnterExit.constructor | Assets/Scripts/Cars/CarEnterExit.cs:33-50 | the inspector tunables (post-exit brake, stop threshold, brake time, entry and exit speed limits, re-enter block) as configured; out of the car, AI not locked out, not parked, no brake running |
| EnterExit.CarEnterExit.Awake | Assets/Scripts/Cars/CarEnterExit.cs:63-96 | the car camera starts off, and an idle car is in External mode with cleared inputs; its physics and tuning are kept |
| EnterExit.CarEnterExit.OnTrigger | Assets/Scripts/Cars/CarEnterExit.cs:98-110 | with a player root the trigger flag follows the player's collider entering or leaving; otherwise it is unchanged |
| EnterExit.CarEnterExit.CanAttemptEnter | Assets/Scripts/Cars/CarEnterExit.cs:123-127 | an entry may be attempted only out of the car, with no car holding the lock, and once both cooldowns are over |
| EnterExit.CarEnterExit.Update | Assets/Scripts/Cars/CarEnterExit.cs:118-148 | the car is entered exactly when the enter key is pressed, no car holds the lock, the player is in the trigger, both cooldowns are over and the speed is within the entry limit; exited exactly when in the car, the exit key is pressed and the speed is within the exit limit; otherwise nothing changes, the car, AI and driver state included; the AI lockout is never lifted, an AI that is locked out and disabled stays disabled, and the other scripts change only their mode, inputs, enabled flag or body flag |
| EnterExit.CarEnterExit.EnterCar | Assets/Scripts/Cars/CarEnterExit.cs:150-198 | the car takes the global lock, locks its AI out for good, goes to Player mode, hides the NPC body and the player, shows the car camera, locks the weapon, stops the brake coroutine and unparks; the trigger flag and cooldowns are kept, and the other scripts change only their mode, inputs, enabled flag or body flag; without a player root or car controller nothing changes |
| EnterExit.CarEnterExit.EnterSeat | Assets/Scripts/Cars/CarEnterExit.cs:154-197 | past the guard, the whole entered state: lock, AI lockout, Player mode with inputs kept, NPC body and player hidden, camera on, weapon locked, brake stopped and unparked |
| EnterExit.CarEnterExit.SeatPlayer | Assets/Scripts/Cars/CarEnterExit.cs:168-182 | the car camera follows the seat, the player body and the weapon are the other way round, and `inCar` is set on entry; the other scripts are untouched |
| EnterExit.CarEnterExit.TakeControl | Assets/Scripts/Cars/CarEnterExit.cs:155-166 | the lock is taken, the AI is locked out and disabled, the car is in Player mode with its inputs as they were, and the NPC body is hidden; the other scripts change only their mode, enabled flag or body flag |
| EnterExit.CarEnterExit.Unpark | Assets/Scripts/Cars/CarEnterExit.cs:185-197 | the brake coroutine is stopped, a car with a rigidbody is unparked, and the car is in Player mode with its inputs as they were and its physics and tuning kept |
| EnterExit.CarEnterExit.BrakeStep | Assets/Scripts/Cars/CarEnterExit.cs:273-301 | another braking frame while time is left and the car moves faster than the threshold, with brake input and no steering; otherwise neutral inputs and, with a rigidbody, the car is parked; the car's mode, physics and tuning are kept |
| EnterExit.CarEnterExit.RestartBrake | Assets/Scripts/Cars/CarEnterExit.cs:269-271 | a fresh brake coroutine runs to its first yield: one braking frame when the car still moves, otherwise straight to neutral and parked; the car's mode, physics and tuning are kept |
| EnterExit.CarEnterExit.HandBack | Assets/Scripts/Cars/CarEnterExit.cs:237-252 | an AI never locked out is enabled and takes over in External mode with the brake untouched; a locked-out AI keeps its enabled flag, the car goes External and a first brake starts (one braking frame while the car still moves, otherwise parked at once when it has a rigidbody); the AI's route and index and the car's physics and tuning are kept |
| EnterExit.CarEnterExit.Release | Assets/Scripts/Cars/CarEnterExit.cs:254-262 | out of the car, the lock freed, both cooldowns running for reenterBlockSeconds from now and the trigger flag cleared |
| EnterExit.CarEnterExit.ExitCar | Assets/Scripts/Cars/CarEnterExit.cs:200-271 | the player and a ready weapon come back, the car camera goes off, the lock is freed with both cooldowns started, the car is External with brake input when still moving and neutral otherwise, the AI lockout is kept, a locked-out AI is never re-enabled, the driver state is untouched and the car and AI change only their mode, inputs and enabled flag; without a player root or car controller nothing changes |
| EnterExit.CarEnterExit.LeaveSeat | Assets/Scripts/Cars/CarEnterExit.cs:229-270 | past the guard, the whole exited state: camera off, player and weapon back, AI hand-back, lock freed with cooldowns, External mode with brake input or neutral, and the brake coroutine state |
| EnterExit.CarEnterExit.ReleaseAndBrake | Assets/Scripts/Cars/CarEnterExit.cs:254-270 | the release (lock freed, cooldowns, trigger flag cleared) and then External mode with the brake restarted from the given speed |
| EnterExit.CarEnterExit.ResumeBraking | Assets/Scripts/Cars/CarEnterExit.cs:264-270 | External mode with cleared inputs, then a fresh brake coroutine: brake input and one frame when the car still moves, otherwise neutral and parked with a rigidbody |
| VehicleInteraction.VehicleSeat.constructor | Assets/Scripts/Cars/VehicleSeat.cs:20-25 | a seat starts with its camera and driving script, where present, switched off |
| VehicleInteraction.VehicleSeat.SetOccupied | Assets/Scripts/Cars/VehicleSeat.cs:27-40 | the seat's camera and driving script, where present, end switched on exactly when occupied |
| VehicleInteraction.NearestSeat | Assets/Scripts/Cars/PlayerVehicleInteractor.cs:32-64 | no seat exactly when no hit carries one; otherwise the seat strictly nearer than every earlier one and no farther than every later one |
| VehicleInteraction.ExitPosition | Assets/Scripts/Cars/PlayerVehicleInteractor.cs:106-108 | the exit point is the seat position moved `exitOffset` along the vehicle's right axis, at the player's own height |
| VehicleInteraction.PlayerVehicleInteractor.constructor | Assets/Scripts/Cars/PlayerVehicleInteractor.cs:6-22 | the player starts on foot and active, with the first-person camera on and the prompt hidden |
| VehicleInteraction.PlayerVehicleInteractor.Update | Assets/Scripts/Cars/PlayerVehicleInteractor.cs:30-115 | on foot the nearest seat is found, the prompt shows exactly when there is one, and the key enters it, moving the player to the seat pose and turning the first-person camera off; in a vehicle the key steps out, placing the player at the exit point and turning the camera back on; without the key nothing else changes, the camera included; every seat other than the one entered or left is unchanged; in a vehicle exactly when a current seat is held |
| VehicleInteraction.PlayerVehicleInteractor.EnterVehicle | Assets/Scripts/Cars/PlayerVehicleInteractor.cs:82-99 | a player already in a vehicle is untouched; otherwise the player is frozen at the seat, the seat takes over and the first-person camera is off |
| VehicleInteraction.PlayerVehicleInteractor.ExitVehicle | Assets/Scripts/Cars/PlayerVehicleInteractor.cs:101-119 | a player on foot is untouched; otherwise the player stands exitOffset along the vehicle's right axis at their own height, the seat's controls go off and the first-person camera and movement come back |
| Shop.SumPricesAppend | Assets/Scripts/Shops/Basket.cs:22-30 | appending one item raises the total by exactly that item's price |
| Shop.SumPricesConcat | Assets/Scripts/Shops/Basket.cs:22-24 | the total of two lists put together is the sum of their totals |
| Shop.SumPricesNonNegative | Assets/Scripts/Shops/Basket.cs:22-24 | with no negative price the total is never negative |
| Shop.SumPrices | Assets/Scripts/Shops/Basket.cs:22-24 | with no negative price every item's price is at most the total |
| Shop.Basket.constructor | Assets/Scripts/Shops/Basket.cs:15-20 | a new basket is empty, outside the cashier zone, with no events fired |
| Shop.Basket.Total | Assets/Scripts/Shops/Basket.cs:22-24 | the accumulator loop returns the sum of all item prices |
| Shop.Basket.Add | Assets/Scripts/Shops/Basket.cs:26-30 | exactly one item is appended at the end, earlier items are unchanged, the total grows by its price and `onChanged` fires once |
| Shop.Basket.Clear | Assets/Scripts/Shops/Basket.cs:32-36 | the basket is empty, its total is 0, and `onChanged` fires once |
| Shop.Basket.TryPayUsingMenuMoney | Assets/Scripts/Shops/Basket.cs:38-54 | pays iff at the cashier with a menu whose money covers the total; then money falls by exactly the total, the basket is emptied and `onPaid` fires once; otherwise basket and money are unchanged; the menu's other state never changes |
| ShopUI.IntToString | Assets/Scripts/Shops/BasketUI.cs:19 | `int.ToString()` gives a non-empty text of digits with at most a leading minus sign |
| ShopUI.NatToStringRoundTrip | Assets/Scripts/Shops/BasketUI.cs:19 | the decimal digits of a natural number read back as that number |
| ShopUI.IntToStringRoundTrip | Assets/Scripts/Shops/BasketUI.cs:19 | every integer, negative ones included, reads back from its text |
| ShopUI.Header | Assets/Scripts/Shops/BasketUI.cs:17-19 | the header starts with "Basket: ", the count and " item", and ends with the total's digits |
| ShopUI.Line | Assets/Scripts/Shops/BasketUI.cs:24 | an item's line starts with its name and ends with a line break |
| ShopUI.ListText | Assets/Scripts/Shops/BasketUI.cs:23-25 | the list is empty exactly for an empty basket and otherwise ends with a line break |
| ShopUI.HeaderPlural | Assets/Scripts/Shops/BasketUI.cs:19 | the header says "items" exactly when the count is not 1, zero included |
| ShopUI.HeaderReadsBack | Assets/Scripts/Shops/BasketUI.cs:17-19 | the header starts with "Basket: ", and the count and the total read back from it |
| ShopUI.LineHasOneBreak | Assets/Scripts/Shops/BasketUI.cs:24 | a `name  ($price)` line of a one-line name holds exactly one line break |
| ShopUI.ListTextOneLinePerItem | Assets/Scripts/Shops/BasketUI.cs:23-25 | with one-line names the list holds exactly one line break per item |
| ShopUI.ListTextAppend | Assets/Scripts/Shops/BasketUI.cs:24 | a further item adds its line after the earlier lines, in basket order |
| ShopUI.BasketUI.constructor | Assets/Scripts/Shops/BasketUI.cs:7-9 | the text fields are present or absent as assigned |
| ShopUI.BasketUI.Refresh | Assets/Scripts/Shops/BasketUI.cs:14-27 | without a basket nothing changes; otherwise each assigned text field holds the header of the item count and `Total`, and the item list |
| ShopUI.BuildList | Assets/Scripts/Shops/BasketUI.cs:23-25 | the StringBuilder loop produces the lines of all items in basket order (empty for an empty basket) |
| InventoryDb.FoldCase | Assets/Scripts/Inventory/InventoryDatabase.cs:22 | ordinal case folding maps exactly the letters a-z to A-Z and leaves every other character alone |
| InventoryDb.CaseVariantsMatch | Assets/Scripts/Inventory/InventoryDatabase.cs:22 | names that differ only in the case of their letters are equal under the comparison |
| InventoryDb.Find | Assets/Scripts/Inventory/InventoryDatabase.cs:18-27 | the result is None exactly when no entry's name matches, and otherwise the first matching entry in database order |
| InventoryDb.EarlierEntryWins | Assets/Scripts/Inventory/InventoryDatabase.cs:20-23 | an entry whose name matches and comes before every other match is the one found |
| InventoryDb.InventoryDatabase.constructor | Assets/Scripts/Inventory/InventoryDatabase.cs:16 | the database holds the given entries |
| InventoryDb.InventoryDatabase.TryGet | Assets/Scripts/Inventory/InventoryDatabase.cs:18-27 | the scan reports success exactly when it yields an entry, and yields the first match in order |
| Inventory.FirstEmpty | Assets/Scripts/Inventory/InventoryManager.cs:36-47 | the result is the lowest-index empty slot, or None exactly when every slot is filled |
| Inventory.Lookup | Assets/Scripts/Inventory/InventoryManager.cs:74 | without a database nothing is found; a found entry is in the database and its name matches ignoring case |
| Inventory.PlaceAll | Assets/Scripts/Inventory/InventoryManager.cs:72-81 | a successful placement of all items keeps both slot rows' lengths |
| Inventory.InventoryManager.FindFirstEmpty | Assets/Scripts/Inventory/InventoryManager.cs:36-47 | the scan returns the first empty slot of the row, None for a missing row or a full one |
| Inventory.PlanOne | Assets/Scripts/Inventory/InventoryManager.cs:18-29 | an item is placed exactly when it is found with a prefab and its category's row has an empty slot, and then it goes into that row's first empty slot with its prefab |
| Inventory.Names | Assets/Scripts/Inventory/InventoryManager.cs:68-69 | the names are those of the basket's items, in basket order |
| Inventory.InventoryManager.constructor | Assets/Scripts/Inventory/InventoryManager.cs:7-11 | the manager holds its database and two distinct slot rows |
| Inventory.InventoryManager.PlaceItem | Assets/Scripts/Inventory/InventoryManager.cs:18-31 | the slot rows change exactly as the plan for the item says, and not at all when it cannot be placed |
| Inventory.InventoryManager.TryAddByName | Assets/Scripts/Inventory/InventoryManager.cs:18-34 | true exactly when the item could be placed, in which case its prefab fills its row's first empty slot; otherwise nothing changes |
| Inventory.InventoryManager.Undo | Assets/Scripts/Inventory/InventoryManager.cs:88-91 | every slot filled in the purchase is empty again, and no other slot changes |
| Inventory.InventoryManager.PurchaseBasket | Assets/Scripts/Inventory/InventoryManager.cs:57-86 | the purchase succeeds exactly when the basket is at the cashier, the menu exists, the money covers the total and every item can be placed; then the total is taken, the basket emptied with one `onChanged`, and its cashier flag and `onPaid` count kept; on failure slots, basket and money are all unchanged; the menu's other state never changes |
| Inventory.InventoryManager.PlaceEvery | Assets/Scripts/Inventory/InventoryManager.cs:72-81 | the items are placed one after another exactly as the plan says, or on the first failure the rows are back as they were before |
| Inventory.InventoryManager.PlaceStep | Assets/Scripts/Inventory/InventoryManager.cs:73-80 | one item is placed as the plan says, or the slots filled so far are cleared and the whole plan is known to fail |
| Inventory.PlaceAllStep | Assets/Scripts/Inventory/InventoryManager.cs:73-80 | one more item extends the plan by exactly that item's placement |
| Inventory.PlaceAllFillsEmptySlots | Assets/Scripts/Inventory/InventoryManager.cs:72-81 | a successful purchase keeps every filled slot and fills exactly one empty slot per item |
| Inventory.PlaceAllFailureIsFinal | Assets/Scripts/Inventory/InventoryManager.cs:75-78 | once an item cannot be placed, the purchase as a whole fails |
| Inventory.PlacementsFilledOnly | Assets/Scripts/Inventory/InventoryManager.cs:72-81 | the slots changed so far are exactly those the placements name, each empty before the purchase |
| Inventory.UndoRestoresRows | Assets/Scripts/Inventory/InventoryManager.cs:88-91 | clearing the slots filled in this purchase gives back the rows as they were before it |
| Inventory.FirstEmptyIsLowest | Assets/Scripts/Inventory/InventoryManager.cs:39-46 | an empty slot with only filled slots before it is the first empty slot |
| Cash.SampleBiasedAmount | Assets/Scripts/NPC/MoneyDropper.cs:60-66 | with ordered bounds the amount lies within them, and unless clamped to a bound it is a multiple of 10 no more than 10 below the biased draw |
| Cash.FirstContaining | Assets/Scripts/NPC/MoneyDropper.cs:70-76 | the result is the first tier whose inclusive range holds the amount, or None exactly when no range does |
| Cash.NearestCentre | Assets/Scripts/NPC/MoneyDropper.cs:78-87 | the result is the tier whose centre is strictly nearer than every earlier one and no farther than every later one, or None exactly when no centre is nearer than the largest int |
| Cash.Centre | Assets/Scripts/NPC/MoneyDropper.cs:83 | the truncated middle of an ordered range lies within it |
| Cash.ChooseTier | Assets/Scripts/NPC/MoneyDropper.cs:68-88 | a tier holding the amount is chosen whenever one exists; the result is one of the tiers or the default, and the default with no tiers |
| Cash.ChooseTierPrefersContaining | Assets/Scripts/NPC/MoneyDropper.cs:68-88 | a tier whose range holds the amount, with none before it, is chosen whatever the centres of the others |
| Cash.AmountTargetFor | Assets/Scripts/NPC/MoneyDropper.cs:90-99 | an amount receiver gets the amount first, else a cash pile amount holder, else nobody |
| Cash.PickTier | Assets/Scripts/NPC/MoneyDropper.cs:68-88 | the tier chosen is the first holding the amount, else the one with the nearest centre, else the default tier |
| Cash.FindContaining | Assets/Scripts/NPC/MoneyDropper.cs:70-76 | the first loop stops at exactly the first tier holding the amount |
| Cash.FirstContainingIsLowest | Assets/Scripts/NPC/MoneyDropper.cs:71-75 | a tier holding the amount with none holding it before is the first containing one |
| Cash.FindNearestCentre | Assets/Scripts/NPC/MoneyDropper.cs:78-86 | the second loop ends with the nearest-centre tier, or -1 when there is none |
| Cash.MoneyDropper.constructor | Assets/Scripts/NPC/MoneyDropper.cs:15-30 | the dropper starts with its payout range and tiers, not yet dropped |
| Cash.MoneyDropper.Drop | Assets/Scripts/NPC/MoneyDropper.cs:33-58 | only the first call acts: the bounds are put in order, the amount is sampled within them, the chosen tier's prefab is spawned with the amount handed to its receiver, and nothing is spawned without a prefab |
| PlayerMenu.AddClamped | Assets/Scripts/Player/PlayerMenuController.cs:142-146 | a counter plus an amount, floored at zero: the exact sum when that is not negative, 0 otherwise |
| PlayerMenu.LevelFromNormalized | Assets/Scripts/Player/PlayerMenuController.cs:288-293 | the level asked for is at least 1 and, for a fraction in [0, 1] and at least one star, at most the number of stars |
| PlayerMenu.PlayerMenuController.constructor | Assets/Scripts/Player/PlayerMenuController.cs:26-65 | the menu starts with its inspector money and settings, zero gems, kills and stars, normal time and no star slots |
| PlayerMenu.PlayerMenuController.Awake | Assets/Scripts/Player/PlayerMenuController.cs:73-99 | the money is floored at zero; without a panel nothing else changes; with one the star slots are built, the level is the starting level clamped to [1, totalStars] or the bound meter's level, every slot shows it, and the menu is shown unless it starts closed, time being stopped exactly when it is shown and the menu pauses on open |
| PlayerMenu.PlayerMenuController.BuildStarSlots | Assets/Scripts/Player/PlayerMenuController.cs:252-286 | with the star prefabs a fresh row of totalStars slots, each showing its empty star; otherwise the slots are kept |
| PlayerMenu.PlayerMenuController.OpenMenu | Assets/Scripts/Player/PlayerMenuController.cs:132 | with a panel the menu is shown and time stops when the menu pauses on open; without one nothing changes |
| PlayerMenu.PlayerMenuController.CloseMenu | Assets/Scripts/Player/PlayerMenuController.cs:133 | with a panel the menu is hidden and time runs at normal speed when the menu pauses on open; without one nothing changes |
| PlayerMenu.PlayerMenuController.ToggleMenu | Assets/Scripts/Player/PlayerMenuController.cs:134-138 | with a panel the menu's visibility flips and, when the menu pauses on open, time is stopped exactly when it ends shown; without one nothing changes |
| PlayerMenu.PlayerMenuController.SetMenuVisible | Assets/Scripts/Player/PlayerMenuController.cs:179-250 | with a panel its visibility is set, and when pausing on open time stops exactly while it is shown; otherwise nothing changes |
| PlayerMenu.PlayerMenuController.AddMoney | Assets/Scripts/Player/PlayerMenuController.cs:140-144 | the money becomes the clamped sum, never negative, so counters that were non-negative stay so |
| PlayerMenu.PlayerMenuController.AddGems | Assets/Scripts/Player/PlayerMenuController.cs:145 | the gems become the clamped sum, never negative, so counters that were non-negative stay so |
| PlayerMenu.PlayerMenuController.AddKillScore | Assets/Scripts/Player/PlayerMenuController.cs:146 | the kills become the clamped sum, never negative, so counters that were non-negative stay so |
| PlayerMenu.PlayerMenuController.AddStar | Assets/Scripts/Player/PlayerMenuController.cs:148-149 | one more star is lit below the top, none at the top, and every slot shows the level |
| PlayerMenu.PlayerMenuController.SetStarLevel | Assets/Scripts/Player/PlayerMenuController.cs:152-161 | the level is clamped to [0, totalStars] and every star slot shows its full star exactly when it lies below the level |
| PlayerMenu.PlayerMenuController.SyncStarsFromNormalized | Assets/Scripts/Player/PlayerMenuController.cs:288-293 | the level follows the meter's fraction, at least 1 when there are stars, and every slot shows it |
| PlayerMenu.AddStarRepeated | Assets/Scripts/Player/PlayerMenuController.cs:148-149 | from a level in range, n calls of AddStar reach min(level + n, totalStars) |
| CashPickup.ShrinkScale | Assets/Scripts/NPC/AutoCashPickup.cs:45-46 | the pile's scale factor stays in [0, 1], is full before shrinking starts and 0 once the fade time is reached |
| CashPickup.ShrinkScaleMonotone | Assets/Scripts/NPC/AutoCashPickup.cs:44-46 | the pile only gets smaller as shrink time grows |
| CashPickup.AutoCashPickup.constructor | Assets/Scripts/NPC/AutoCashPickup.cs:7-17 | the pile starts with its amount and lifetimes, not yet paid |
| CashPickup.AutoCashPickup.Start | Assets/Scripts/NPC/AutoCashPickup.cs:19-33 | the pile pays once, touching only the menu money, and shrinks over its last shrinkDuration seconds when 0 < shrinkDuration < lifetime, or is destroyed after lifetime otherwise |
| CashPickup.AutoCashPickup.AddOnce | Assets/Scripts/NPC/AutoCashPickup.cs:52-58 | the amount is added to the menu money at most once per pile, nothing else of the menu changes, and the pile is marked paid even without a menu |
| CashPickup.AutoCashPickup.SetAmount | Assets/Scripts/NPC/AutoCashPickup.cs:61-64 | the amount is never negative |
| CashPickup.ShrinkFrames | Assets/Scripts/NPC/AutoCashPickup.cs:39-49 | each frame's scale is the shrink scale of the time elapsed through that frame, a frame runs only while the time before it is below the fade, and the pile is destroyed exactly when the elapsed time reaches the fade; every scale lies in [0, 1], never grows over frames of non-negative length, and the last one before destruction is 0 |
| Testosterone.NormalizedOf | Assets/Scripts/Testosterone/TestosteroneSystem.cs:20 | the fill fraction is 0 without a positive maximum, lies in [0, 1] for a meter within bounds, and times the maximum gives back the value |
| Testosterone.Approximately | Assets/Scripts/Testosterone/TestosteroneSystem.cs:44 | equal values are approximately equal, and the relation is symmetric |
| Testosterone.TestosteroneGlobals.constructor | Assets/Scripts/Testosterone/TestosteroneSystem.cs:7 | no instance exists at first |
| Testosterone.TestosteroneSystem.Normalized | Assets/Scripts/Testosterone/TestosteroneSystem.cs:20 | the meter's own fill fraction lies in [0, 1] while it is within bounds, and is 0 without a positive maximum |
| Testosterone.TestosteroneSystem.constructor | Assets/Scripts/Testosterone/TestosteroneSystem.cs:10-18 | the meter starts with its tuning values, at 0, with no events raised |
| Testosterone.TestosteroneSystem.Awake | Assets/Scripts/Testosterone/TestosteroneSystem.cs:22-35 | a second instance is destroyed and changes nothing; the first becomes the instance, starts at the start value clamped to the meter and reports its fraction |
| Testosterone.TestosteroneSystem.Update | Assets/Scripts/Testosterone/TestosteroneSystem.cs:37-49 | an empty meter is untouched; otherwise it drains one step, stays within bounds, reports only a visible change and reports depletion only on the frame that empties it |
| Testosterone.TestosteroneSystem.Gain | Assets/Scripts/Testosterone/TestosteroneSystem.cs:51-58 | non-positive amounts change nothing; positive amounts fill up to the maximum, never lowering the meter, and report a visible change |
| Testosterone.TestosteroneSystem.SetMax | Assets/Scripts/Testosterone/TestosteroneSystem.cs:61-68 | the new maximum is at least 1; keeping the percentage keeps the fill fraction, otherwise the value is kept clamped to the new meter; the meter ends within bounds and reports its fraction |
| Testosterone.TestosteroneSystem.SetDecay | Assets/Scripts/Testosterone/TestosteroneSystem.cs:70-73 | the decay rate is never negative |
| Testosterone.TestosteroneSystem.ResetToStart | Assets/Scripts/Testosterone/TestosteroneSystem.cs:75-79 | the meter returns to the start value clamped to the meter and reports its fraction |
| Testosterone.Rescaled | Assets/Scripts/Testosterone/TestosteroneSystem.cs:64-66 | the value SetMax leaves always lies within the new meter |
| Testosterone.RescaleKeepsFraction | Assets/Scripts/Testosterone/TestosteroneSystem.cs:64-66 | keeping the percentage keeps the fill fraction of a meter that was within bounds |
| Testosterone.RescaleKeepsValue | Assets/Scripts/Testosterone/TestosteroneSystem.cs:64-66 | without the percentage the value is kept, clamped to the new meter |
| Testosterone.DrainStep | Assets/Scripts/Testosterone/TestosteroneSystem.cs:39-42 | an empty meter stays; a positive one never goes below 0 and, with a non-negative rate and frame, never rises |
| Testosterone.DrainNeverRises | Assets/Scripts/Testosterone/TestosteroneSystem.cs:37-42 | frame after frame of draining keeps the meter between 0 and where it started |
| ShopHighlight.Material.constructor | Assets/Scripts/Shops/ShopItem.cs:24 | a material starts with its emission off and black |
| ShopHighlight.Renderer.constructor | Assets/Scripts/Shops/ShopItem.cs:20 | a renderer holds its material list |
| ShopHighlight.IndexOf | Assets/Scripts/Shops/ShopItem.cs:91 | the first slot holding the overlay, or -1 exactly when the list does not hold it |
| ShopHighlight.WithOverlay | Assets/Scripts/Shops/ShopItem.cs:76-86 | the overlay is in the result; a list that has it is unchanged; one that lacks it gains exactly one copy |
| ShopHighlight.WithoutFirst | Assets/Scripts/Shops/ShopItem.cs:90-97 | exactly one copy of the overlay is removed when there is one, and the list is unchanged otherwise |
| ShopHighlight.OthersConcat | Assets/Scripts/Shops/ShopItem.cs:72-99 | the non-overlay materials of a joined list are those of its parts, in order |
| ShopHighlight.WithOverlayKeepsOthers | Assets/Scripts/Shops/ShopItem.cs:76-86 | adding the overlay keeps every other material in its order |
| ShopHighlight.WithoutFirstKeepsOthers | Assets/Scripts/Shops/ShopItem.cs:90-97 | removing the overlay keeps every other material in its order |
| ShopHighlight.OverlayOnThenOffRestores | Assets/Scripts/Shops/ShopItem.cs:76-97 | highlighting on then off gives back a list that did not hold the overlay |
| ShopHighlight.WithOverlayIdempotent | Assets/Scripts/Shops/ShopItem.cs:79-80 | highlighting on twice adds the overlay only once |
| ShopHighlight.ShopItem.constructor | Assets/Scripts/Shops/ShopItem.cs:6-23 | the item starts with its settings and renderers, not highlighted |
| ShopHighlight.ShopItem.Awake | Assets/Scripts/Shops/ShopItem.cs:29-45 | an empty renderer list is replaced by the children's renderers; a set one is kept |
| ShopHighlight.ShopItem.SetHighlighted | Assets/Scripts/Shops/ShopItem.cs:47-60 | asking for the current state changes nothing; otherwise the state is recorded and either every renderer gets the overlay effect and no material changes, or (overlay off or missing) every material's emission follows the state and no renderer's list changes |
| ShopHighlight.ShopItem.ApplyOverlay | Assets/Scripts/Shops/ShopItem.cs:62-100 | without an overlay material the item falls back to emission for good and no renderer's list changes; otherwise every renderer's list gets the overlay effect and no material changes |
| ShopHighlight.ShopItem.ApplyEmission | Assets/Scripts/Shops/ShopItem.cs:102-130 | every material of every renderer has emission on with the highlight colour, or off and black |
| ShopHighlight.OverlayAll | Assets/Scripts/Shops/ShopItem.cs:72-99 | every renderer's list ends as the overlay effect of its old list |
| ShopHighlight.OverlayOne | Assets/Scripts/Shops/ShopItem.cs:74-98 | one renderer's list ends as the overlay effect of its old list |
| ShopHighlight.LightMaterials | Assets/Scripts/Shops/ShopItem.cs:111-128 | every material of the list has emission on with the colour, or off |
| Doors.TimerStep | Assets/Scripts/Interaction/DoubleDoor.cs:50-58 | a closed door or one without a positive delay is untouched; an open one stays open exactly while its timer plus the frame stays below the delay, and closes with the timer reset otherwise |
| Doors.AutoCloseAfterDelay | Assets/Scripts/Interaction/DoubleDoor.cs:50-58 | a door just opened, over frames of non-negative length, is open exactly while the total time is below the delay and closed with its timer reset from then on |
| Doors.NoDelayNeverCloses | Assets/Scripts/Interaction/DoubleDoor.cs:50 | without a positive delay an open door never closes by itself |
| Doors.DoubleDoor.constructor | Assets/Scripts/Interaction/DoubleDoor.cs:10-23 | the door starts closed, unlocked or locked as configured, with both leaves at their closed pose and the timer at 0 |
| Doors.DoubleDoor.Awake | Assets/Scripts/Interaction/DoubleDoor.cs:25-39 | a door missing either leaf disables itself |
| Doors.DoubleDoor.Update | Assets/Scripts/Interaction/DoubleDoor.cs:41-65 | a disabled door is untouched; otherwise the state follows the timer step and each leaf moves toward the pose of the state it was in, never further from it |
| Doors.DoubleDoor.Toggle | Assets/Scripts/Interaction/DoubleDoor.cs:67-72 | a locked door ignores it; otherwise the door flips, and opening restarts the timer |
| Doors.DoubleDoor.Open | Assets/Scripts/Interaction/DoubleDoor.cs:75 | a locked door ignores it; otherwise the door is open with the timer restarted |
| Doors.DoubleDoor.Close | Assets/Scripts/Interaction/DoubleDoor.cs:76 | the door is closed, locked or not |
| Doors.DoubleDoor.IsOpen | Assets/Scripts/Interaction/DoubleDoor.cs:77 | reports the open flag |
| Weapons.WeaponGlobals.constructor | Assets/Scripts/Player/WeaponController.cs:7 | the gun is not ready at first |
| Weapons.WeaponHotkeys.constructor | Assets/Scripts/Player/WeaponController.cs:11-13 | the hotkeys start with their lock time and no draw pending |
| Weapons.WeaponHotkeys.Start | Assets/Scripts/Player/WeaponController.cs:15-20 | the gun starts locked |
| Weapons.WeaponHotkeys.Update | Assets/Scripts/Player/WeaponController.cs:22-41 | a draw press locks the gun and restarts the wait to end one lock period from now; without a press nothing changes |
| Weapons.WeaponHotkeys.StartDrawLock | Assets/Scripts/Player/WeaponController.cs:43-50 | the draw locks the gun and waits one lock period from now |
| Weapons.WeaponHotkeys.Tick | Assets/Scripts/Player/WeaponController.cs:50-56 | once the wait is over the gun becomes ready and the draw ends; before that a locked gun stays locked and the lock keeps holding |
| Weapons.WeaponHotkeys.ForceReadyNow | Assets/Scripts/Player/WeaponController.cs:60-65 | any pending draw is cancelled and the gun is ready |
| Weapons.WeaponHotkeys.ForceLockNow | Assets/Scripts/Player/WeaponController.cs:68-74 | the gun is locked and a fresh wait of one lock period starts now |
| Damage.FinalDamage | Assets/Scripts/NPC/DamageHitbox.cs:27 | a non-positive multiplier forwards 0, a non-negative base never turns negative, and the result is within one half of base times multiplier |
| Damage.WholeMultiplierIsExact | Assets/Scripts/NPC/DamageHitbox.cs:27 | a whole multiplier forwards exactly base times multiplier |
| Damage.DefaultMultiplierRounding | Assets/Scripts/NPC/DamageHitbox.cs:7-27 | with the default 2.5 an exact half rounds to even: base 1 forwards 2 and base 3 forwards 8 |
| Damage.DamageHitbox.constructor | Assets/Scripts/NPC/DamageHitbox.cs:7-12 | the hitbox starts with its multiplier and no cached target |
| Damage.DamageHitbox.Awake | Assets/Scripts/NPC/DamageHitbox.cs:14-22 | the explicit target, when damageable, wins; otherwise the first damageable parent; otherwise none |
| Damage.DamageHitbox.ApplyDamage | Assets/Scripts/NPC/DamageHitbox.cs:24-29 | exactly one TakeDamage call, carrying the scaled damage, when a target is cached, and none otherwise |
| Damage.HitsNeverHeal | Assets/Scripts/DummyEnemy.cs:11 | over any run of hits the hit points fall by exactly the damage taken, so never rise |
| Damage.StaysDown | Assets/Scripts/DummyEnemy.cs:11-15 | a dummy at 0 or below stays there whatever hits follow |
| Damage.HpAfter | Assets/Scripts/DummyEnemy.cs:11 | hits never raise the hit points |
| Damage.DummyEnemy.constructor | Assets/Scripts/DummyEnemy.cs:6-7 | the dummy starts with its hit points and destroy-on-death setting |
| Damage.DummyEnemy.TakeDamage | Assets/Scripts/DummyEnemy.cs:9-16 | hit points drop by the damage, negatives counting as 0; destruction is requested exactly when it is enabled and the hit points are at 0 or below |

## Left out

- Physics and rendering are not modelled. This covers rigidbody integration, applied forces beyond recording them, wheel visuals, cameras, canvases, the cursor, animators, sounds and particle effects.
- Engine queries are inputs. Raycasts, overlaps, `GetPointVelocity` and `InverseTransformDirection` give their hit distances, occupancy flags and velocity components as parameters.
- `Mathf.Exp`, `Mathf.Pow`, `Vector3.SignedAngle`, `AnimationCurve.Evaluate` and `Random.value` are transcendental or random. They are inputs within their stated ranges, for example the smoothing factor in (0, 1] and the draw in [0, 1].
- Quaternion rotation is not modelled: `Quaternion.Slerp` and `LookRotation` in the exit pose and ground alignment are left out; the door's `Slerp` is modelled on its yaw angle, as the line on `Doors.DoubleDoor.Update` says. The ground-align torque of `CarAIDriver` is left out as well.
- Single-precision `float` is modelled as exact `real`, so rounding in float arithmetic is not captured. `Mathf.Approximately` uses Unity's formula on reals.
- C# `int` is modelled as an unbounded integer, so 32-bit overflow of money, scores and hit points is not modelled.
- Unity lifecycle ordering and coroutine scheduling are not modelled. Coroutines are explicit step methods called with `now`/`dt`, and `Destroy` is a returned request.
- `UnityEvent` listeners are not run: each invocation is appended to a recorded sequence.
- Text: `string.Equals` with `OrdinalIgnoreCase` is modelled by folding ASCII letters only. `AppendLine` writes `"\n"`, standing for `Environment.NewLine`.
- `IsCarAtThisJunction`, which `CarAI` calls, is not part of this model. The set of controllers that report the car at their junction is an input.
- `FindObjectsOfType` (the scene search of `CarAI`) gives its result as an input sequence.
- The singleton `PlayerMenuController.Instance` is not tracked: the menu is passed in, possibly null. Star slots are an array of full/empty flags. Their layout, scale and the destruction of the old children are left out.
- `ShopItem` materials: `renderer.materials` makes per-renderer copies, which the model treats as the renderer's own list. The `_EMISSION` keyword is a flag on the material, set together with the colour.
- `DummyEnemy` flashes its colour in a coroutine; this is left out.
- `CarEnterExit` exit pose: the side-of-car raycast and the placement of the player are left out. The player's position after exit is not modelled.
- Weapons firing, NavMesh agents, the player controller, shop look/tooltips and the cashier trigger (which only sets `Basket.canPayHere`, an input here) are not part of this model.
- `IDamageable.TakeDamage(float)` dispatch is not modelled: each `TakeDamage(int)` is modelled directly.
- AIDriver.DesiredSteer: the bound to [-1, 1] is stated only when `maxSteerAtLowSpeed` is at least -1. Below that the Lerp of the limit gives a bound below -1, the clamp's lower-bound-first order lets the steer leave [-1, 1], and the car's own input clamp then applies.
- WheelCar.WheelCarController.Suspension: requires at most four probe points, the length of the wheel flag array. The source would throw an index error past four.
- Cash.SampleBiasedAmount: floors the scaled amount to a multiple of 10, as the code does, although a comment there says "nearest".
- Sensors.SensorNode.OnTriggerEnter: with no owner the source throws a null reference when it notifies the owner; the model does nothing in that case. The same holds for `OnTriggerExit`.
- VehicleInteraction.NearestSeat: the initial `float.MaxValue` distance becomes "no seat found yet", so a seat whose squared distance is not below `float.MaxValue` is still found.
- PlayerMenu.PlayerMenuController.SetMenuVisible: the gameplay scripts in `toDisableOnOpen` and the in-game UI in `hideWhileMenuOpen` are not switched. These are scene objects outside the menu's own state; the model keeps the panel's visibility and `Time.timeScale`.
- Doors.DoubleDoor.Update: `Quaternion.Slerp` of a leaf toward its pose is a `Lerp` of its yaw angle. The two agree only while the leaf's remaining swing is at most 180 degrees about the vertical axis.
- ShopHighlight.ShopItem.SetHighlighted: requires that no renderer is listed twice. With a renderer listed twice, turning the highlight off would remove the overlay from its list twice; that case is not modelled.
- ShopHighlight.ShopItem.ApplyOverlay: requires that no renderer is listed twice, for the same reason as `SetHighlighted`.
- Inventory slots are one optional prefab per array entry. A `Mini3DSlot` listed twice in a row, which would alias two entries, is not modelled.
- VehicleInteraction.VehicleSeat: the seat's position and right axis are fixed at construction. A vehicle that moves between the enter and the exit is not modelled.
