/** CarAIDriver: drives a WheelCarController along waypoints by issuing smoothed throttle and
    steer commands in External mode. The signed angle to the target, the speed magnitude and
    the exponential smoothing factors are engine values and arrive as inputs. */
module AIDriver {
  import opened UnityMath
  import opened WheelCar

  /** The speed-dependent steer bound: from `maxSteerAtLowSpeed` at rest toward 0.25 at cruise speed. */
  function SteerLimit(speedMagnitude: real, cruiseSpeed: real, maxSteerAtLowSpeed: real): (limit: real)
    ensures MinReal(maxSteerAtLowSpeed, 0.25) <= limit <= MaxReal(maxSteerAtLowSpeed, 0.25)
    ensures speedMagnitude <= 0.0 ==> limit == maxSteerAtLowSpeed
    ensures speedMagnitude >= MaxReal(1.0, cruiseSpeed) ==> limit == 0.25
  {
    var d := MaxReal(1.0, cruiseSpeed);
    var ratio := speedMagnitude / d;
    DivBounds(speedMagnitude, d);
    Lerp(maxSteerAtLowSpeed, 0.25, Clamp01(ratio))
  }

  /** The steer command before smoothing: the signed angle (degrees) mapped to [-1, 1] at 45
      degrees, then clamped by the speed-dependent limit. No steer when the target is within
      0.1 m on the ground plane. */
  function DesiredSteer(toTargetSqr: real, signedAngle: real, speedMagnitude: real,
                        cruiseSpeed: real, maxSteerAtLowSpeed: real): (steer: real)
    ensures toTargetSqr <= 0.01 ==> steer == 0.0
    ensures var limit := SteerLimit(speedMagnitude, cruiseSpeed, maxSteerAtLowSpeed);
            && (limit >= -1.0 ==> -1.0 <= steer <= 1.0)
            && (limit >= 0.0 ==> AbsReal(steer) <= limit)
            && (limit >= 0.0 ==> (signedAngle >= 0.0 ==> steer >= 0.0) && (signedAngle <= 0.0 ==> steer <= 0.0))
    // the steer itself: the angle over 45 degrees while within both bounds, else the nearer bound
    ensures var limit := SteerLimit(speedMagnitude, cruiseSpeed, maxSteerAtLowSpeed);
            var a := signedAngle / 45.0;
            toTargetSqr > 0.01 ==>
              && (AbsReal(a) <= MinReal(1.0, limit) ==> steer == a)
              && (0.0 <= limit <= 1.0 && a >= limit ==> steer == limit)
              && (0.0 <= limit <= 1.0 && a <= -limit ==> steer == -limit)
              && (limit >= 1.0 && a >= 1.0 ==> steer == 1.0)
              && (limit >= 1.0 && a <= -1.0 ==> steer == -1.0)
  {
    if toTargetSqr > 0.01 then
      var raw := Clamp(signedAngle / 45.0, -1.0, 1.0);
      var steerLimit := SteerLimit(speedMagnitude, cruiseSpeed, maxSteerAtLowSpeed);
      Clamp(raw, -steerLimit, steerLimit)
    else 0.0
  }

  /** The throttle command before smoothing: 0.15 per m/s of speed error, clamped to [-1, 1]. */
  function DesiredThrottle(cruiseSpeed: real, speedMagnitude: real): (throttle: real)
    ensures -1.0 <= throttle <= 1.0
    ensures throttle > 0.0 <==> speedMagnitude < cruiseSpeed
    ensures throttle == 0.0 <==> speedMagnitude == cruiseSpeed
    ensures AbsReal(cruiseSpeed - speedMagnitude) <= 1.0 / 0.15 ==>
              throttle == (cruiseSpeed - speedMagnitude) * 0.15
  {
    Clamp((cruiseSpeed - speedMagnitude) * 0.15, -1.0, 1.0)
  }

  /** Responsiveness smoothing `Lerp(0, raw, 1 - expFactor)`, with `expFactor = exp(-k * dt)`. */
  function Smooth(raw: real, expFactor: real): (cmd: real)
    ensures 0.0 <= raw ==> 0.0 <= cmd <= raw
    ensures raw <= 0.0 ==> raw <= cmd <= 0.0
    ensures expFactor >= 1.0 ==> cmd == 0.0
    ensures expFactor <= 0.0 ==> cmd == raw
  {
    Lerp(0.0, raw, 1.0 - expFactor)
  }

  class CarAIDriver {
    var waypoints: seq<Vec3>
    var waypointSwitchRadius: real
    var currentIndex: int
    var cruiseSpeed: real
    var maxSteerAtLowSpeed: real
    /** The component's `enabled` flag. */
    var enabled: bool
    /** The private flag EnableAI writes; nothing reads it. */
    var enabledSelf: bool
    const car: WheelCarController

    ghost predicate Valid()
      reads this
    {
      0 <= currentIndex && (|waypoints| > 0 ==> currentIndex < |waypoints|)
    }

    /** Between the two states only the `enabled` flag may have changed: the route, the index
        and the tuning are kept. */
    twostate predicate OnlyEnabledChanged()
      reads this
    {
      && waypoints == old(waypoints) && waypointSwitchRadius == old(waypointSwitchRadius)
      && currentIndex == old(currentIndex) && cruiseSpeed == old(cruiseSpeed)
      && maxSteerAtLowSpeed == old(maxSteerAtLowSpeed) && enabledSelf == old(enabledSelf)
    }

    /** Awake: the car is put in External mode. */
    constructor (car: WheelCarController, waypoints: seq<Vec3>, waypointSwitchRadius: real,
                 cruiseSpeed: real, maxSteerAtLowSpeed: real)
      modifies car`controlMode
      ensures Valid()
      ensures this.car == car && car.controlMode == External
      ensures this.waypoints == waypoints && this.waypointSwitchRadius == waypointSwitchRadius
      ensures this.cruiseSpeed == cruiseSpeed && this.maxSteerAtLowSpeed == maxSteerAtLowSpeed
      ensures currentIndex == 0 && enabled && enabledSelf
    {
      this.car := car;
      this.waypoints := waypoints;
      this.waypointSwitchRadius := waypointSwitchRadius;
      this.cruiseSpeed := cruiseSpeed;
      this.maxSteerAtLowSpeed := maxSteerAtLowSpeed;
      currentIndex := 0;
      enabled := true;
      enabledSelf := true;
      new;
      car.SetControlMode(External);
    }

    /** Assigning `enabled`: a change runs OnEnable (External mode) or OnDisable (Player mode). */
    method SetEnabled(value: bool)
      modifies this`enabled, car`controlMode
      ensures enabled == value
      ensures OnlyEnabledChanged() && car.OnlyModeAndInputsChanged()
      ensures value != old(enabled) ==> car.controlMode == (if value then External else Player)
      ensures value == old(enabled) ==> car.controlMode == old(car.controlMode)
    {
      if value != enabled {
        enabled := value;
        if value {
          car.SetControlMode(External);
        } else {
          car.SetControlMode(Player);
        }
      }
    }

    /** FixedUpdate: advance the waypoint on the ground plane, then steer toward the target taken
        before the advance and hold the cruise speed. `signedAngle` is the angle in degrees from
        the car's flattened forward to that target, `speedMagnitude` the rigidbody speed,
        `throttleExp` and `steerExp` the factors exp(-responsiveness * dt). */
    method FixedUpdate(pos: Vec3, signedAngle: real, speedMagnitude: real, throttleExp: real, steerExp: real)
      returns (throttleCmd: real, steerCmd: real)
      requires Valid()
      modifies this`currentIndex, car`moveInput, car`steerInput
      ensures Valid()
      ensures |waypoints| == 0 ==>
                currentIndex == old(currentIndex) && car.moveInput == old(car.moveInput)
                && car.steerInput == old(car.steerInput) && throttleCmd == 0.0 && steerCmd == 0.0
      ensures |waypoints| > 0 ==>
                var target := waypoints[old(currentIndex)];
                && currentIndex == (if DistLt(FlatDist2(pos, target), waypointSwitchRadius)
                                    then (old(currentIndex) + 1) % |waypoints| else old(currentIndex))
                && throttleCmd == Smooth(DesiredThrottle(cruiseSpeed, speedMagnitude), throttleExp)
                && steerCmd == Smooth(DesiredSteer(FlatDist2(pos, target), signedAngle, speedMagnitude,
                                                   cruiseSpeed, maxSteerAtLowSpeed), steerExp)
      ensures |waypoints| > 0 && car.controlMode == External ==>
                car.moveInput == throttleCmd && car.steerInput == Clamp(steerCmd, -1.0, 1.0)
      ensures |waypoints| > 0 && car.controlMode == External && -1.0 <= maxSteerAtLowSpeed ==>
                car.steerInput == steerCmd
      ensures |waypoints| > 0 && car.controlMode != External ==>
                car.moveInput == old(car.moveInput) && car.steerInput == old(car.steerInput)
    {
      throttleCmd, steerCmd := 0.0, 0.0;
      if |waypoints| == 0 {
        return;
      }
      var target := waypoints[currentIndex];
      var toTargetSqr := FlatDist2(pos, target);
      if DistLt(toTargetSqr, waypointSwitchRadius) {
        currentIndex := (currentIndex + 1) % |waypoints|;
      }
      var steer := DesiredSteer(toTargetSqr, signedAngle, speedMagnitude, cruiseSpeed, maxSteerAtLowSpeed);
      var throttle := DesiredThrottle(cruiseSpeed, speedMagnitude);
      throttleCmd := Smooth(throttle, throttleExp);
      steerCmd := Smooth(steer, steerExp);
      if -1.0 <= maxSteerAtLowSpeed {
        SteerWithinInputRange(toTargetSqr, signedAngle, speedMagnitude, cruiseSpeed, maxSteerAtLowSpeed, steerExp);
      }
      car.SetExternalInputs(throttleCmd, steerCmd);
    }

    /** EnableAI: AI driving only with waypoints; the car's mode follows the resulting flag. */
    method EnableAI(value: bool)
      modifies this`enabledSelf, car`controlMode
      ensures enabledSelf == (value && |waypoints| > 0)
      ensures car.controlMode == (if enabledSelf then External else Player)
    {
      var on := value && |waypoints| > 0;
      enabledSelf := on;
      car.SetControlMode(if on then External else Player);
    }
  }

  /** With a low-speed limit of at least -1 the command the AI issues is accepted by the car
      unchanged: it already lies in [-1, 1]. */
  lemma SteerWithinInputRange(toTargetSqr: real, signedAngle: real, speedMagnitude: real,
                              cruiseSpeed: real, maxSteerAtLowSpeed: real, steerExp: real)
    requires -1.0 <= maxSteerAtLowSpeed
    ensures var cmd := Smooth(DesiredSteer(toTargetSqr, signedAngle, speedMagnitude, cruiseSpeed, maxSteerAtLowSpeed), steerExp);
            Clamp(cmd, -1.0, 1.0) == cmd
  {
    var raw := DesiredSteer(toTargetSqr, signedAngle, speedMagnitude, cruiseSpeed, maxSteerAtLowSpeed);
    assert SteerLimit(speedMagnitude, cruiseSpeed, maxSteerAtLowSpeed) >= -1.0;
    assert -1.0 <= raw <= 1.0;
  }
}
