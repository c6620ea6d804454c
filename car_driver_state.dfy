/** CarDriverState: the NPC driver of a car. When the driver is killed the AI is switched off
    and the car brakes to a stop under External control; a player may then take the car over. */
module DriverState {
  import opened UnityMath
  import opened WheelCar
  import opened AIDriver

  /** The throttle the dead driver's car is given: a brake ramp from 0 to `-brakeStrength`
      over `stopBlendSeconds` (at least 0.001 s) after `killTime`, applied only while moving forward. */
  function BrakeCommand(now: real, killTime: real, stopBlendSeconds: real, brakeStrength: real,
                        forwardSpeed: real): (cmd: real)
    ensures 0.0 <= brakeStrength ==> -brakeStrength <= cmd <= 0.0
    ensures forwardSpeed <= 0.0 ==> cmd == 0.0
    ensures now <= killTime ==> cmd == 0.0
    ensures forwardSpeed > 0.0 && now >= killTime + MaxReal(0.001, stopBlendSeconds) ==> cmd == -brakeStrength
    ensures forwardSpeed > 0.0 ==> cmd == -brakeStrength * Clamp01((now - killTime) / MaxReal(0.001, stopBlendSeconds))
  {
    DivBounds(now - killTime, MaxReal(0.001, stopBlendSeconds));
    var t := Clamp01((now - killTime) / MaxReal(0.001, stopBlendSeconds));
    var commandedBrake := Lerp(0.0, -brakeStrength, t);
    if forwardSpeed > 0.0 then commandedBrake else 0.0
  }

  /** The brake only tightens as time passes. */
  lemma BrakeCommandTightens(t1: real, t2: real, killTime: real, stopBlendSeconds: real,
                             brakeStrength: real, forwardSpeed: real)
    requires t1 <= t2 && 0.0 <= brakeStrength
    ensures BrakeCommand(t2, killTime, stopBlendSeconds, brakeStrength, forwardSpeed)
            <= BrakeCommand(t1, killTime, stopBlendSeconds, brakeStrength, forwardSpeed)
  {
    var d := MaxReal(0.001, stopBlendSeconds);
    var a := (t1 - killTime) / d;
    var b := (t2 - killTime) / d;
    assert a <= b by {
      assert b - a == (t2 - t1) / d;
    }
    LerpMonotone(0.0, -brakeStrength, Clamp01(a), Clamp01(b));
  }

  class CarDriverState {
    var ai: CarAIDriver?
    var car: WheelCarController?
    /** Whether the car has a rigidbody to read speeds from. */
    var hasRigidbody: bool
    /** The driver body's active flag; None when no body is assigned. */
    var driverBodyActive: Option<bool>

    var stopBlendSeconds: real
    var brakeStrength: real
    var stopThreshold: real
    var allowPlayerTakeover: bool

    var driverAlive: bool
    var braking: bool
    var killTime: real

    constructor (ai: CarAIDriver?, car: WheelCarController?, hasRigidbody: bool, driverBodyActive: Option<bool>)
      ensures this.ai == ai && this.car == car && this.hasRigidbody == hasRigidbody
      ensures this.driverBodyActive == driverBodyActive
      ensures stopBlendSeconds == 1.0 && brakeStrength == 0.75 && stopThreshold == 0.25
      ensures allowPlayerTakeover && driverAlive && !braking && killTime == 0.0
    {
      this.ai := ai;
      this.car := car;
      this.hasRigidbody := hasRigidbody;
      this.driverBodyActive := driverBodyActive;
      stopBlendSeconds := 1.0;
      brakeStrength := 0.75;
      stopThreshold := 0.25;
      allowPlayerTakeover := true;
      driverAlive := true;
      braking := false;
      killTime := 0.0;
    }

    /** Between the two states the references and the inspector settings are kept. */
    twostate predicate KeepsSettings()
      reads this
    {
      && ai == old(ai) && car == old(car) && hasRigidbody == old(hasRigidbody)
      && stopBlendSeconds == old(stopBlendSeconds) && brakeStrength == old(brakeStrength)
      && stopThreshold == old(stopThreshold) && allowPlayerTakeover == old(allowPlayerTakeover)
    }

    /** Between the two states only the driver body's flag may have changed. */
    twostate predicate OnlyBodyChanged()
      reads this
    {
      && KeepsSettings()
      && driverAlive == old(driverAlive) && braking == old(braking) && killTime == old(killTime)
    }

    /** Awake: unassigned references default to the components found on the same object. */
    method Awake(foundCar: WheelCarController?, foundAi: CarAIDriver?)
      modifies this`car, this`ai
      ensures car == if old(car) == null then foundCar else old(car)
      ensures ai == if old(ai) == null then foundAi else old(ai)
    {
      if car == null {
        car := foundCar;
      }
      if ai == null {
        ai := foundAi;
      }
    }

    /** OnEnable: a car whose AI is enabled is driven externally. */
    method OnEnable()
      modifies car
      ensures car != null ==>
                car.controlMode == (if ai != null && ai.enabled then External else old(car.controlMode))
      ensures car != null ==> car.moveInput == old(car.moveInput) && car.steerInput == old(car.steerInput)
      ensures car != null ==> car.OnlyModeAndInputsChanged()
    {
      if ai != null && ai.enabled && car != null {
        car.SetControlMode(External);
      }
    }

    /** Update while braking: ramp the brake in, and once the forward speed is within
        `stopThreshold` of zero release all inputs and stop braking. */
    method Update(now: real, forwardSpeed: real)
      modifies this`braking, car
      ensures !old(braking) || car == null || !hasRigidbody ==>
                braking == old(braking) && (car != null ==> unchanged(car))
      ensures old(braking) && car != null && hasRigidbody ==>
                && car.controlMode == External
                && car.steerInput == 0.0
                && braking == (AbsReal(forwardSpeed) > stopThreshold)
                && car.moveInput == (if braking
                                     then Clamp(BrakeCommand(now, killTime, stopBlendSeconds, brakeStrength, forwardSpeed), -1.0, 1.0)
                                     else 0.0)
      ensures old(braking) && car != null && hasRigidbody && 0.0 <= brakeStrength ==> car.moveInput <= 0.0
      ensures car != null ==> car.OnlyModeAndInputsChanged()
    {
      if !braking || car == null || !hasRigidbody {
        return;
      }
      car.SetControlMode(External);
      var throttleCmd := BrakeCommand(now, killTime, stopBlendSeconds, brakeStrength, forwardSpeed);
      car.SetExternalInputs(throttleCmd, 0.0);
      if AbsReal(forwardSpeed) <= stopThreshold {
        car.SetExternalInputs(0.0, 0.0);
        braking := false;
      }
    }

    /** OnDriverKilled: only the first call acts. The AI is switched off (its OnDisable hands the
        car to Player mode), the brake ramp starts at `now`, and the car goes back to External. */
    method OnDriverKilled(now: real)
      modifies this`driverAlive, this`braking, this`killTime, this`driverBodyActive
      modifies ai, car, if ai != null then {ai.car} else {}
      ensures KeepsSettings()
      ensures ai != null ==> ai.OnlyEnabledChanged() && ai.car.OnlyModeAndInputsChanged()
      ensures ai != null ==> ai.car.moveInput == old(ai.car.moveInput) && ai.car.steerInput == old(ai.car.steerInput)
      ensures car != null ==> car.OnlyModeAndInputsChanged()
      ensures car != null ==> car.moveInput == old(car.moveInput) && car.steerInput == old(car.steerInput)
      ensures !old(driverAlive) ==>
                unchanged(this) && (ai != null ==> unchanged(ai) && unchanged(ai.car)) && (car != null ==> unchanged(car))
      ensures old(driverAlive) ==>
                && !driverAlive && braking && killTime == now
                && ai == old(ai) && car == old(car)
                && (ai != null ==> !ai.enabled)
                && (car != null ==> car.controlMode == External)
                && (ai != null && ai.car != car && old(ai.enabled) ==> ai.car.controlMode == Player)
                && driverBodyActive == (if old(driverBodyActive).Some? then Some(false) else None)
    {
      if !driverAlive {
        return;
      }
      driverAlive := false;
      if ai != null {
        ai.SetEnabled(false);
      }
      killTime := now;
      braking := true;
      if car != null {
        car.SetControlMode(External);
      }
      HideDriverBody();
    }

    /** EnterAsPlayer: with takeover allowed, a car whose driver is dead or whose AI is off is
        released to the player: braking stops and control goes to Player mode. */
    method EnterAsPlayer()
      modifies this`braking, car
      ensures var takes := car != null && allowPlayerTakeover && (!driverAlive || (ai != null && !ai.enabled));
              && (takes ==> !braking && car.controlMode == Player)
              && (takes && old(car.controlMode) == External ==> car.moveInput == 0.0 && car.steerInput == 0.0)
              && (takes && old(car.controlMode) != External ==>
                    car.moveInput == old(car.moveInput) && car.steerInput == old(car.steerInput))
              && (!takes ==> braking == old(braking) && (car != null ==> unchanged(car)))
      ensures car != null ==> car.OnlyModeAndInputsChanged()
    {
      if car == null || !allowPlayerTakeover {
        return;
      }
      if !driverAlive || (ai != null && !ai.enabled) {
        braking := false;
        car.SetExternalInputs(0.0, 0.0);
        car.SetControlMode(Player);
      }
    }

    /** ReEnableAI: the driver lives again, the AI is switched on (its OnEnable selects External)
        and the car is driven externally. A brake ramp in progress is left as it is. */
    method ReEnableAI()
      modifies this`driverAlive, this`driverBodyActive
      modifies ai, car, if ai != null then {ai.car} else {}
      ensures KeepsSettings()
      ensures ai != null ==> ai.OnlyEnabledChanged() && ai.car.OnlyModeAndInputsChanged()
      ensures ai != null ==> ai.car.moveInput == old(ai.car.moveInput) && ai.car.steerInput == old(ai.car.steerInput)
      ensures car != null ==> car.OnlyModeAndInputsChanged()
      ensures car != null ==> car.moveInput == old(car.moveInput) && car.steerInput == old(car.steerInput)
      ensures driverAlive && braking == old(braking) && killTime == old(killTime)
      ensures ai == old(ai) && car == old(car)
      ensures ai != null ==> ai.enabled
      ensures ai != null && (ai.car == car || !old(ai.enabled)) ==> ai.car.controlMode == External
      ensures car != null ==> car.controlMode == External
      ensures driverBodyActive == (if old(driverBodyActive).Some? then Some(true) else None)
    {
      driverAlive := true;
      if ai != null {
        ai.SetEnabled(true);
      }
      if car != null {
        car.SetControlMode(External);
      }
      ShowDriverBody();
    }

    method HideDriverBody()
      modifies this`driverBodyActive
      ensures OnlyBodyChanged()
      ensures driverBodyActive == (if old(driverBodyActive).Some? then Some(false) else None)
    {
      if driverBodyActive.Some? && driverBodyActive.value {
        driverBodyActive := Some(false);
      }
    }

    method ShowDriverBody()
      modifies this`driverBodyActive
      ensures OnlyBodyChanged()
      ensures driverBodyActive == (if old(driverBodyActive).Some? then Some(true) else None)
    {
      if driverBodyActive.Some? && !driverBodyActive.value {
        driverBodyActive := Some(true);
      }
    }
  }
}
