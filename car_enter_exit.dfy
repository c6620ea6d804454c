/** CarEnterExit: the player gets into and out of a car. A global lock lets only one car react at
    a time; after an exit the car brakes under External control for a short while and then parks,
    and a short cooldown blocks entering again. Once a player has driven a car its AI stays off. */
module EnterExit {
  import opened UnityMath
  import opened WheelCar
  import opened AIDriver
  import opened DriverState
  import opened Weapons

  /** The statics `CarEnterExit.Active` and `globalEnterCooldownUntil`. */
  class EnterExitGlobals {
    var active: CarEnterExit?
    var globalEnterCooldownUntil: real

    constructor ()
      ensures active == null && globalEnterCooldownUntil == 0.0
    {
      active := null;
      globalEnterCooldownUntil := 0.0;
    }
  }

  /** What an Update did. */
  datatype Action = NoAction | Entered | Exited

  /** Whether the post-exit brake loop takes another braking step: time is left and the car
      (speed 0 without a rigidbody) still moves faster than the stop threshold. */
  predicate BrakeContinues(elapsed: real, maxBrakeTime: real, speed: real, stopSpeedThreshold: real)
  {
    elapsed < maxBrakeTime && speed > stopSpeedThreshold
  }

  class CarEnterExit {
    const carController: WheelCarController?
    const aiDriver: CarAIDriver?
    const driverState: CarDriverState?
    const hasPlayerRoot: bool
    /** `playerRoot.activeSelf`. */
    var playerActive: bool
    const hasRigidbody: bool
    /** The car camera's active flag; None when no car camera is assigned. */
    var carCameraActive: Option<bool>

    const postExitBrake: real
    const stopSpeedThreshold: real
    const maxBrakeTime: real
    const maxEnterSpeed: real
    const maxExitSpeed: real
    const reenterBlockSeconds: real

    var inCar: bool
    var aiLockedOut: bool
    var playerInTrigger: bool
    var localEnterCooldownUntil: real
    /** The post-exit brake coroutine, as its elapsed brake time; None when it is not running. */
    var brakeElapsed: Option<real>
    /** The rigidbody carries the parked drag (set when the brake phase ends, cleared on entry). */
    var parked: bool

    constructor (carController: WheelCarController?, aiDriver: CarAIDriver?, driverState: CarDriverState?,
                 hasPlayerRoot: bool, hasRigidbody: bool, carCameraActive: Option<bool>,
                 postExitBrake: real, stopSpeedThreshold: real, maxBrakeTime: real,
                 maxEnterSpeed: real, maxExitSpeed: real, reenterBlockSeconds: real)
      ensures this.carController == carController && this.aiDriver == aiDriver && this.driverState == driverState
      ensures this.hasPlayerRoot == hasPlayerRoot && this.hasRigidbody == hasRigidbody
      ensures this.carCameraActive == carCameraActive && playerActive
      ensures this.postExitBrake == postExitBrake && this.stopSpeedThreshold == stopSpeedThreshold
      ensures this.maxBrakeTime == maxBrakeTime && this.maxEnterSpeed == maxEnterSpeed
      ensures this.maxExitSpeed == maxExitSpeed && this.reenterBlockSeconds == reenterBlockSeconds
      ensures !inCar && !aiLockedOut && !playerInTrigger && localEnterCooldownUntil == 0.0
      ensures brakeElapsed == None && !parked
    {
      this.carController := carController;
      this.aiDriver := aiDriver;
      this.driverState := driverState;
      this.hasPlayerRoot := hasPlayerRoot;
      this.hasRigidbody := hasRigidbody;
      this.carCameraActive := carCameraActive;
      playerActive := true;
      this.postExitBrake := postExitBrake;
      this.stopSpeedThreshold := stopSpeedThreshold;
      this.maxBrakeTime := maxBrakeTime;
      this.maxEnterSpeed := maxEnterSpeed;
      this.maxExitSpeed := maxExitSpeed;
      this.reenterBlockSeconds := reenterBlockSeconds;
      inCar := false;
      aiLockedOut := false;
      playerInTrigger := false;
      localEnterCooldownUntil := 0.0;
      brakeElapsed := None;
      parked := false;
    }

    /** The objects entering or leaving the car may change. */
    ghost function Footprint(): set<object>
    {
      {this}
      + (if carController != null then {carController} else {})
      + (if aiDriver != null then {aiDriver, aiDriver.car} else {})
      + (if driverState != null then {driverState} else {})
    }

    /** What entering or leaving may do to the other scripts of the car: the controller only
        changes its mode and inputs, the AI only its `enabled` flag (and its car's mode), and the
        driver state only its body flag. */
    twostate predicate KeepsCollaborators()
      reads Footprint()
    {
      && (carController != null ==> carController.OnlyModeAndInputsChanged())
      && (aiDriver != null ==> aiDriver.OnlyEnabledChanged() && aiDriver.car.OnlyModeAndInputsChanged())
      && (driverState != null ==> driverState.OnlyBodyChanged())
    }

    /** Awake: the car camera starts off, and an idle car ignores the player: External mode with
        cleared inputs. */
    method Awake()
      modifies this`carCameraActive, carController
      ensures carCameraActive == (if old(carCameraActive).Some? then Some(false) else None)
      ensures carController != null ==>
                carController.controlMode == External && carController.moveInput == 0.0
                && carController.steerInput == 0.0
      ensures carController != null ==> carController.OnlyModeAndInputsChanged()
    {
      if carCameraActive.Some? {
        carCameraActive := Some(false);
      }
      if carController != null {
        carController.SetControlMode(External);
        carController.SetExternalInputs(0.0, 0.0);
      }
    }

    /** OnTriggerEnter / OnTriggerExit: `isPlayer` says whether the collider belongs to the player. */
    method OnTrigger(isPlayer: bool, entering: bool)
      modifies this`playerInTrigger
      ensures hasPlayerRoot && isPlayer ==> playerInTrigger == entering
      ensures !(hasPlayerRoot && isPlayer) ==> playerInTrigger == old(playerInTrigger)
    {
      if !hasPlayerRoot {
        return;
      }
      if isPlayer {
        playerInTrigger := entering;
      }
    }

    /** Whether a press of the enter key may enter this car at time `now`. */
    predicate CanAttemptEnter(globals: EnterExitGlobals, now: real): (can: bool)
      reads this, globals
      ensures can ==> !inCar && globals.active == null
      ensures can ==> now >= MaxReal(localEnterCooldownUntil, globals.globalEnterCooldownUntil)
    {
      !inCar && playerInTrigger && globals.active == null
      && now >= localEnterCooldownUntil && now >= globals.globalEnterCooldownUntil
    }

    /** Update: `speed` is the rigidbody speed magnitude (treated as 0 without a rigidbody). */
    method Update(globals: EnterExitGlobals, weapon: WeaponGlobals, now: real, dt: real,
                  enterPressed: bool, exitPressed: bool, speed: real)
      returns (action: Action)
      requires 0.0 <= speed
      modifies Footprint(), globals, weapon
      ensures var s := if hasRigidbody then speed else 0.0;
              && (action == Entered <==>
                    hasPlayerRoot && carController != null && old(CanAttemptEnter(globals, now))
                    && enterPressed && s <= maxEnterSpeed)
              && (action == Exited <==>
                    hasPlayerRoot && carController != null && action != Entered
                    && old(inCar) && exitPressed && s <= maxExitSpeed)
      ensures action == Entered ==> old(globals.active) == null && globals.active == this && inCar
      ensures action == Exited ==> globals.active == null && !inCar
      ensures action == NoAction ==> unchanged(Footprint(), globals, weapon)
      ensures KeepsCollaborators()
      ensures old(aiLockedOut) ==> aiLockedOut
      ensures old(aiLockedOut) && aiDriver != null && !old(aiDriver.enabled) ==> !aiDriver.enabled
      ensures action == Entered ==> aiLockedOut
    {
      action := NoAction;
      if !hasPlayerRoot || carController == null {
        return;
      }
      var canAttemptEnter := CanAttemptEnter(globals, now);
      if canAttemptEnter && enterPressed {
        var s := if hasRigidbody then speed else 0.0;
        if s <= maxEnterSpeed {
          EnterCar(globals, weapon);
          action := Entered;
          return;
        }
      }
      if inCar && exitPressed {
        var s := if hasRigidbody then speed else 0.0;
        if s <= maxExitSpeed {
          ExitCar(globals, weapon, now, dt, speed);
          action := Exited;
          return;
        }
      }
    }

    /** EnterCar: take the global lock, lock the AI out for good, hand the car to the player,
        hide the NPC driver and the player body, lock the weapon, stop the post-exit brake and
        unpark. The input clearing happens in Player mode and so leaves the inputs as they were. */
    method EnterCar(globals: EnterExitGlobals, weapon: WeaponGlobals)
      modifies Footprint(), globals, weapon
      ensures !hasPlayerRoot || carController == null ==> unchanged(Footprint(), globals, weapon)
      ensures KeepsCollaborators()
      ensures hasPlayerRoot && carController != null ==>
                && globals.active == this && aiLockedOut && inCar && !playerActive
                && playerInTrigger == old(playerInTrigger) && localEnterCooldownUntil == old(localEnterCooldownUntil)
                && !weapon.gunIsReady && brakeElapsed == None
                && parked == (old(parked) && !hasRigidbody)
                && carController.controlMode == Player
                && carController.moveInput == old(carController.moveInput)
                && carController.steerInput == old(carController.steerInput)
                && (aiDriver != null ==> !aiDriver.enabled)
                && carCameraActive == (if old(carCameraActive).Some? then Some(true) else None)
                && globals.globalEnterCooldownUntil == old(globals.globalEnterCooldownUntil)
                && (driverState != null ==>
                      driverState.driverBodyActive == (if old(driverState.driverBodyActive).Some? then Some(false) else None))
    {
      if !hasPlayerRoot || carController == null {
        return;
      }
      EnterSeat(globals, weapon);
    }

    /** EnterCar past its guard. */
    method EnterSeat(globals: EnterExitGlobals, weapon: WeaponGlobals)
      requires hasPlayerRoot && carController != null
      modifies this`aiLockedOut, this`carCameraActive, this`playerActive, this`inCar, this`brakeElapsed, this`parked
      modifies globals`active, weapon`gunIsReady
      modifies carController`controlMode, carController`moveInput, carController`steerInput
      modifies (if aiDriver != null then {aiDriver} else {})`enabled, (if aiDriver != null then {aiDriver.car} else {})`controlMode
      modifies (if driverState != null then {driverState} else {})`driverBodyActive
      ensures KeepsCollaborators()
      ensures globals.active == this && aiLockedOut && inCar && !playerActive
      ensures !weapon.gunIsReady && brakeElapsed == None
      ensures parked == (old(parked) && !hasRigidbody)
      ensures carController.controlMode == Player
      ensures carController.moveInput == old(carController.moveInput)
      ensures carController.steerInput == old(carController.steerInput)
      ensures aiDriver != null ==> !aiDriver.enabled
      ensures carCameraActive == (if old(carCameraActive).Some? then Some(true) else None)
      ensures driverState != null ==>
                driverState.driverBodyActive == (if old(driverState.driverBodyActive).Some? then Some(false) else None)
    {
      TakeControl(globals);
      SeatPlayer(weapon, true);
      Unpark();
    }

    /** The player's side of entering (`seated`) or leaving: the car camera follows, the player
        body and the weapon are the other way round, and `inCar` follows on entry only. */
    method SeatPlayer(weapon: WeaponGlobals, seated: bool)
      modifies this`carCameraActive, this`playerActive, this`inCar, weapon`gunIsReady
      ensures carCameraActive == (if old(carCameraActive).Some? then Some(seated) else None)
      ensures playerActive == !seated && weapon.gunIsReady == !seated
      ensures inCar == (seated || old(inCar))
      ensures KeepsCollaborators()
    {
      if carCameraActive.Some? {
        carCameraActive := Some(seated);
      }
      weapon.gunIsReady := !seated;
      playerActive := !seated;
      if seated {
        inCar := true;
      }
    }

    /** The first part of EnterCar: take the global lock, lock the AI out for good, give the
        car to the player (the input clearing is ignored in Player mode) and hide the NPC driver. */
    method TakeControl(globals: EnterExitGlobals)
      requires carController != null
      modifies globals`active, this`aiLockedOut, carController`controlMode, carController`moveInput, carController`steerInput
      modifies (if aiDriver != null then {aiDriver} else {})`enabled, (if aiDriver != null then {aiDriver.car} else {})`controlMode
      modifies (if driverState != null then {driverState} else {})`driverBodyActive
      ensures globals.active == this && aiLockedOut
      ensures KeepsCollaborators()
      ensures driverState != null ==>
                driverState.driverBodyActive == (if old(driverState.driverBodyActive).Some? then Some(false) else None)
      ensures aiDriver != null ==> !aiDriver.enabled
      ensures aiDriver != null ==> aiDriver.OnlyEnabledChanged() && aiDriver.car.OnlyModeAndInputsChanged()
      ensures carController.OnlyModeAndInputsChanged()
      ensures carController.controlMode == Player
      ensures carController.moveInput == old(carController.moveInput)
      ensures carController.steerInput == old(carController.steerInput)
    {
      globals.active := this;
      aiLockedOut := true;
      if aiDriver != null {
        aiDriver.SetEnabled(false);
      }
      carController.SetControlMode(Player);
      carController.SetExternalInputs(0.0, 0.0);
      if driverState != null {
        driverState.HideDriverBody();
      }
    }

    /** The last part of EnterCar: stop the post-exit brake, restore the normal drag and take
        control once more. */
    method Unpark()
      requires carController != null
      modifies this`brakeElapsed, this`parked, carController`controlMode, carController`moveInput, carController`steerInput
      ensures brakeElapsed == None && parked == (old(parked) && !hasRigidbody)
      ensures carController.OnlyModeAndInputsChanged()
      ensures carController.controlMode == Player
      ensures carController.moveInput == old(carController.moveInput)
      ensures carController.steerInput == old(carController.steerInput)
      ensures KeepsCollaborators()
    {
      brakeElapsed := None;
      if hasRigidbody {
        parked := false;
      }
      carController.SetControlMode(Player);
      carController.SetExternalInputs(0.0, 0.0);
    }

    /** One resumption of PostExitBrakeThenPark: either another braking frame (brake input, no
        steering, elapsed time grows by `dt`), or the end: inputs neutral and, with a rigidbody,
        the car parked with its velocity zeroed (`parkedNow`). */
    method BrakeStep(speed: real, dt: real) returns (parkedNow: bool)
      requires brakeElapsed.Some? && carController != null
      modifies this`brakeElapsed, this`parked, carController`controlMode, carController`moveInput, carController`steerInput
      ensures var t := old(brakeElapsed).value;
              var s := if hasRigidbody then speed else 0.0;
              if BrakeContinues(t, maxBrakeTime, s, stopSpeedThreshold) then
                && brakeElapsed == Some(t + dt) && !parkedNow && parked == old(parked)
                && (old(carController.controlMode) == External ==>
                      carController.moveInput == -Clamp01(postExitBrake) && carController.steerInput == 0.0)
              else
                && brakeElapsed == None && parkedNow == hasRigidbody && parked == (hasRigidbody || old(parked))
                && (old(carController.controlMode) == External ==>
                      carController.moveInput == 0.0 && carController.steerInput == 0.0)
      ensures old(carController.controlMode) == External ==> -1.0 <= carController.moveInput <= 0.0
      ensures old(carController.controlMode) != External ==>
                carController.moveInput == old(carController.moveInput)
                && carController.steerInput == old(carController.steerInput)
      ensures carController.controlMode == old(carController.controlMode)
      ensures carController.OnlyModeAndInputsChanged()
    {
      var t := brakeElapsed.value;
      var s := if hasRigidbody then speed else 0.0;
      parkedNow := false;
      if BrakeContinues(t, maxBrakeTime, s, stopSpeedThreshold) {
        carController.SetExternalInputs(-Clamp01(postExitBrake), 0.0);
        brakeElapsed := Some(t + dt);
      } else {
        carController.SetExternalInputs(0.0, 0.0);
        if hasRigidbody {
          parked := true;
          parkedNow := true;
        }
        brakeElapsed := None;
      }
    }

    /** StartCoroutine(PostExitBrakeThenPark()): restart the coroutine and run it to its first yield. */
    method RestartBrake(speed: real, dt: real) returns (parkedNow: bool)
      requires carController != null
      modifies this`brakeElapsed, this`parked, carController`controlMode, carController`moveInput, carController`steerInput
      ensures var s := if hasRigidbody then speed else 0.0;
              if BrakeContinues(0.0, maxBrakeTime, s, stopSpeedThreshold) then
                brakeElapsed == Some(dt) && !parkedNow && parked == old(parked)
              else
                brakeElapsed == None && parkedNow == hasRigidbody && parked == (hasRigidbody || old(parked))
      ensures var s := if hasRigidbody then speed else 0.0;
              old(carController.controlMode) == External ==>
                carController.moveInput == (if BrakeContinues(0.0, maxBrakeTime, s, stopSpeedThreshold)
                                            then -Clamp01(postExitBrake) else 0.0)
                && carController.steerInput == 0.0
      ensures carController.controlMode == old(carController.controlMode)
      ensures carController.OnlyModeAndInputsChanged()
    {
      brakeElapsed := Some(0.0);
      parkedNow := BrakeStep(speed, dt);
    }

    /** The last step of ExitCar: External mode with the inputs cleared, then the brake
        coroutine restarted from the beginning. */
    method ResumeBraking(speed: real, dt: real) returns (parkedNow: bool)
      requires carController != null
      modifies this`brakeElapsed, this`parked, carController`controlMode, carController`moveInput, carController`steerInput
      ensures var s := if hasRigidbody then speed else 0.0;
              var braking := BrakeContinues(0.0, maxBrakeTime, s, stopSpeedThreshold);
              && carController.controlMode == External
              && carController.moveInput == (if braking then -Clamp01(postExitBrake) else 0.0)
              && carController.steerInput == 0.0
              && brakeElapsed == (if braking then Some(dt) else None)
              && parked == (if braking then old(parked) else hasRigidbody || old(parked))
              && parkedNow == (!braking && hasRigidbody)
      ensures carController.OnlyModeAndInputsChanged()
      ensures KeepsCollaborators()
    {
      carController.SetControlMode(External);
      carController.SetExternalInputs(0.0, 0.0);
      parkedNow := RestartBrake(speed, dt);
    }

    /** The hand-back part of ExitCar: an AI that was never locked out takes over in External
        mode with cleared inputs; otherwise the car goes to External mode and a first brake
        coroutine starts, which parks it at once (`firstParked`) when it is already slow enough
        and has a rigidbody. */
    method HandBack(speed: real, dt: real) returns (firstParked: bool)
      requires carController != null
      modifies this`brakeElapsed, this`parked, carController`controlMode, carController`moveInput, carController`steerInput
      modifies (if aiDriver != null then {aiDriver} else {})`enabled, (if aiDriver != null then {aiDriver.car} else {})`controlMode
      ensures carController.controlMode == External
      ensures aiDriver != null ==> aiDriver.OnlyEnabledChanged() && aiDriver.car.OnlyModeAndInputsChanged()
      ensures carController.OnlyModeAndInputsChanged()
      ensures aiDriver != null && !aiLockedOut ==> aiDriver.enabled && !firstParked && brakeElapsed == old(brakeElapsed)
      ensures aiDriver != null && aiLockedOut ==> aiDriver.enabled == old(aiDriver.enabled)
      ensures !(aiDriver != null && !aiLockedOut) ==>
                brakeElapsed == (if BrakeContinues(0.0, maxBrakeTime, if hasRigidbody then speed else 0.0, stopSpeedThreshold)
                                 then Some(dt) else None)
      ensures firstParked ==>
                hasRigidbody && parked
                && !BrakeContinues(0.0, maxBrakeTime, if hasRigidbody then speed else 0.0, stopSpeedThreshold)
      ensures !firstParked ==> parked == old(parked)
      ensures KeepsCollaborators()
    {
      firstParked := false;
      if aiDriver != null && !aiLockedOut {
        aiDriver.SetEnabled(true);
        carController.SetControlMode(External);
        carController.SetExternalInputs(0.0, 0.0);
      } else {
        carController.SetControlMode(External);
        firstParked := RestartBrake(speed, dt);
      }
    }

    /** The release part of ExitCar: out of the car, the global lock freed, both cooldowns
        started and the trigger flag cleared until physics reports the player again. */
    method Release(globals: EnterExitGlobals, now: real)
      modifies this`inCar, this`localEnterCooldownUntil, this`playerInTrigger
      modifies globals`active, globals`globalEnterCooldownUntil
      ensures !inCar && globals.active == null && !playerInTrigger
      ensures localEnterCooldownUntil == now + reenterBlockSeconds
      ensures globals.globalEnterCooldownUntil == now + reenterBlockSeconds
      ensures KeepsCollaborators()
    {
      inCar := false;
      globals.active := null;
      localEnterCooldownUntil := now + reenterBlockSeconds;
      globals.globalEnterCooldownUntil := now + reenterBlockSeconds;
      playerInTrigger := false;
    }

    /** ExitCar: the player body returns with the weapon ready; an AI that was never locked out
        takes over again, otherwise a first brake coroutine starts. Then the lock is released,
        both cooldowns start, and the brake coroutine is restarted with inputs cleared. The
        second start sees a zero speed when the first one already parked the car. */
    method ExitCar(globals: EnterExitGlobals, weapon: WeaponGlobals, now: real, dt: real, speed: real)
      requires 0.0 <= speed
      modifies Footprint(), globals, weapon
      ensures !hasPlayerRoot || carController == null ==> unchanged(Footprint(), globals, weapon)
      ensures KeepsCollaborators()
      ensures hasPlayerRoot && carController != null ==>
                var s := if hasRigidbody then speed else 0.0;
                var braking := BrakeContinues(0.0, maxBrakeTime, s, stopSpeedThreshold);
                && !inCar && globals.active == null && playerActive && weapon.gunIsReady
                && !playerInTrigger
                && localEnterCooldownUntil == now + reenterBlockSeconds
                && globals.globalEnterCooldownUntil == now + reenterBlockSeconds
                && carController.controlMode == External
                && carController.moveInput == (if braking then -Clamp01(postExitBrake) else 0.0)
                && carController.steerInput == 0.0
                && brakeElapsed == (if braking then Some(dt) else None)
                && parked == (if braking then old(parked) else hasRigidbody || old(parked))
                && aiLockedOut == old(aiLockedOut)
                && (aiDriver != null && !aiLockedOut ==> aiDriver.enabled)
                && (aiDriver != null && aiLockedOut ==> aiDriver.enabled == old(aiDriver.enabled))
                && carCameraActive == (if old(carCameraActive).Some? then Some(false) else None)
      ensures driverState != null ==> unchanged(driverState)
    {
      if !hasPlayerRoot || carController == null {
        return;
      }
      LeaveSeat(globals, weapon, now, dt, speed);
    }

    /** ExitCar past its guard. */
    method LeaveSeat(globals: EnterExitGlobals, weapon: WeaponGlobals, now: real, dt: real, speed: real)
      requires 0.0 <= speed && hasPlayerRoot && carController != null
      modifies this`carCameraActive, this`playerActive, this`inCar, this`localEnterCooldownUntil
      modifies this`playerInTrigger, this`brakeElapsed, this`parked
      modifies globals`active, globals`globalEnterCooldownUntil, weapon`gunIsReady
      modifies carController`controlMode, carController`moveInput, carController`steerInput
      modifies (if aiDriver != null then {aiDriver} else {})`enabled, (if aiDriver != null then {aiDriver.car} else {})`controlMode
      ensures KeepsCollaborators()
      ensures var s := if hasRigidbody then speed else 0.0;
              var braking := BrakeContinues(0.0, maxBrakeTime, s, stopSpeedThreshold);
              && !inCar && globals.active == null && playerActive && weapon.gunIsReady
              && !playerInTrigger
              && localEnterCooldownUntil == now + reenterBlockSeconds
              && globals.globalEnterCooldownUntil == now + reenterBlockSeconds
              && carController.controlMode == External
              && carController.moveInput == (if braking then -Clamp01(postExitBrake) else 0.0)
              && carController.steerInput == 0.0
              && brakeElapsed == (if braking then Some(dt) else None)
              && parked == (if braking then old(parked) else hasRigidbody || old(parked))
              && (aiDriver != null && !aiLockedOut ==> aiDriver.enabled)
              && (aiDriver != null && aiLockedOut ==> aiDriver.enabled == old(aiDriver.enabled))
              && carCameraActive == (if old(carCameraActive).Some? then Some(false) else None)
    {
      SeatPlayer(weapon, false);
      var firstParked := HandBack(speed, dt);
      ReleaseAndBrake(globals, now, if firstParked then 0.0 else speed, dt);
    }

    /** The end of ExitCar: release the car, then clear its inputs and restart the brake
        coroutine, which sees the given `speed`. */
    method ReleaseAndBrake(globals: EnterExitGlobals, now: real, speed: real, dt: real)
      requires carController != null
      modifies this`inCar, this`localEnterCooldownUntil, this`playerInTrigger, this`brakeElapsed, this`parked
      modifies globals`active, globals`globalEnterCooldownUntil
      modifies carController`controlMode, carController`moveInput, carController`steerInput
      ensures KeepsCollaborators()
      ensures !inCar && globals.active == null && !playerInTrigger
      ensures localEnterCooldownUntil == now + reenterBlockSeconds
      ensures globals.globalEnterCooldownUntil == now + reenterBlockSeconds
      ensures var s := if hasRigidbody then speed else 0.0;
              var braking := BrakeContinues(0.0, maxBrakeTime, s, stopSpeedThreshold);
              && carController.controlMode == External
              && carController.moveInput == (if braking then -Clamp01(postExitBrake) else 0.0)
              && carController.steerInput == 0.0
              && brakeElapsed == (if braking then Some(dt) else None)
              && parked == (if braking then old(parked) else hasRigidbody || old(parked))
    {
      Release(globals, now);
      var parkedNow := ResumeBraking(speed, dt);
    }
  }
}
