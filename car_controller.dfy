/** WheelCarController: raycast suspension on up to four wheels, a ground check, and the
    drive / brake / steer / drag forces of one physics step. Raycasts, rigidbody velocities
    and the turning curve are inputs; applied forces are returned as records. */
module WheelCar {
  import opened UnityMath

  datatype ControlMode = Player | External

  /** The forces Movement applies in one step; `None` means that force is not applied.
      `drive` and `brake` are accelerations along the car's forward and backward axes,
      `steerTorque` a yaw acceleration, `drag` a sideways acceleration. */
  datatype Forces = Forces(drive: Option<real>, brake: Option<real>,
                           steerTorque: Option<real>, drag: Option<real>)

  /** Spring compression from a probe hit: clamp01((rest - (hit - radius)) / max(0.0001, travel)). */
  function SpringCompression(hitDistance: real, restLength: real, wheelRadius: real, springTravel: real): (c: real)
    ensures 0.0 <= c <= 1.0
    ensures springTravel >= 0.0001 && 0.0 <= restLength - (hitDistance - wheelRadius) <= springTravel ==>
              c * springTravel == restLength - (hitDistance - wheelRadius)
    ensures hitDistance - wheelRadius >= restLength ==> c == 0.0
  {
    var currentSpringLength := hitDistance - wheelRadius;
    Clamp01((restLength - currentSpringLength) / MaxReal(0.0001, springTravel))
  }

  /** A probe that hits nearer never compresses the spring less. */
  lemma SpringCompressionMonotone(h1: real, h2: real, restLength: real, wheelRadius: real, springTravel: real)
    requires h1 <= h2
    ensures SpringCompression(h1, restLength, wheelRadius, springTravel)
            >= SpringCompression(h2, restLength, wheelRadius, springTravel)
  {
    var d := MaxReal(0.0001, springTravel);
    var a := (restLength - (h1 - wheelRadius)) / d;
    var b := (restLength - (h2 - wheelRadius)) / d;
    assert restLength - (h1 - wheelRadius) >= restLength - (h2 - wheelRadius);
    assert a >= b by {
      assert a - b == ((restLength - (h1 - wheelRadius)) - (restLength - (h2 - wheelRadius))) / d;
    }
  }

  /** carVelocityRatio: forward local speed over max(1, maxSpeed), clamped to [-1, 1]. */
  function VelocityRatio(localForwardSpeed: real, maxSpeed: real): (r: real)
    ensures -1.0 <= r <= 1.0
    ensures r >= 0.0 <==> localForwardSpeed >= 0.0
    ensures r == 0.0 <==> localForwardSpeed == 0.0
    ensures AbsReal(localForwardSpeed) <= MaxReal(1.0, maxSpeed) ==>
              r * MaxReal(1.0, maxSpeed) == localForwardSpeed
  {
    Clamp(localForwardSpeed / MaxReal(1.0, maxSpeed), -1.0, 1.0)
  }

  /** The sum GroundCheck accumulates. */
  function SumFlags(s: seq<int>): int
  {
    if s == [] then 0 else SumFlags(s[..|s| - 1]) + s[|s| - 1]
  }

  /** The number of wheels whose flag is 1. */
  function CountGrounded(s: seq<int>): nat
  {
    if s == [] then 0 else CountGrounded(s[..|s| - 1]) + (if s[|s| - 1] == 1 then 1 else 0)
  }

  /** With 0/1 flags, the accumulated sum is the number of grounded wheels. */
  lemma {:induction false} SumFlagsCountsGrounded(s: seq<int>)
    requires forall i :: 0 <= i < |s| ==> s[i] == 0 || s[i] == 1
    ensures SumFlags(s) == CountGrounded(s)
  {
    if s != [] {
      SumFlagsCountsGrounded(s[..|s| - 1]);
    }
  }

  /** A snapshot of a car's physics state and tuning: everything but its mode and inputs. */
  datatype CarPhysics = CarPhysics(wheelsIsGrounded: array<int>, isGrounded: bool,
                                   springStiffness: real, damperStiffness: real, restLength: real,
                                   springTravel: real, wheelRadius: real, acceleration: real,
                                   maxSpeed: real, deceleration: real, steerStrength: real,
                                   dragCoefficient: real, velocity: Vec3, velocityRatio: real)

  class WheelCarController {
    var controlMode: ControlMode
    var moveInput: real
    var steerInput: real

    /** `int[] wheelsIsGrounded = new int[4]`. */
    var wheelsIsGrounded: array<int>
    var isGrounded: bool

    var springStiffness: real
    var damperStiffness: real
    var restLength: real
    var springTravel: real
    var wheelRadius: real
    var acceleration: real
    var maxSpeed: real
    var deceleration: real
    var steerStrength: real
    var dragCoefficient: real

    var currentCarLocalVelocity: Vec3
    var carVelocityRatio: real

    ghost predicate Valid()
      reads this, wheelsIsGrounded
    {
      && wheelsIsGrounded.Length == 4
      && (forall i :: 0 <= i < 4 ==> wheelsIsGrounded[i] == 0 || wheelsIsGrounded[i] == 1)
    }

    /** Every field other than the control mode and the two inputs. */
    ghost function Physics(): CarPhysics
      reads this
    {
      CarPhysics(wheelsIsGrounded, isGrounded, springStiffness, damperStiffness, restLength, springTravel,
                 wheelRadius, acceleration, maxSpeed, deceleration, steerStrength, dragCoefficient,
                 currentCarLocalVelocity, carVelocityRatio)
    }

    /** Between the two states only the control mode and the two inputs may have changed: what the
        other scripts driving this car touch. */
    twostate predicate OnlyModeAndInputsChanged()
      reads this
    {
      Physics() == old(Physics())
    }

    constructor (springStiffness: real, damperStiffness: real, restLength: real, springTravel: real,
                 wheelRadius: real, acceleration: real, maxSpeed: real, deceleration: real,
                 steerStrength: real, dragCoefficient: real)
      ensures Valid() && fresh(wheelsIsGrounded)
      ensures controlMode == Player && moveInput == 0.0 && steerInput == 0.0 && !isGrounded
      ensures wheelsIsGrounded[..] == [0, 0, 0, 0]
      ensures this.maxSpeed == maxSpeed && this.restLength == restLength && this.springTravel == springTravel
      ensures this.wheelRadius == wheelRadius && this.springStiffness == springStiffness
      ensures this.damperStiffness == damperStiffness && this.acceleration == acceleration
      ensures this.deceleration == deceleration && this.steerStrength == steerStrength
      ensures this.dragCoefficient == dragCoefficient
    {
      controlMode := Player;
      moveInput, steerInput := 0.0, 0.0;
      wheelsIsGrounded := new int[4](_ => 0);
      isGrounded := false;
      this.springStiffness := springStiffness;
      this.damperStiffness := damperStiffness;
      this.restLength := restLength;
      this.springTravel := springTravel;
      this.wheelRadius := wheelRadius;
      this.acceleration := acceleration;
      this.maxSpeed := maxSpeed;
      this.deceleration := deceleration;
      this.steerStrength := steerStrength;
      this.dragCoefficient := dragCoefficient;
      currentCarLocalVelocity := Vec3(0.0, 0.0, 0.0);
      carVelocityRatio := 0.0;
    }

    method SetControlMode(mode: ControlMode)
      modifies this`controlMode
      ensures controlMode == mode
      ensures OnlyModeAndInputsChanged()
    {
      controlMode := mode;
    }

    /** Accepted only in External mode; both inputs are clamped to [-1, 1]. */
    method SetExternalInputs(throttle: real, steer: real)
      modifies this`moveInput, this`steerInput
      ensures OnlyModeAndInputsChanged()
      ensures old(controlMode) == External ==>
                moveInput == Clamp(throttle, -1.0, 1.0) && steerInput == Clamp(steer, -1.0, 1.0)
      ensures old(controlMode) == External ==> -1.0 <= Steer01() <= 1.0
      ensures old(controlMode) != External ==>
                moveInput == old(moveInput) && steerInput == old(steerInput)
    {
      if controlMode != External {
        return;
      }
      moveInput := Clamp(throttle, -1.0, 1.0);
      steerInput := Clamp(steer, -1.0, 1.0);
    }

    /** The steering command shown to wheel visuals. */
    function Steer01(): (steer: real)
      reads this
      ensures steer == steerInput
    {
      steerInput
    }

    /** Update: in Player mode the inputs come from the input axes (each in [-1, 1]). */
    method PollPlayerInput(vertical: real, horizontal: real)
      modifies this`moveInput, this`steerInput
      ensures controlMode == Player ==> moveInput == vertical && steerInput == horizontal
      ensures controlMode != Player ==> moveInput == old(moveInput) && steerInput == old(steerInput)
    {
      if controlMode == Player {
        moveInput := vertical;
        steerInput := horizontal;
      }
    }

    /** The net spring force at one ray point, or None when its probe missed. */
    function SpringForce(hit: Option<real>, springVelocity: real): (force: Option<real>)
      reads this
      ensures force.Some? <==> hit.Some?
      ensures hit.Some? && springVelocity == 0.0 && springStiffness >= 0.0 ==> 0.0 <= force.value <= springStiffness
    {
      if hit.Some?
      then Some(springStiffness * SpringCompression(hit.value, restLength, wheelRadius, springTravel)
                - damperStiffness * springVelocity)
      else None
    }

    /** Suspension: for ray point i, `hits[i]` is the probe's hit distance (None for no hit
        within rest + travel + radius) and `springVelocities[i]` the point velocity along the
        probe axis. Returns the net spring force applied at each ray point. */
    method Suspension(hits: seq<Option<real>>, springVelocities: seq<real>) returns (forces: seq<Option<real>>)
      requires Valid()
      requires |hits| <= wheelsIsGrounded.Length
      requires |springVelocities| == |hits|
      modifies wheelsIsGrounded
      ensures Valid()
      ensures |forces| == |hits|
      ensures forall i :: 0 <= i < |hits| ==> (wheelsIsGrounded[i] == 1 <==> hits[i].Some?)
      ensures forall i :: |hits| <= i < wheelsIsGrounded.Length ==> wheelsIsGrounded[i] == old(wheelsIsGrounded[i])
      ensures forall i :: 0 <= i < |hits| ==> forces[i] == SpringForce(hits[i], springVelocities[i])
      ensures forall i :: 0 <= i < |hits| ==> (forces[i].Some? <==> hits[i].Some?)
    {
      forces := [];
      var i := 0;
      while i < |hits|
        invariant 0 <= i <= |hits|
        invariant |forces| == i
        invariant Valid()
        invariant forall k :: 0 <= k < i ==> (wheelsIsGrounded[k] == 1 <==> hits[k].Some?)
        invariant forall k :: i <= k < wheelsIsGrounded.Length ==> wheelsIsGrounded[k] == old(wheelsIsGrounded[k])
        invariant forall k :: 0 <= k < i ==> forces[k] == SpringForce(hits[k], springVelocities[k])
      {
        if hits[i].Some? {
          wheelsIsGrounded[i] := 1;
        } else {
          wheelsIsGrounded[i] := 0;
        }
        forces := forces + [SpringForce(hits[i], springVelocities[i])];
        i := i + 1;
      }
    }

    /** GroundCheck: grounded iff more than one wheel flag is set. */
    method GroundCheck()
      requires Valid()
      modifies this`isGrounded
      ensures isGrounded == (SumFlags(wheelsIsGrounded[..]) > 1)
      ensures isGrounded <==> CountGrounded(wheelsIsGrounded[..]) > 1
    {
      var tempGroundedWheels := 0;
      var i := 0;
      while i < wheelsIsGrounded.Length
        invariant 0 <= i <= wheelsIsGrounded.Length
        invariant tempGroundedWheels == SumFlags(wheelsIsGrounded[..i])
      {
        assert wheelsIsGrounded[..i + 1][..i] == wheelsIsGrounded[..i];
        tempGroundedWheels := tempGroundedWheels + wheelsIsGrounded[i];
        i := i + 1;
      }
      assert wheelsIsGrounded[..i] == wheelsIsGrounded[..];
      SumFlagsCountsGrounded(wheelsIsGrounded[..]);
      isGrounded := tempGroundedWheels > 1;
    }

    /** CalculateCarVelocity: `localVelocity` is the rigidbody velocity in the car's local frame. */
    method CalculateCarVelocity(localVelocity: Vec3)
      modifies this`currentCarLocalVelocity, this`carVelocityRatio
      ensures currentCarLocalVelocity == localVelocity
      ensures carVelocityRatio == VelocityRatio(localVelocity.z, maxSpeed)
      ensures -1.0 <= carVelocityRatio <= 1.0
    {
      currentCarLocalVelocity := localVelocity;
      carVelocityRatio := VelocityRatio(localVelocity.z, maxSpeed);
    }

    /** Movement: the forces of one step. `forwardSpeed` is the velocity along the car's forward
        axis and `curve` the turning curve, evaluated at |carVelocityRatio|. */
    function Movement(forwardSpeed: real, curve: real -> real): (f: Forces)
      reads this
      ensures !isGrounded ==> f == Forces(None, None, None, None)
      ensures f.drive.Some? <==> isGrounded && moveInput > 0.0 && forwardSpeed < maxSpeed
      ensures f.brake.Some? <==> isGrounded && moveInput < 0.0
      ensures !(f.drive.Some? && f.brake.Some?)
      ensures f.drive.Some? ==> f.drive.value == acceleration * moveInput
      ensures f.brake.Some? ==> f.brake.value == deceleration * -moveInput
      ensures isGrounded ==> f.steerTorque.Some? && f.drag.Some?
      ensures isGrounded ==> f.drag.value == -currentCarLocalVelocity.x * dragCoefficient
    {
      if !isGrounded then Forces(None, None, None, None)
      else
        var drive := if moveInput > 0.0 && forwardSpeed < maxSpeed then Some(acceleration * moveInput) else None;
        var brake := if moveInput < 0.0 then Some(deceleration * -moveInput) else None;
        var torque := steerStrength * steerInput * curve(AbsReal(carVelocityRatio)) * Sign(carVelocityRatio);
        var dragMagnitude := -currentCarLocalVelocity.x * dragCoefficient;
        Forces(drive, brake, Some(torque), Some(dragMagnitude))
    }

    /** FixedUpdate: Suspension, GroundCheck, CalculateCarVelocity, then Movement. */
    method FixedUpdate(hits: seq<Option<real>>, springVelocities: seq<real>, localVelocity: Vec3,
                       forwardSpeed: real, curve: real -> real)
      returns (suspensionForces: seq<Option<real>>, forces: Forces)
      requires Valid()
      requires |hits| <= wheelsIsGrounded.Length
      requires |springVelocities| == |hits|
      modifies this`isGrounded, this`currentCarLocalVelocity, this`carVelocityRatio, wheelsIsGrounded
      ensures Valid()
      ensures |suspensionForces| == |hits|
      ensures forall i :: 0 <= i < |hits| ==> (wheelsIsGrounded[i] == 1 <==> hits[i].Some?)
      ensures isGrounded <==> CountGrounded(wheelsIsGrounded[..]) > 1
      ensures forces == Movement(forwardSpeed, curve)
      ensures !isGrounded ==> forces == Forces(None, None, None, None)
    {
      suspensionForces := Suspension(hits, springVelocities);
      GroundCheck();
      CalculateCarVelocity(localVelocity);
      forces := Movement(forwardSpeed, curve);
    }
  }

  /** Never more grounded wheels than flags; none when every flag is clear. */
  lemma {:induction false} CountGroundedBounds(s: seq<int>)
    ensures CountGrounded(s) <= |s|
    ensures (forall i :: 0 <= i < |s| ==> s[i] == 0) ==> CountGrounded(s) == 0
  {
    if s != [] {
      CountGroundedBounds(s[..|s| - 1]);
    }
  }
}
