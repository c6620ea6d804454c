/** PlayerVehicleInteractor and VehicleSeat: an on-foot player near a vehicle seat can press the
    interact key to sit in it (the seat's camera and controller take over) and press it again
    to step out beside the vehicle. */
module VehicleInteraction {
  import opened UnityMath

  class VehicleSeat {
    const position: Vec3
    /** The vehicle's right axis. */
    const right: Vec3
    /** Where the player sits; None when no seat transform is assigned. */
    const seatPose: Option<Vec3>
    /** The seat's camera and driving script `enabled` flags; None when not assigned. */
    var carCameraEnabled: Option<bool>
    var vehicleControllerEnabled: Option<bool>

    constructor (position: Vec3, right: Vec3, seatPose: Option<Vec3>, hasCamera: bool, hasController: bool)
      ensures this.position == position && this.right == right && this.seatPose == seatPose
      ensures carCameraEnabled == (if hasCamera then Some(false) else None)
      ensures vehicleControllerEnabled == (if hasController then Some(false) else None)
    {
      this.position := position;
      this.right := right;
      this.seatPose := seatPose;
      carCameraEnabled := if hasCamera then Some(false) else None;
      vehicleControllerEnabled := if hasController then Some(false) else None;
    }

    /** Whether the seat's camera and controller (where present) are on. */
    predicate ControlsOn(on: bool)
      reads this
    {
      (carCameraEnabled.Some? ==> carCameraEnabled.value == on)
      && (vehicleControllerEnabled.Some? ==> vehicleControllerEnabled.value == on)
    }

    /** SetOccupied: the camera and the driving script follow the occupancy. */
    method SetOccupied(isOccupied: bool)
      modifies this
      ensures ControlsOn(isOccupied)
      ensures carCameraEnabled.Some? == old(carCameraEnabled).Some?
      ensures vehicleControllerEnabled.Some? == old(vehicleControllerEnabled).Some?
    {
      if isOccupied {
        if carCameraEnabled.Some? {
          carCameraEnabled := Some(true);
        }
        if vehicleControllerEnabled.Some? {
          vehicleControllerEnabled := Some(true);
        }
      } else {
        if vehicleControllerEnabled.Some? {
          vehicleControllerEnabled := Some(false);
        }
        if carCameraEnabled.Some? {
          carCameraEnabled := Some(false);
        }
      }
    }
  }

  /** `seats[k]` is the seat the scan picks: present, strictly nearer than every earlier seat and
      no farther than every later one (squared 3D distance). */
  ghost predicate IsNearestSeat(seats: seq<VehicleSeat?>, pos: Vec3, k: int)
    reads seats
  {
    && 0 <= k < |seats| && seats[k] != null
    && (forall j :: 0 <= j < k && seats[j] != null ==>
          Dist2(seats[k].position, pos) < Dist2(seats[j].position, pos))
    && (forall j :: k < j < |seats| && seats[j] != null ==>
          Dist2(seats[k].position, pos) <= Dist2(seats[j].position, pos))
  }

  /** The nearest seat among the overlap hits. `seats[i]` is the VehicleSeat found on hit i's
      collider or, failing that, on its parents (null when neither has one). */
  method NearestSeat(seats: seq<VehicleSeat?>, pos: Vec3) returns (nearest: VehicleSeat?)
    ensures nearest == null <==> forall j :: 0 <= j < |seats| ==> seats[j] == null
    ensures nearest != null ==> exists k :: IsNearestSeat(seats, pos, k) && seats[k] == nearest
  {
    nearest := null;
    var bestK := -1;
    var nearestDist: real := 0.0;  // stands for the initial float.MaxValue while nearest == null
    var i := 0;
    while i < |seats|
      invariant 0 <= i <= |seats|
      invariant (nearest == null) == (bestK == -1)
      invariant nearest == null ==> forall j :: 0 <= j < i ==> seats[j] == null
      invariant nearest != null ==>
        && 0 <= bestK < i && seats[bestK] == nearest
        && nearestDist == Dist2(nearest.position, pos)
        && (forall j :: 0 <= j < bestK && seats[j] != null ==> nearestDist < Dist2(seats[j].position, pos))
        && (forall j :: bestK < j < i && seats[j] != null ==> nearestDist <= Dist2(seats[j].position, pos))
    {
      var seat := seats[i];
      if seat != null {
        var d := Dist2(seat.position, pos);
        if nearest == null || d < nearestDist {
          nearestDist := d;
          nearest := seat;
          bestK := i;
        }
      }
      i := i + 1;
    }
    if nearest != null {
      assert IsNearestSeat(seats, pos, bestK);
    }
  }

  /** Where the player steps out: `offset` along the vehicle's right axis, at the player's own height. */
  function ExitPosition(vehiclePos: Vec3, vehicleRight: Vec3, offset: real, playerPos: Vec3): (p: Vec3)
    ensures p.y == playerPos.y
    ensures p.x - vehiclePos.x == offset * vehicleRight.x && p.z - vehiclePos.z == offset * vehicleRight.z
  {
    var exitPos := Add(vehiclePos, Scale(vehicleRight, offset));
    Vec3(exitPos.x, playerPos.y, exitPos.z)
  }

  class PlayerVehicleInteractor {
    var position: Vec3
    const exitOffset: real
    /** The first-person camera's `enabled`; None when not assigned. */
    var firstPersonCameraEnabled: Option<bool>
    /** Movement scripts, character controller and model root, switched together. */
    var playerActive: bool
    /** The enter prompt's active flag; None when no prompt is assigned. */
    var enterPromptActive: Option<bool>
    var currentVehicle: VehicleSeat?
    var inVehicle: bool

    ghost predicate Valid()
      reads this
    {
      inVehicle <==> currentVehicle != null
    }

    constructor (position: Vec3, exitOffset: real, hasCamera: bool, hasPrompt: bool)
      ensures Valid()
      ensures this.position == position && this.exitOffset == exitOffset
      ensures firstPersonCameraEnabled == (if hasCamera then Some(true) else None)
      ensures enterPromptActive == (if hasPrompt then Some(false) else None)
      ensures playerActive && !inVehicle && currentVehicle == null
    {
      this.position := position;
      this.exitOffset := exitOffset;
      firstPersonCameraEnabled := if hasCamera then Some(true) else None;
      enterPromptActive := if hasPrompt then Some(false) else None;
      playerActive := true;
      currentVehicle := null;
      inVehicle := false;
    }

    /** Update: look for the nearest seat while on foot, show the prompt when one is found, and on
        the interact key enter that seat, or leave the current vehicle. */
    method Update(seats: seq<VehicleSeat?>, interactPressed: bool) returns (nearest: VehicleSeat?)
      requires Valid()
      modifies this, seats, currentVehicle
      ensures Valid()
      ensures old(inVehicle) ==> nearest == null
      ensures !old(inVehicle) ==>
                && (nearest == null <==> forall j :: 0 <= j < |seats| ==> seats[j] == null)
                && (nearest != null ==> exists k :: IsNearestSeat(seats, old(position), k) && seats[k] == nearest)
      ensures enterPromptActive.Some? == old(enterPromptActive).Some?
      ensures enterPromptActive.Some? ==> enterPromptActive.value == (!old(inVehicle) && nearest != null)
      ensures interactPressed && !old(inVehicle) && nearest != null ==>
                && inVehicle && currentVehicle == nearest && !playerActive && nearest.ControlsOn(true)
                && position == (if nearest.seatPose.Some? then nearest.seatPose.value else old(position))
                && firstPersonCameraEnabled == (if old(firstPersonCameraEnabled).Some? then Some(false) else None)
      ensures interactPressed && old(inVehicle) ==>
                && !inVehicle && playerActive && old(currentVehicle).ControlsOn(false)
                && position == ExitPosition(old(currentVehicle).position, old(currentVehicle).right, exitOffset, old(position))
                && firstPersonCameraEnabled == (if old(firstPersonCameraEnabled).Some? then Some(true) else None)
      ensures !interactPressed || (!old(inVehicle) && nearest == null) ==>
                inVehicle == old(inVehicle) && currentVehicle == old(currentVehicle)
                && playerActive == old(playerActive) && position == old(position)
                && firstPersonCameraEnabled == old(firstPersonCameraEnabled)
      ensures forall s :: s in seats && s != null && !(interactPressed && (s == nearest || s == old(currentVehicle))) ==>
                unchanged(s)
      ensures !interactPressed && old(currentVehicle) != null ==> unchanged(old(currentVehicle))
    {
      nearest := null;
      if !inVehicle {
        nearest := NearestSeat(seats, position);
      }
      if enterPromptActive.Some? {
        enterPromptActive := Some(!inVehicle && nearest != null);
      }
      if interactPressed {
        if !inVehicle && nearest != null {
          EnterVehicle(nearest);
        } else if inVehicle && currentVehicle != null {
          ExitVehicle();
        }
      }
    }

    /** EnterVehicle: freeze the player, snap to the seat, hand over to the vehicle. */
    method EnterVehicle(vehicle: VehicleSeat)
      requires Valid()
      modifies this, vehicle
      ensures Valid()
      ensures old(inVehicle) ==> unchanged(this) && unchanged(vehicle)
      ensures !old(inVehicle) ==>
                && inVehicle && currentVehicle == vehicle && !playerActive
                && vehicle.ControlsOn(true)
                && position == (if vehicle.seatPose.Some? then vehicle.seatPose.value else old(position))
                && firstPersonCameraEnabled == (if old(firstPersonCameraEnabled).Some? then Some(false) else None)
                && enterPromptActive == old(enterPromptActive)
    {
      if inVehicle {
        return;
      }
      playerActive := false;
      if vehicle.seatPose.Some? {
        position := vehicle.seatPose.value;
      }
      vehicle.SetOccupied(true);
      if firstPersonCameraEnabled.Some? {
        firstPersonCameraEnabled := Some(false);
      }
      currentVehicle := vehicle;
      inVehicle := true;
    }

    /** ExitVehicle: step out `exitOffset` along the vehicle's right axis, keeping the height. */
    method ExitVehicle()
      requires Valid()
      modifies this, currentVehicle
      ensures Valid()
      ensures !old(inVehicle) ==> unchanged(this)
      ensures old(inVehicle) ==>
                && !inVehicle && currentVehicle == null && playerActive
                && old(currentVehicle).ControlsOn(false)
                && position == ExitPosition(old(currentVehicle).position, old(currentVehicle).right, exitOffset, old(position))
                && firstPersonCameraEnabled == (if old(firstPersonCameraEnabled).Some? then Some(true) else None)
                && enterPromptActive == old(enterPromptActive)
    {
      if !inVehicle || currentVehicle == null {
        return;
      }
      position := ExitPosition(currentVehicle.position, currentVehicle.right, exitOffset, position);
      if firstPersonCameraEnabled.Some? {
        firstPersonCameraEnabled := Some(true);
      }
      currentVehicle.SetOccupied(false);
      playerActive := true;
      currentVehicle := null;
      inVehicle := false;
    }
  }
}
