/** CarAI: a waypoint-following traffic car that stops for the nearest junction that wants it
    to, and for any car whose back its front sensor touches. Steering (the rotation slerp) is
    left to the engine; the car's position is an input and the distance it travels is returned. */
module TrafficCar {
  import opened UnityMath
  import opened TrafficLightControl

  /** A controller the car may stop for: present, and reporting the car at its junction. */
  predicate IsCandidate(c: SimpleTrafficLightController?, atJunction: set<SimpleTrafficLightController>)
  {
    c != null && c in atJunction
  }

  /** `list[k]` is the controller GetNearestController returns: a candidate strictly nearer
      (in 3D) than every earlier candidate and no farther than every later one. */
  ghost predicate IsNearestController(list: seq<SimpleTrafficLightController?>,
                                      atJunction: set<SimpleTrafficLightController>, pos: Vec3, k: int)
    reads list
  {
    && 0 <= k < |list|
    && IsCandidate(list[k], atJunction)
    && (forall j :: 0 <= j < k && IsCandidate(list[j], atJunction) ==>
          Dist2(pos, list[k].position) < Dist2(pos, list[j].position))
    && (forall j :: k < j < |list| && IsCandidate(list[j], atJunction) ==>
          Dist2(pos, list[k].position) <= Dist2(pos, list[j].position))
  }

  /** The controllers GetNearestController scans: the registry, or every controller in the
      scene when the registry is empty. */
  function ControllerList(registry: JunctionRegistry, scene: seq<SimpleTrafficLightController?>)
    : (list: seq<SimpleTrafficLightController?>)
    reads registry
    ensures |registry.all| > 0 ==> list == registry.all
    ensures |registry.all| == 0 ==> list == scene
  {
    if |registry.all| > 0 then registry.all else scene
  }

  /** `best` is what the scan of `list` returns: null when no candidate exists, otherwise the
      nearest candidate with ties going to the first. */
  ghost predicate IsScanResult(list: seq<SimpleTrafficLightController?>,
                               atJunction: set<SimpleTrafficLightController>, pos: Vec3,
                               best: SimpleTrafficLightController?)
    reads list
  {
    && (best == null <==> forall j :: 0 <= j < |list| ==> !IsCandidate(list[j], atJunction))
    && (best != null ==> exists k :: IsNearestController(list, atJunction, pos, k) && list[k] == best)
  }

  /** The speed after one frame: toward zero at `brakeAccel` when stopping, toward the cruise
      speed at `accel` otherwise, never past the target. */
  function NextSpeed(current: real, mustStop: bool, cruise: real, accel: real, brakeAccel: real, dt: real): (v: real)
    ensures mustStop && 0.0 <= brakeAccel && 0.0 <= dt && 0.0 <= current ==> 0.0 <= v <= current
    ensures !mustStop && 0.0 <= accel && 0.0 <= dt && current <= cruise ==> current <= v <= cruise
    ensures !mustStop && 0.0 <= accel && 0.0 <= dt && cruise <= current ==> cruise <= v <= current
    ensures mustStop && AbsReal(current) <= brakeAccel * dt ==> v == 0.0
    ensures !mustStop && AbsReal(cruise - current) <= accel * dt ==> v == cruise
    ensures mustStop && 0.0 <= brakeAccel && 0.0 <= dt ==> AbsReal(v - current) <= brakeAccel * dt
    ensures !mustStop && 0.0 <= accel && 0.0 <= dt ==> AbsReal(v - current) <= accel * dt
  {
    if mustStop then MoveTowards(current, 0.0, brakeAccel * dt)
    else MoveTowards(current, cruise, accel * dt)
  }

  class CarAI {
    var waypoints: seq<Vec3>
    var currentIndex: int
    var waypointSwitchRadius: real
    var speed: real
    var accel: real
    var brakeAccel: real
    var currentSpeed: real
    /** Cars whose back this car's front sensor currently touches. */
    var frontBackContacts: set<CarAI?>

    ghost predicate Valid()
      reads this
    {
      0 <= currentIndex && (|waypoints| > 0 ==> currentIndex < |waypoints|)
    }

    /** Between the two states only the front-back contacts may have changed: what the sensors touch. */
    twostate predicate OnlyContactsChanged()
      reads this
    {
      && waypoints == old(waypoints) && currentIndex == old(currentIndex)
      && waypointSwitchRadius == old(waypointSwitchRadius) && speed == old(speed)
      && accel == old(accel) && brakeAccel == old(brakeAccel) && currentSpeed == old(currentSpeed)
    }

    constructor (waypoints: seq<Vec3>, waypointSwitchRadius: real, speed: real, accel: real, brakeAccel: real)
      ensures Valid()
      ensures this.waypoints == waypoints && this.waypointSwitchRadius == waypointSwitchRadius
      ensures this.speed == speed && this.accel == accel && this.brakeAccel == brakeAccel
      ensures currentIndex == 0 && currentSpeed == 0.0 && frontBackContacts == {}
    {
      this.waypoints := waypoints;
      this.waypointSwitchRadius := waypointSwitchRadius;
      this.speed := speed;
      this.accel := accel;
      this.brakeAccel := brakeAccel;
      currentIndex := 0;
      currentSpeed := 0.0;
      frontBackContacts := {};
    }

    method NotifyFrontBackEnter(other: CarAI?)
      modifies this`frontBackContacts
      ensures frontBackContacts == old(frontBackContacts) + {other}
      ensures HasFrontBackContact()
    {
      frontBackContacts := frontBackContacts + {other};
    }

    method NotifyFrontBackExit(other: CarAI?)
      modifies this`frontBackContacts
      ensures frontBackContacts == old(frontBackContacts) - {other}
      ensures other !in frontBackContacts
    {
      frontBackContacts := frontBackContacts - {other};
    }

    predicate HasFrontBackContact(): (held: bool)
      reads this
      ensures held <==> exists c :: c in frontBackContacts
    {
      |frontBackContacts| > 0
    }

    /** GetNearestController: scan the registry (or, when it is empty, every controller in the
        scene) for the nearest controller reporting the car at its junction; ties keep the first. */
    method GetNearestController(pos: Vec3, registry: JunctionRegistry, scene: seq<SimpleTrafficLightController?>,
                                atJunction: set<SimpleTrafficLightController>)
      returns (best: SimpleTrafficLightController?)
      ensures IsScanResult(ControllerList(registry, scene), atJunction, pos, best)
    {
      var list := ControllerList(registry, scene);
      best := null;
      var bestK := -1;
      var bestDist: real := 0.0;  // stands for +infinity while best == null
      var i := 0;
      while i < |list|
        invariant 0 <= i <= |list|
        invariant (best == null) == (bestK == -1)
        invariant best == null ==> forall j :: 0 <= j < i ==> !IsCandidate(list[j], atJunction)
        invariant best != null ==>
          && 0 <= bestK < i && list[bestK] == best && IsCandidate(best, atJunction)
          && bestDist == Dist2(pos, best.position)
          && (forall j :: 0 <= j < bestK && IsCandidate(list[j], atJunction) ==>
                bestDist < Dist2(pos, list[j].position))
          && (forall j :: bestK < j < i && IsCandidate(list[j], atJunction) ==>
                bestDist <= Dist2(pos, list[j].position))
      {
        var ctrl := list[i];
        if ctrl != null && ctrl in atJunction {
          var d := Dist2(pos, ctrl.position);
          if best == null || d < bestDist {
            bestDist := d;
            best := ctrl;
            bestK := i;
          }
        }
        i := i + 1;
      }
      if best != null {
        assert IsNearestController(list, atJunction, pos, bestK);
      }
    }

    /** Update: advance the waypoint when the car is within the switch radius of the current one
        (on the ground plane), decide whether to stop, and move the speed toward the cruise speed
        or toward zero. `pos` is the car's position, `dt` the frame time, `now` the clock;
        `nearest` is the controller consulted and `travelled` the distance moved forward. */
    method Update(pos: Vec3, dt: real, now: real, registry: JunctionRegistry,
                  scene: seq<SimpleTrafficLightController?>, atJunction: set<SimpleTrafficLightController>)
      returns (nearest: SimpleTrafficLightController?, mustStop: bool, travelled: real)
      requires Valid()
      modifies this`currentIndex, this`currentSpeed
      ensures Valid()
      ensures |waypoints| == 0 ==>
                currentIndex == old(currentIndex) && currentSpeed == old(currentSpeed)
                && nearest == null && !mustStop && travelled == 0.0
      ensures |waypoints| > 0 ==>
                currentIndex == (if DistLt(FlatDist2(pos, waypoints[old(currentIndex)]), waypointSwitchRadius)
                                 then (old(currentIndex) + 1) % |waypoints| else old(currentIndex))
      ensures |waypoints| > 0 ==> IsScanResult(ControllerList(registry, scene), atJunction, pos, nearest)
      ensures |waypoints| > 0 ==>
                mustStop == ((nearest != null && nearest.WantsStop(pos, old(currentSpeed), brakeAccel, now))
                             || HasFrontBackContact())
      ensures |waypoints| > 0 ==>
                currentSpeed == NextSpeed(old(currentSpeed), mustStop, speed, accel, brakeAccel, dt)
                && travelled == currentSpeed * dt
      ensures HasFrontBackContact() && |waypoints| > 0 ==> mustStop
    {
      nearest, mustStop, travelled := null, false, 0.0;
      if |waypoints| == 0 {
        return;
      }
      var target := waypoints[currentIndex];
      if DistLt(FlatDist2(pos, target), waypointSwitchRadius) {
        currentIndex := (currentIndex + 1) % |waypoints|;
      }
      nearest := GetNearestController(pos, registry, scene, atJunction);
      mustStop := DecideStop(pos, now, nearest);
      currentSpeed := NextSpeed(currentSpeed, mustStop, speed, accel, brakeAccel, dt);
      travelled := currentSpeed * dt;
    }
  
    /** The stop decision of Update: the nearest junction's verdict, or a car held in front. */
    method DecideStop(pos: Vec3, now: real, nearest: SimpleTrafficLightController?) returns (mustStop: bool)
      ensures mustStop == ((nearest != null && nearest.WantsStop(pos, currentSpeed, brakeAccel, now))
                           || HasFrontBackContact())
    {
      var mustStopForJunction := false;
      if nearest != null {
        mustStopForJunction := nearest.ShouldStopForCar(pos, currentSpeed, brakeAccel, now);
      }
      var mustStopForCar := HasFrontBackContact();
      mustStop := mustStopForJunction || mustStopForCar;
    }
  }
}
