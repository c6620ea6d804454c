/** SimpleTrafficLightController: a junction with N approach points, a green index that
    cycles once per `cycleTime`, a "green last occupied" timestamp for stop legs, and a
    process-wide registry of enabled controllers. */
module TrafficLightControl {
  import opened UnityMath

  /** Approach `i` exists (its Transform is not null) and the car stands within `radius` of it
      on the ground plane. */
  ghost predicate WithinApproach(lights: seq<Option<Vec3>>, pos: Vec3, radius: real, i: int)
  {
    0 <= i < |lights| && lights[i].Some? && DistLe(FlatDist2(pos, lights[i].value), radius)
  }

  function ApproachDist2(lights: seq<Option<Vec3>>, pos: Vec3, i: int): real
    requires 0 <= i < |lights| && lights[i].Some?
  {
    FlatDist2(pos, lights[i].value)
  }

  /** `i` is the approach the controller picks: within the radius, strictly nearer than every
      earlier qualifying approach and no farther than every later one (ties go to the lowest index). */
  ghost predicate IsNearestApproach(lights: seq<Option<Vec3>>, pos: Vec3, radius: real, i: int)
  {
    && WithinApproach(lights, pos, radius, i)
    && (forall j :: 0 <= j < i && WithinApproach(lights, pos, radius, j) ==>
          ApproachDist2(lights, pos, i) < ApproachDist2(lights, pos, j))
    && (forall j :: i < j < |lights| && WithinApproach(lights, pos, radius, j) ==>
          ApproachDist2(lights, pos, i) <= ApproachDist2(lights, pos, j))
  }

  /** What the scan knows after looking at the approaches before `i`: `atIdx` (-1 for none) is
      the nearest approach within `radius` among them and `bestD2` its squared distance. */
  ghost predicate ScanState(lights: seq<Option<Vec3>>, pos: Vec3, radius: real, i: int, atIdx: int, bestD2: real)
  {
    && 0 <= i <= |lights|
    && (atIdx == -1 ==> forall j :: 0 <= j < i ==> !WithinApproach(lights, pos, radius, j))
    && (atIdx != -1 ==>
          && 0 <= atIdx < i
          && WithinApproach(lights, pos, radius, atIdx)
          && bestD2 == ApproachDist2(lights, pos, atIdx)
          && (forall j :: 0 <= j < atIdx && WithinApproach(lights, pos, radius, j) ==>
                bestD2 < ApproachDist2(lights, pos, j))
          && (forall j :: atIdx < j < i && WithinApproach(lights, pos, radius, j) ==>
                bestD2 <= ApproachDist2(lights, pos, j)))
  }

  /** The loop of ShouldStopForCar that looks for the closest approach within `radius`:
      `atIdx` is the best index so far (-1 for none) and `bestD2` its squared distance. */
  function ScanApproaches(lights: seq<Option<Vec3>>, pos: Vec3, radius: real,
                          i: int, atIdx: int, bestD2: real): (r: int)
    requires ScanState(lights, pos, radius, i, atIdx, bestD2)
    ensures r == -1 <==> forall j :: 0 <= j < |lights| ==> !WithinApproach(lights, pos, radius, j)
    ensures r != -1 ==> IsNearestApproach(lights, pos, radius, r)
    decreases |lights| - i
  {
    if i == |lights| then atIdx
    else if lights[i].Some? && DistLe(FlatDist2(pos, lights[i].value), radius)
            && (atIdx == -1 || FlatDist2(pos, lights[i].value) < bestD2)
    then ScanApproaches(lights, pos, radius, i + 1, i, FlatDist2(pos, lights[i].value))
    else ScanApproaches(lights, pos, radius, i + 1, atIdx, bestD2)
  }

  function NearestApproach(lights: seq<Option<Vec3>>, pos: Vec3, radius: real): (r: int)
    ensures r == -1 <==> forall j :: 0 <= j < |lights| ==> !WithinApproach(lights, pos, radius, j)
    ensures r != -1 ==> IsNearestApproach(lights, pos, radius, r)
  {
    ScanApproaches(lights, pos, radius, 0, -1, 0.0)
  }

  /** At most one approach satisfies IsNearestApproach, so the picked approach is determined. */
  lemma NearestApproachUnique(lights: seq<Option<Vec3>>, pos: Vec3, radius: real, i: int, k: int)
    requires IsNearestApproach(lights, pos, radius, i)
    requires IsNearestApproach(lights, pos, radius, k)
    ensures i == k
  {
  }

  /** SimpleTrafficLightController.All: controllers register on enable and leave on disable. */
  class JunctionRegistry {
    var all: seq<SimpleTrafficLightController>

    ghost predicate Valid()
      reads this
    {
      NoDuplicates(all)
    }

    constructor ()
      ensures all == [] && Valid()
    {
      all := [];
    }
  }

  /** List.Remove: drop the first occurrence of `x`, if any. */
  function RemoveFirst<T(==)>(s: seq<T>, x: T): (r: seq<T>)
    ensures x !in s ==> r == s
    ensures x in s ==> |r| == |s| - 1
    ensures multiset(r) == multiset(s) - multiset{x}
  {
    if s == [] then []
    else
      assert s == [s[0]] + s[1..];
      if s[0] == x then s[1..]
      else [s[0]] + RemoveFirst(s[1..], x)
  }

  /** No entry appears twice. */
  ghost predicate NoDuplicates<T>(s: seq<T>)
  {
    forall i, j :: 0 <= i < j < |s| ==> s[i] != s[j]
  }

  /** A list with a new head is duplicate-free exactly when its tail is and does not hold the
      head. */
  lemma ConsNoDuplicates<T>(a: T, t: seq<T>)
    ensures NoDuplicates([a] + t) <==> a !in t && NoDuplicates(t)
  {
    var s := [a] + t;
    if NoDuplicates(s) {
      forall i, j | 0 <= i < j < |t| ensures t[i] != t[j] {
        assert s[i + 1] == t[i] && s[j + 1] == t[j];
      }
      forall m | 0 <= m < |t| ensures t[m] != a {
        assert s[0] == a && s[m + 1] == t[m];
      }
    }
    if a !in t && NoDuplicates(t) {
      forall i, j | 0 <= i < j < |s| ensures s[i] != s[j] {
        if i == 0 {
          assert s[j] == t[j - 1];
        } else {
          assert s[i] == t[i - 1] && s[j] == t[j - 1];
        }
      }
    }
  }

  /** Removing the one occurrence of `x` from a duplicate-free list leaves no `x` behind and
      keeps the list duplicate-free. */
  lemma {:induction false} RemoveFirstNoDuplicates<T>(s: seq<T>, x: T)
    requires NoDuplicates(s)
    ensures x !in RemoveFirst(s, x)
    ensures NoDuplicates(RemoveFirst(s, x))
  {
    if s != [] {
      assert s == [s[0]] + s[1..];
      ConsNoDuplicates(s[0], s[1..]);
      if s[0] != x {
        var rest := RemoveFirst(s[1..], x);
        RemoveFirstNoDuplicates(s[1..], x);
        assert multiset(rest) <= multiset(s[1..]);
        assert s[0] !in multiset(s[1..]);
        assert s[0] !in multiset(rest);
        ConsNoDuplicates(s[0], rest);
      }
    }
  }

  class SimpleTrafficLightController {
    /** Approach stop points; `None` stands for an unassigned Transform. */
    var lights: seq<Option<Vec3>>
    /** Per approach: true = STOP leg, false = normal light leg. May be missing. */
    var stopOnly: Option<seq<bool>>
    var cycleTime: real
    var stopRadius: real
    var graceAfterGreenClear: real
    /** The controller's own Transform position (used by cars to pick the nearest junction). */
    var position: Vec3

    var currentIndex: int
    var timer: real
    /** `None` stands for the initial value negative infinity. */
    var lastGreenOccupiedTime: Option<real>

    ghost predicate Valid()
      reads this
    {
      0 <= currentIndex && (|lights| > 0 ==> currentIndex < |lights|)
    }

    constructor (lights: seq<Option<Vec3>>, stopOnly: Option<seq<bool>>, cycleTime: real,
                 stopRadius: real, graceAfterGreenClear: real, position: Vec3)
      ensures Valid()
      ensures this.lights == lights && this.stopOnly == stopOnly && this.cycleTime == cycleTime
      ensures this.stopRadius == stopRadius && this.graceAfterGreenClear == graceAfterGreenClear
      ensures this.position == position
      ensures currentIndex == 0 && timer == 0.0 && lastGreenOccupiedTime == None
    {
      this.lights := lights;
      this.stopOnly := stopOnly;
      this.cycleTime := cycleTime;
      this.stopRadius := stopRadius;
      this.graceAfterGreenClear := graceAfterGreenClear;
      this.position := position;
      currentIndex := 0;
      timer := 0.0;
      lastGreenOccupiedTime := None;
    }

    /** OnEnable: add to the registry unless already present. */
    method OnEnable(registry: JunctionRegistry)
      requires registry.Valid()
      modifies registry
      ensures registry.Valid()
      ensures registry.all == if this in old(registry.all) then old(registry.all) else old(registry.all) + [this]
      ensures this in registry.all
    {
      if this !in registry.all {
        registry.all := registry.all + [this];
      }
    }

    /** OnDisable: remove from the registry. */
    method OnDisable(registry: JunctionRegistry)
      requires registry.Valid()
      modifies registry
      ensures registry.Valid()
      ensures registry.all == RemoveFirst(old(registry.all), this)
      ensures this !in registry.all
      ensures forall c :: c != this ==> (c in registry.all <==> c in old(registry.all))
    {
      RemoveFirstNoDuplicates(registry.all, this);
      registry.all := RemoveFirst(registry.all, this);
      forall c | c != this ensures c in registry.all <==> c in old(registry.all) {
        assert c in registry.all <==> c in multiset(registry.all);
        assert c in old(registry.all) <==> c in multiset(old(registry.all));
      }
    }

    /** Start: repair a missing or mis-sized `stopOnly`, and open the grace window at `now`. */
    method Start(now: real)
      modifies this
      ensures stopOnly.Some? && |stopOnly.value| == |lights|
      ensures old(stopOnly).Some? && |old(stopOnly).value| == |lights| ==> stopOnly == old(stopOnly)
      ensures !(old(stopOnly).Some? && |old(stopOnly).value| == |lights|) ==>
                forall i :: 0 <= i < |lights| ==> !stopOnly.value[i]
      ensures lastGreenOccupiedTime == Some(now)
      ensures lights == old(lights) && currentIndex == old(currentIndex) && timer == old(timer)
      ensures cycleTime == old(cycleTime) && stopRadius == old(stopRadius)
      ensures graceAfterGreenClear == old(graceAfterGreenClear) && position == old(position)
    {
      if stopOnly.None? || |stopOnly.value| != |lights| {
        stopOnly := Some(seq(|lights|, _ => false));
      }
      lastGreenOccupiedTime := Some(now);
    }

    predicate IsValidIndex(i: int): (valid: bool)
      reads this
      ensures valid ==> 0 <= i < |lights| && lights[i] != None
      ensures 0 <= i < |lights| && lights[i].Some? ==> valid
    {
      0 <= i < |lights| && lights[i].Some?
    }

    /** Update: advance the cycle by `dt`, then refresh the grace timestamp while the (new)
        green approach is occupied; `greenOccupied` is the engine's overlap query there. */
    method Update(dt: real, now: real, greenOccupied: bool) returns (switched: bool)
      requires Valid()
      modifies this`timer, this`currentIndex, this`lastGreenOccupiedTime
      ensures Valid()
      ensures |lights| == 0 ==> !switched && timer == old(timer) && currentIndex == old(currentIndex)
                                && lastGreenOccupiedTime == old(lastGreenOccupiedTime)
      ensures |lights| > 0 ==> switched == (old(timer) + dt >= cycleTime)
      ensures switched ==> timer == 0.0 && currentIndex == (old(currentIndex) + 1) % |lights|
      ensures |lights| > 0 && !switched ==> timer == old(timer) + dt && currentIndex == old(currentIndex)
      ensures |lights| > 0 ==>
                lastGreenOccupiedTime == (if switched || (IsValidIndex(currentIndex) && greenOccupied)
                                          then Some(now) else old(lastGreenOccupiedTime))
    {
      switched := false;
      if |lights| == 0 {
        return;
      }
      timer := timer + dt;
      if timer >= cycleTime {
        timer := 0.0;
        currentIndex := (currentIndex + 1) % |lights|;
        lastGreenOccupiedTime := Some(now);
        switched := true;
      }
      if IsValidIndex(currentIndex) && greenOccupied {
        lastGreenOccupiedTime := Some(now);
      }
    }

    /** The `stopOnly` lookup: an index past the array, or a missing array, is a normal leg. */
    predicate IsStopLeg(i: int)
      reads this
    {
      stopOnly.Some? && 0 <= i < |stopOnly.value| && stopOnly.value[i]
    }

    predicate WithinGrace(now: real)
      reads this
    {
      lastGreenOccupiedTime.Some? && now - lastGreenOccupiedTime.value <= graceAfterGreenClear
    }

    /** Whether this junction wants the car at `carPos` to stop: not at any approach or at the
        green one, go; at a red light leg, stop when within the larger of the stop radius and the
        braking distance (plus one metre); at a STOP leg, wait while within the grace window. */
    function WantsStop(carPos: Vec3, currentSpeed: real, brakeAccel: real, now: real): (stop: bool)
      reads this
      ensures |lights| == 0 ==> !stop
      ensures (forall j :: 0 <= j < |lights| ==> !WithinApproach(lights, carPos, stopRadius, j)) ==> !stop
      ensures forall i :: IsNearestApproach(lights, carPos, stopRadius, i) ==>
                (i == currentIndex ==> !stop)
                && (i != currentIndex && !IsStopLeg(i) ==> stop)
                && (i != currentIndex && IsStopLeg(i) ==> (stop <==> WithinGrace(now)))
    {
      if |lights| == 0 then false
      else
        var atIdx := NearestApproach(lights, carPos, stopRadius);
        assert forall i :: IsNearestApproach(lights, carPos, stopRadius, i) ==> i == atIdx by {
          forall i | IsNearestApproach(lights, carPos, stopRadius, i) ensures i == atIdx {
            NearestApproachUnique(lights, carPos, stopRadius, i, atIdx);
          }
        }
        if atIdx < 0 then false
        else if atIdx == currentIndex then false
        else if !IsStopLeg(atIdx) then
          // normal light leg on red
          var bestD2 := FlatDist2(carPos, lights[atIdx].value);
          var stoppingDistance := (currentSpeed * currentSpeed) / (2.0 * MaxReal(0.01, brakeAccel)) + 1.0;
          DistLeMonotone(bestD2, stopRadius, MaxReal(stopRadius, stoppingDistance));
          DistLe(bestD2, MaxReal(stopRadius, stoppingDistance))
        else
          // STOP leg: wait while the green approach was occupied within the grace window
          WithinGrace(now)
    }
  
    /** ShouldStopForCar: the scan for the closest approach within the stop radius, then the
        decision for that approach. */
    method ShouldStopForCar(carPos: Vec3, currentSpeed: real, brakeAccel: real, now: real) returns (stop: bool)
      ensures stop == WantsStop(carPos, currentSpeed, brakeAccel, now)
    {
      if |lights| == 0 {
        return false;
      }
      var atIdx := -1;
      var bestD2 := 0.0;
      var i := 0;
      while i < |lights|
        invariant ScanState(lights, carPos, stopRadius, i, atIdx, bestD2)
        invariant ScanApproaches(lights, carPos, stopRadius, i, atIdx, bestD2) == NearestApproach(lights, carPos, stopRadius)
        decreases |lights| - i
      {
        if lights[i].Some? {
          var d2 := FlatDist2(carPos, lights[i].value);
          if DistLe(d2, stopRadius) && (atIdx == -1 || d2 < bestD2) {
            bestD2 := d2;
            atIdx := i;
          }
        }
        i := i + 1;
      }
      if atIdx < 0 {
        return false;
      }
      if atIdx == currentIndex {
        return false;
      }
      if !IsStopLeg(atIdx) {
        var stoppingDistance := (currentSpeed * currentSpeed) / (2.0 * MaxReal(0.01, brakeAccel)) + 1.0;
        return DistLe(bestD2, MaxReal(stopRadius, stoppingDistance));
      }
      return WithinGrace(now);
    }
  }
}
