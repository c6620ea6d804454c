/** DoubleDoor: two hinged leaves that swing smoothly toward their open or closed pose, can be
    locked against opening, and optionally close by themselves after staying open for a while.
    Each leaf's rotation is its yaw angle relative to its closed pose. */
module Doors {
  import opened UnityMath

  /** The door's logical state: open or not, and the seconds it has been open since the last
      opening (the auto-close timer). */
  datatype DoorState = DoorState(open: bool, timer: real)

  /** The timer part of one Update frame of `dt` seconds. */
  function TimerStep(s: DoorState, delay: real, dt: real): (n: DoorState)
    ensures !s.open || delay <= 0.0 ==> n == s
    ensures s.open && delay > 0.0 ==> (n.open <==> s.timer + dt < delay)
    ensures s.open && delay > 0.0 && n.open ==> n.timer == s.timer + dt
    ensures s.open && delay > 0.0 && !n.open ==> n.timer == 0.0
  {
    if s.open && delay > 0.0 then
      var timer := s.timer + dt;
      if timer >= delay then DoorState(false, 0.0) else DoorState(true, timer)
    else s
  }

  /** The state after the frames `dts`, in order. */
  function AfterFrames(s: DoorState, delay: real, dts: seq<real>): DoorState
  {
    if dts == [] then s else TimerStep(AfterFrames(s, delay, dts[..|dts| - 1]), delay, dts[|dts| - 1])
  }

  function Sum(dts: seq<real>): real
  {
    if dts == [] then 0.0 else Sum(dts[..|dts| - 1]) + dts[|dts| - 1]
  }

  /** A door just opened (timer 0), with a positive delay and frames of non-negative length, is
      still open exactly while its total open time is below the delay, and from then on stays
      closed with its timer reset. */
  lemma {:induction false} AutoCloseAfterDelay(delay: real, dts: seq<real>)
    requires delay > 0.0
    requires forall i :: 0 <= i < |dts| ==> dts[i] >= 0.0
    ensures AfterFrames(DoorState(true, 0.0), delay, dts)
            == if Sum(dts) < delay then DoorState(true, Sum(dts)) else DoorState(false, 0.0)
  {
    if dts != [] {
      AutoCloseAfterDelay(delay, dts[..|dts| - 1]);
    }
  }

  /** With no positive delay the door never closes by itself. */
  lemma {:induction false} NoDelayNeverCloses(s: DoorState, delay: real, dts: seq<real>)
    requires delay <= 0.0
    ensures AfterFrames(s, delay, dts) == s
  {
    if dts != [] {
      NoDelayNeverCloses(s, delay, dts[..|dts| - 1]);
    }
  }

  class DoubleDoor {
    const leftOpenAngle: real
    const rightOpenAngle: real
    const openSpeed: real
    const autoCloseDelay: real
    var isLocked: bool
    var enabled: bool
    var isOpen: bool
    var autoCloseTimer: real
    /** The leaves' yaw relative to their closed poses. */
    var leftAngle: real
    var rightAngle: real

    constructor (leftOpenAngle: real, rightOpenAngle: real, openSpeed: real, autoCloseDelay: real, isLocked: bool)
      ensures this.leftOpenAngle == leftOpenAngle && this.rightOpenAngle == rightOpenAngle
      ensures this.openSpeed == openSpeed && this.autoCloseDelay == autoCloseDelay
      ensures this.isLocked == isLocked && enabled
      ensures !isOpen && autoCloseTimer == 0.0 && leftAngle == 0.0 && rightAngle == 0.0
    {
      this.leftOpenAngle := leftOpenAngle;
      this.rightOpenAngle := rightOpenAngle;
      this.openSpeed := openSpeed;
      this.autoCloseDelay := autoCloseDelay;
      this.isLocked := isLocked;
      enabled := true;
      isOpen := false;
      autoCloseTimer := 0.0;
      leftAngle := 0.0;
      rightAngle := 0.0;
    }

    function State(): DoorState
      reads this
    {
      DoorState(isOpen, autoCloseTimer)
    }

    /** Awake: a door missing either leaf disables itself, so Update never runs. */
    method Awake(hasLeftLeaf: bool, hasRightLeaf: bool)
      modifies this`enabled
      ensures enabled == (old(enabled) && hasLeftLeaf && hasRightLeaf)
    {
      if !hasLeftLeaf || !hasRightLeaf {
        enabled := false;
      }
    }

    /** Update: both leaves move a `dt * openSpeed` fraction of the way toward the pose of the
        current state, and an open door counts toward its auto-close. */
    method Update(dt: real)
      modifies this`isOpen, this`autoCloseTimer, this`leftAngle, this`rightAngle
      ensures !enabled ==> unchanged(this)
      ensures enabled ==> State() == TimerStep(old(State()), autoCloseDelay, dt)
      ensures enabled ==>
                var leftTarget := if old(isOpen) then leftOpenAngle else 0.0;
                var rightTarget := if old(isOpen) then rightOpenAngle else 0.0;
                && leftAngle == Lerp(old(leftAngle), leftTarget, dt * openSpeed)
                && rightAngle == Lerp(old(rightAngle), rightTarget, dt * openSpeed)
                && AbsReal(leftAngle - leftTarget) <= AbsReal(old(leftAngle) - leftTarget)
                && AbsReal(rightAngle - rightTarget) <= AbsReal(old(rightAngle) - rightTarget)
    {
      if !enabled {
        return;
      }
      var t := dt * openSpeed;
      if isOpen {
        leftAngle := Lerp(leftAngle, leftOpenAngle, t);
        rightAngle := Lerp(rightAngle, rightOpenAngle, t);
        if autoCloseDelay > 0.0 {
          autoCloseTimer := autoCloseTimer + dt;
          if autoCloseTimer >= autoCloseDelay {
            autoCloseTimer := 0.0;
            isOpen := false;
          }
        }
      } else {
        leftAngle := Lerp(leftAngle, 0.0, t);
        rightAngle := Lerp(rightAngle, 0.0, t);
      }
    }

    /** Toggle: a locked door ignores it; otherwise the door flips, and an opening restarts the
        auto-close timer. Two toggles give back the original open state. */
    method Toggle()
      modifies this`isOpen, this`autoCloseTimer
      ensures isLocked ==> isOpen == old(isOpen) && autoCloseTimer == old(autoCloseTimer)
      ensures !isLocked ==> isOpen == !old(isOpen)
      ensures !isLocked && isOpen ==> autoCloseTimer == 0.0
      ensures !isLocked && !isOpen ==> autoCloseTimer == old(autoCloseTimer)
    {
      if isLocked {
        return;
      }
      isOpen := !isOpen;
      if isOpen {
        autoCloseTimer := 0.0;
      }
    }

    /** Open: ignored when locked; otherwise opens and restarts the auto-close timer. */
    method Open()
      modifies this`isOpen, this`autoCloseTimer
      ensures isLocked ==> isOpen == old(isOpen) && autoCloseTimer == old(autoCloseTimer)
      ensures !isLocked ==> isOpen && autoCloseTimer == 0.0
    {
      if !isLocked {
        isOpen := true;
        autoCloseTimer := 0.0;
      }
    }

    /** Close: works whether or not the door is locked. */
    method Close()
      modifies this`isOpen
      ensures !isOpen
    {
      isOpen := false;
    }

    function IsOpen(): (open: bool)
      reads this
      ensures open <==> isOpen
    {
      isOpen
    }
  }
}
