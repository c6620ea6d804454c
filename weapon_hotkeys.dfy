/** WeaponHotkeys: the global "gun ready" flag and the draw lock. Pressing the draw key locks the
    gun and schedules it to become ready `drawLockSeconds` later; a new press restarts the wait. */
module Weapons {
  import opened UnityMath

  /** The static `WeaponHotkeys.GunIsReady`. */
  class WeaponGlobals {
    var gunIsReady: bool

    constructor ()
      ensures !gunIsReady
    {
      gunIsReady := false;
    }
  }

  class WeaponHotkeys {
    var drawLockSeconds: real
    /** The pending draw coroutine, as the time its wait ends; None when no draw is pending. */
    var drawDueAt: Option<real>

    constructor (drawLockSeconds: real)
      ensures this.drawLockSeconds == drawLockSeconds && drawDueAt == None
    {
      this.drawLockSeconds := drawLockSeconds;
      drawDueAt := None;
    }

    /** While a draw is pending the gun is locked, and the wait ends no later than one full
        lock period from `now`. */
    ghost predicate LockedUntilDrawn(g: WeaponGlobals, now: real)
      reads this, g
    {
      drawDueAt.Some? ==> !g.gunIsReady && drawDueAt.value <= now + drawLockSeconds
    }

    /** Start: the gun starts locked. */
    method Start(g: WeaponGlobals)
      modifies g
      ensures !g.gunIsReady
    {
      g.gunIsReady := false;
    }

    /** Update with the draw key state: a press (re)starts the draw coroutine, whose body runs up
        to its wait at once and locks the gun. */
    method Update(g: WeaponGlobals, now: real, drawPressed: bool)
      modifies this`drawDueAt, g
      ensures drawPressed ==> drawDueAt == Some(now + drawLockSeconds) && !g.gunIsReady
      ensures !drawPressed ==> drawDueAt == old(drawDueAt) && g.gunIsReady == old(g.gunIsReady)
      ensures drawPressed ==> LockedUntilDrawn(g, now)
    {
      if drawPressed {
        drawDueAt := None;
        StartDrawLock(g, now);
      }
    }

    /** The first part of DrawLockCoroutine: lock and start waiting. */
    method StartDrawLock(g: WeaponGlobals, now: real)
      modifies this`drawDueAt, g
      ensures drawDueAt == Some(now + drawLockSeconds) && !g.gunIsReady
    {
      g.gunIsReady := false;
      drawDueAt := Some(now + drawLockSeconds);
    }

    /** The coroutine scheduler at time `now`: once the wait is over the gun becomes ready and the
        coroutine ends. */
    method Tick(g: WeaponGlobals, now: real)
      modifies this`drawDueAt, g
      ensures drawDueAt == if old(drawDueAt).Some? && now >= old(drawDueAt).value then None else old(drawDueAt)
      ensures g.gunIsReady == (old(g.gunIsReady) || (old(drawDueAt).Some? && now >= old(drawDueAt).value))
      ensures old(LockedUntilDrawn(g, now)) ==> LockedUntilDrawn(g, now)
      ensures old(drawDueAt).Some? && now < old(drawDueAt).value && !old(g.gunIsReady) ==> !g.gunIsReady
    {
      if drawDueAt.Some? && now >= drawDueAt.value {
        g.gunIsReady := true;
        drawDueAt := None;
      }
    }

    method ForceReadyNow(g: WeaponGlobals)
      modifies this`drawDueAt, g
      ensures drawDueAt == None && g.gunIsReady
    {
      drawDueAt := None;
      g.gunIsReady := true;
    }

    /** ForceLockNow: lock, and restart the draw wait. */
    method ForceLockNow(g: WeaponGlobals, now: real)
      modifies this`drawDueAt, g
      ensures drawDueAt == Some(now + drawLockSeconds) && !g.gunIsReady
      ensures LockedUntilDrawn(g, now)
    {
      drawDueAt := None;
      g.gunIsReady := false;
      StartDrawLock(g, now);
    }
  }
}
