/** CarDriverHead: the driver's hit zone. Every hit costs at least one health point, and the hit
    that brings health to zero or below kills the driver through the car's CarDriverState. */
module DriverHead {
  import opened UnityMath
  import opened DriverState

  class CarDriverHead {
    var car: CarDriverState?
    var health: int

    constructor (car: CarDriverState?, health: int)
      ensures this.car == car && this.health == health
    {
      this.car := car;
      this.health := health;
    }

    /** The objects a hit may change: this head, the driver state, and what its kill touches. */
    ghost function Footprint(): set<object>
      reads this, car
    {
      {this} + (if car != null then {car} + (if car.ai != null then {car.ai, car.ai.car} else {})
                                           + (if car.car != null then {car.car} else {})
                else {})
    }

    method TakeDamage(damage: int, now: real)
      modifies Footprint()
      ensures car == old(car)
      ensures old(health) <= 0 ==> health == old(health)
      ensures old(health) > 0 ==> health == old(health) - MaxInt(1, damage)
      ensures old(health) > 0 ==> health < old(health)
      ensures health == HealthAfter(old(health), [damage])
      ensures car != null && old(health) > 0 && health <= 0 && old(car.driverAlive) ==>
                !car.driverAlive && car.braking && car.killTime == now
      ensures car != null && !(old(health) > 0 && health <= 0) ==>
                && unchanged(car)
                && (car.ai != null ==> unchanged(car.ai, car.ai.car))
                && (car.car != null ==> unchanged(car.car))
      ensures car != null ==> car.KeepsSettings()
      ensures car != null && car.ai != null ==> car.ai.OnlyEnabledChanged() && car.ai.car.OnlyModeAndInputsChanged()
      ensures car != null && car.car != null ==> car.car.OnlyModeAndInputsChanged()
    {
      if health <= 0 {
        return;
      }
      health := health - MaxInt(1, damage);
      if health <= 0 && car != null {
        car.OnDriverKilled(now);
      }
    }
  }

  /** A head with `h` health points dies on the `h`-th hit at the latest: after k hits of any
      damage, health is at most h - k. */
  lemma {:induction false} HitsToKill(h: int, hits: seq<int>)
    ensures HealthAfter(h, hits) <= h - |hits| || HealthAfter(h, hits) <= 0
  {
    if hits != [] {
      HitsToKill(h, hits[..|hits| - 1]);
    }
  }

  /** How many of the hits notify the kill: those that take health from above 0 to 0 or below. */
  function Kills(h: int, hits: seq<int>): nat
  {
    if hits == [] then 0
    else
      var before := HealthAfter(h, hits[..|hits| - 1]);
      Kills(h, hits[..|hits| - 1]) + (if before > 0 && before - MaxInt(1, hits[|hits| - 1]) <= 0 then 1 else 0)
  }

  /** The kill is notified at most once: exactly once when a living driver ends up at 0 or
      below, never otherwise. */
  lemma {:induction false} KilledAtMostOnce(h: int, hits: seq<int>)
    ensures Kills(h, hits) == (if h > 0 && HealthAfter(h, hits) <= 0 then 1 else 0)
  {
    if hits != [] {
      var front := hits[..|hits| - 1];
      KilledAtMostOnce(h, front);
      HitsToKill(h, front);
    }
  }

  /** The health left after a sequence of hits, following TakeDamage. */
  function HealthAfter(h: int, hits: seq<int>): int
  {
    if hits == [] then h
    else
      var before := HealthAfter(h, hits[..|hits| - 1]);
      if before <= 0 then before else before - MaxInt(1, hits[|hits| - 1])
  }
}
