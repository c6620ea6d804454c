/** TestosteroneSystem: a meter between 0 and its maximum that drains at a steady rate, is
    refilled by gains, and reports its fill fraction whenever it visibly changes. */
module Testosterone {
  import opened UnityMath

  /** `float.Epsilon`, the smallest positive single-precision value. */
  const FloatEpsilon: real := 0.000000000000000000000000000000000000000000001401298

  /** Mathf.Approximately: equal up to a relative tolerance of one millionth. */
  predicate Approximately(a: real, b: real): (close: bool)
    ensures a == b ==> close
    ensures close == (AbsReal(a - b) < MaxReal(0.000001 * MaxReal(AbsReal(b), AbsReal(a)), FloatEpsilon * 8.0))
  {
    AbsReal(b - a) < MaxReal(0.000001 * MaxReal(AbsReal(a), AbsReal(b)), FloatEpsilon * 8.0)
  }

  /** The meter's fill fraction: 0 without a positive maximum. */
  function NormalizedOf(current: real, maxValue: real): (r: real)
    ensures maxValue <= 0.0 ==> r == 0.0
    ensures 0.0 < maxValue && 0.0 <= current <= maxValue ==> 0.0 <= r <= 1.0
    ensures 0.0 < maxValue ==> r * maxValue == current
  {
    if maxValue <= 0.0 then 0.0
    else
      DivBounds(current, maxValue);
      current / maxValue
  }

  /** The static `TestosteroneSystem.Instance`. */
  class TestosteroneGlobals {
    var instance: TestosteroneSystem?

    constructor ()
      ensures instance == null
    {
      instance := null;
    }
  }

  class TestosteroneSystem {
    var maxValue: real
    const startValue: real
    var decayPerSecond: real
    var current: real
    /** The values passed to OnValueChanged, oldest first, and the number of OnDepleted calls. */
    var valueChanged: seq<real>
    var depletedCount: nat

    /** The meter lies between 0 and its maximum. */
    ghost predicate Valid()
      reads this
    {
      0.0 <= current <= maxValue
    }

    function Normalized(): (r: real)
      reads this
      ensures Valid() && maxValue > 0.0 ==> 0.0 <= r <= 1.0
      ensures maxValue <= 0.0 ==> r == 0.0
    {
      NormalizedOf(current, maxValue)
    }

    constructor (maxValue: real, startValue: real, decayPerSecond: real)
      ensures this.maxValue == maxValue && this.startValue == startValue
      ensures this.decayPerSecond == decayPerSecond
      ensures current == 0.0 && valueChanged == [] && depletedCount == 0
    {
      this.maxValue := maxValue;
      this.startValue := startValue;
      this.decayPerSecond := decayPerSecond;
      current := 0.0;
      valueChanged := [];
      depletedCount := 0;
    }

    /** Awake: a second instance gives way to the first (and is destroyed); the first becomes the
        instance and starts at the start value, clamped to the meter. */
    method Awake(g: TestosteroneGlobals) returns (destroyed: bool)
      modifies this`current, this`valueChanged, g
      ensures destroyed <==> old(g.instance) != null && old(g.instance) != this
      ensures destroyed ==> g.instance == old(g.instance) && current == old(current) && valueChanged == old(valueChanged)
      ensures !destroyed ==>
                && g.instance == this
                && current == Clamp(startValue, 0.0, maxValue)
                && valueChanged == old(valueChanged) + [Normalized()]
      ensures !destroyed && maxValue >= 0.0 ==> Valid()
    {
      if g.instance != null && g.instance != this {
        return true;
      }
      g.instance := this;
      current := Clamp(startValue, 0.0, maxValue);
      valueChanged := valueChanged + [Normalized()];
      return false;
    }

    /** Update: drain by `decayPerSecond * dt`, stopping at 0; report a visible change, and
        report depletion on the frame that empties the meter. */
    method Update(dt: real)
      modifies this`current, this`valueChanged, this`depletedCount
      ensures old(current) <= 0.0 ==>
                current == old(current) && valueChanged == old(valueChanged) && depletedCount == old(depletedCount)
      ensures current == DrainStep(old(current), decayPerSecond, dt)
      ensures old(current) > 0.0 ==>
                var changed := !Approximately(old(current), current);
                && valueChanged == old(valueChanged) + (if changed then [Normalized()] else [])
                && depletedCount == old(depletedCount) + (if changed && current <= 0.0 then 1 else 0)
      ensures depletedCount > old(depletedCount) ==> old(current) > 0.0 && current == 0.0
      ensures old(Valid()) && decayPerSecond >= 0.0 && dt >= 0.0 ==> Valid()
    {
      if current <= 0.0 {
        return;
      }
      var before := current;
      current := DrainStep(before, decayPerSecond, dt);
      if !Approximately(before, current) {
        valueChanged := valueChanged + [Normalized()];
        if current <= 0.0 {
          depletedCount := depletedCount + 1;
        }
      }
    }

    /** Gain: positive amounts fill the meter, capped at the maximum. */
    method Gain(amount: real)
      modifies this`current, this`valueChanged
      ensures amount <= 0.0 ==> current == old(current) && valueChanged == old(valueChanged)
      ensures amount > 0.0 ==> current == MinReal(maxValue, old(current) + amount)
      ensures amount > 0.0 ==>
                valueChanged == old(valueChanged) + (if Approximately(old(current), current) then [] else [Normalized()])
      ensures old(Valid()) ==> Valid() && current >= old(current)
    {
      if amount <= 0.0 {
        return;
      }
      var before := current;
      current := MinReal(maxValue, current + amount);
      if !Approximately(before, current) {
        valueChanged := valueChanged + [Normalized()];
      }
    }

    /** SetMax: the new maximum is at least 1. With `keepPercent` (and a positive old maximum)
        the fill fraction is kept; otherwise the value is kept, clamped to the new maximum. */
    method SetMax(newMax: real, keepPercent: bool)
      modifies this`maxValue, this`current, this`valueChanged
      ensures maxValue == MaxReal(1.0, newMax)
      ensures current == Rescaled(old(current), old(maxValue), maxValue, keepPercent)
      ensures keepPercent && old(maxValue) > 0.0 && old(Valid()) ==> Normalized() == old(Normalized())
      ensures !(keepPercent && old(maxValue) > 0.0) ==> current == Clamp(old(current), 0.0, maxValue)
      ensures Valid()
      ensures valueChanged == old(valueChanged) + [Normalized()]
    {
      var m := MaxReal(1.0, newMax);
      var c := Rescaled(current, maxValue, m, keepPercent);
      if keepPercent && maxValue > 0.0 {
        if Valid() {
          RescaleKeepsFraction(current, maxValue, m);
        }
      } else {
        RescaleKeepsValue(current, maxValue, m, keepPercent);
      }
      maxValue := m;
      current := c;
      valueChanged := valueChanged + [NormalizedOf(c, m)];
    }

    method SetDecay(newDecayPerSecond: real)
      modifies this`decayPerSecond
      ensures decayPerSecond == MaxReal(0.0, newDecayPerSecond) && decayPerSecond >= 0.0
    {
      decayPerSecond := MaxReal(0.0, newDecayPerSecond);
    }

    method ResetToStart()
      modifies this`current, this`valueChanged
      ensures current == Clamp(startValue, 0.0, maxValue)
      ensures maxValue >= 0.0 ==> Valid()
      ensures valueChanged == old(valueChanged) + [Normalized()]
    {
      current := Clamp(startValue, 0.0, maxValue);
      valueChanged := valueChanged + [Normalized()];
    }
  }

  /** The value SetMax leaves on a meter of maximum `newMax`: the old fill fraction (with
      `keepPercent` and a positive old maximum) or the old value, scaled onto the new meter and
      clamped to it. */
  function Rescaled(current: real, oldMax: real, newMax: real, keepPercent: bool): (c: real)
    requires newMax > 0.0
    ensures 0.0 <= c <= newMax
  {
    var pct := if keepPercent && oldMax > 0.0 then current / oldMax else current / newMax;
    Clamp(pct * newMax, 0.0, newMax)
  }

  /** Keeping the percentage keeps the fill fraction of a meter that lay within its bounds. */
  lemma RescaleKeepsFraction(current: real, oldMax: real, newMax: real)
    requires 0.0 < oldMax && 0.0 <= current <= oldMax && 0.0 < newMax
    ensures NormalizedOf(Rescaled(current, oldMax, newMax, true), newMax) == NormalizedOf(current, oldMax)
  {
    var p := current / oldMax;
    DivBounds(current, oldMax);
    MulNonNegative(p, newMax);
    MulNonNegative(1.0 - p, newMax);
    assert Rescaled(current, oldMax, newMax, true) == p * newMax;
    var r := NormalizedOf(p * newMax, newMax);
    assert (r - p) * newMax == 0.0;
  }

  /** Otherwise the value itself is kept, clamped to the new meter. */
  lemma RescaleKeepsValue(current: real, oldMax: real, newMax: real, keepPercent: bool)
    requires newMax > 0.0 && !(keepPercent && oldMax > 0.0)
    ensures Rescaled(current, oldMax, newMax, keepPercent) == Clamp(current, 0.0, newMax)
  {
    assert (current / newMax) * newMax == current;
  }

  /** One frame of draining: a meter at 0 (or below) stays; otherwise it drops by `rate * dt`,
      stopping at 0. With a non-negative rate and frame it never rises and never goes below 0. */
  function DrainStep(current: real, rate: real, dt: real): (n: real)
    ensures current <= 0.0 ==> n == current
    ensures current > 0.0 ==> n >= 0.0
    ensures current > 0.0 && rate >= 0.0 && dt >= 0.0 ==> n <= current
  {
    if current <= 0.0 then current
    else if rate >= 0.0 && dt >= 0.0 then
      MulNonNegative(rate, dt);
      MaxReal(0.0, current - rate * dt)
    else MaxReal(0.0, current - rate * dt)
  }

  /** The meter after the frames `dts` of Update. */
  function Drained(current: real, rate: real, dts: seq<real>): real
  {
    if dts == [] then current
    else DrainStep(Drained(current, rate, dts[..|dts| - 1]), rate, dts[|dts| - 1])
  }

  /** Draining frame after frame with a non-negative rate: the meter never rises, never goes
      below 0. */
  lemma {:induction false} DrainNeverRises(current: real, rate: real, dts: seq<real>)
    requires current >= 0.0 && rate >= 0.0
    requires forall i :: 0 <= i < |dts| ==> dts[i] >= 0.0
    ensures 0.0 <= Drained(current, rate, dts) <= current
  {
    if dts != [] {
      DrainNeverRises(current, rate, dts[..|dts| - 1]);
    }
  }
}
