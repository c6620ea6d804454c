/** AutoCashPickup: a dropped cash pile pays its amount into the menu money as soon as it
    appears, once, then vanishes: either it waits and shrinks to nothing over its last
    `shrinkDuration` seconds, or it is simply destroyed after `lifetime`. */
module CashPickup {
  import opened UnityMath
  import opened PlayerMenu

  /** How the pile goes away. */
  datatype Vanish = ShrinkThenDestroy(wait: real, fade: real) | DestroyAfter(delay: real)

  /** The scale factor (relative to the starting scale) after `t` seconds of shrinking. */
  function ShrinkScale(t: real, fade: real): (s: real)
    requires fade > 0.0
    ensures 0.0 <= s <= 1.0
    ensures t >= fade ==> s == 0.0
    ensures t <= 0.0 ==> s == 1.0
  {
    DivBounds(t, fade);
    1.0 - Clamp01(t / fade)
  }

  /** The pile only ever gets smaller as the shrink time grows. */
  lemma ShrinkScaleMonotone(t1: real, t2: real, fade: real)
    requires fade > 0.0 && t1 <= t2
    ensures ShrinkScale(t2, fade) <= ShrinkScale(t1, fade)
  {
    assert t2 / fade - t1 / fade == (t2 - t1) / fade;
  }

  class AutoCashPickup {
    var amount: int
    const lifetime: real
    const shrinkDuration: real
    var added: bool

    constructor (amount: int, lifetime: real, shrinkDuration: real)
      ensures this.amount == amount && this.lifetime == lifetime && this.shrinkDuration == shrinkDuration
      ensures !added
    {
      this.amount := amount;
      this.lifetime := lifetime;
      this.shrinkDuration := shrinkDuration;
      added := false;
    }

    /** Start: pay out, then pick the vanish routine. */
    method Start(menu: PlayerMenuController?) returns (vanish: Vanish)
      modifies this`added, menu
      ensures added
      ensures menu != null ==> OnlyMoneyChanged(menu)
      ensures menu != null && !old(added) ==> menu.money == AddClamped(old(menu.money), amount)
      ensures menu != null && old(added) ==> menu.money == old(menu.money)
      ensures vanish == (if 0.0 < shrinkDuration < lifetime
                         then ShrinkThenDestroy(lifetime - shrinkDuration, shrinkDuration)
                         else DestroyAfter(lifetime))
    {
      AddOnce(menu);
      if shrinkDuration > 0.0 && shrinkDuration < lifetime {
        vanish := ShrinkThenDestroy(lifetime - shrinkDuration, shrinkDuration);
      } else {
        vanish := DestroyAfter(lifetime);
      }
    }

    /** AddOnce: the flag is set before the menu is looked at, so a pile that finds no menu
        never pays. `menu` stands for the static `PlayerMenuController.Instance`. */
    method AddOnce(menu: PlayerMenuController?)
      modifies this`added, menu
      ensures added
      ensures menu != null ==> OnlyMoneyChanged(menu)
      ensures menu != null && !old(added) ==> menu.money == AddClamped(old(menu.money), amount)
      ensures menu != null && old(added) ==> unchanged(menu)
    {
      if added {
        return;
      }
      added := true;
      if menu != null {
        menu.AddMoney(amount);
      }
    }

    /** SetAmount, called by the dropper right after the pile is spawned. */
    method SetAmount(value: int)
      modifies this`amount
      ensures amount == MaxInt(0, value) && amount >= 0
    {
      amount := MaxInt(0, value);
    }
  }

  /** The shrink time after the given frames: the sum of their delta times. */
  function Elapsed(frames: seq<real>): real
  {
    if frames == [] then 0.0 else Elapsed(frames[..|frames| - 1]) + frames[|frames| - 1]
  }

  /** The shrink loop of ShrinkAndDestroy after its wait: each frame adds its delta time to
      `t` and sets the scale; the loop ends, and the pile is destroyed, once `t` reaches
      `fade`. `frames` are the frame delta times; `scales` the scale factor set on each frame. */
  method ShrinkFrames(fade: real, frames: seq<real>) returns (scales: seq<real>, destroyed: bool)
    requires fade > 0.0
    ensures |scales| <= |frames|
    ensures forall i :: 0 <= i < |scales| ==> scales[i] == ShrinkScale(Elapsed(frames[..i + 1]), fade)
    ensures forall i :: 0 <= i < |scales| ==> Elapsed(frames[..i]) < fade
    ensures destroyed <==> Elapsed(frames[..|scales|]) >= fade
    ensures forall i :: 0 <= i < |scales| ==> 0.0 <= scales[i] <= 1.0
    ensures (forall i :: 0 <= i < |frames| ==> frames[i] >= 0.0) ==>
              forall i, j :: 0 <= i < j < |scales| ==> scales[j] <= scales[i]
    ensures destroyed ==> |scales| > 0 && scales[|scales| - 1] == 0.0
    ensures !destroyed ==> |scales| == |frames|
  {
    var t := 0.0;
    scales := [];
    var i := 0;
    while t < fade && i < |frames|
      invariant 0 <= i <= |frames| && |scales| == i
      invariant forall k :: 0 <= k < i ==> 0.0 <= scales[k] <= 1.0
      invariant i > 0 ==> scales[i - 1] == ShrinkScale(t, fade)
      invariant t == Elapsed(frames[..i])
      invariant forall k :: 0 <= k < i ==> scales[k] == ShrinkScale(Elapsed(frames[..k + 1]), fade)
      invariant forall k :: 0 <= k < i ==> Elapsed(frames[..k]) < fade
      invariant t >= fade ==> i > 0
      invariant (forall k :: 0 <= k < |frames| ==> frames[k] >= 0.0) ==>
                  forall k, m :: 0 <= k < m < i ==> scales[m] <= scales[k]
      invariant (forall k :: 0 <= k < |frames| ==> frames[k] >= 0.0) ==>
                  forall k :: 0 <= k < i ==> ShrinkScale(t, fade) <= scales[k]
      decreases |frames| - i
    {
      assert frames[..i + 1][..i] == frames[..i];
      var t1 := t + frames[i];
      if forall k :: 0 <= k < |frames| ==> frames[k] >= 0.0 {
        ShrinkScaleMonotone(t, t1, fade);
      }
      t := t1;
      scales := scales + [ShrinkScale(t, fade)];
      i := i + 1;
    }
    destroyed := t >= fade;
  }
}
