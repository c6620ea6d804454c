/** Damage on foot: a hitbox scales the damage of a shot that hits it and forwards it to the
    character it belongs to; the practice dummy counts its hit points down. */
module Damage {
  import opened UnityMath

  /** A damageable character, by an identity of its own. */
  datatype Target = Target(id: nat)

  /** One forwarded `TakeDamage` call. */
  datatype DamageCall = DamageCall(target: Target, amount: int)

  /** The damage a hitbox forwards: the base damage times the multiplier (a negative multiplier
      counting as 0), rounded half to even. */
  function FinalDamage(baseDamage: int, multiplier: real): (d: int)
    ensures multiplier <= 0.0 ==> d == 0
    ensures baseDamage >= 0 ==> d >= 0
    ensures multiplier >= 0.0 ==> -0.5 <= baseDamage as real * multiplier - d as real <= 0.5
  {
    var m := MaxReal(0.0, multiplier);
    assert baseDamage >= 0 ==> baseDamage as real * m >= 0.0;
    RoundToInt(baseDamage as real * m)
  }

  /** A whole multiplier multiplies exactly. */
  lemma WholeMultiplierIsExact(baseDamage: int, k: nat)
    ensures FinalDamage(baseDamage, k as real) == baseDamage * k
  {
    RoundToIntUnique(baseDamage as real * k as real, baseDamage * k);
  }

  /** With the default multiplier 2.5, odd base damages land on a half and round to even:
      1 gives 2 and 3 gives 8. */
  lemma DefaultMultiplierRounding()
    ensures FinalDamage(1, 2.5) == 2
    ensures FinalDamage(3, 2.5) == 8
  {
    RoundToIntUnique(2.5, 2);
    RoundToIntUnique(7.5, 8);
  }

  class DamageHitbox {
    const multiplier: real
    var cached: Option<Target>

    constructor (multiplier: real)
      ensures this.multiplier == multiplier && cached.None?
    {
      this.multiplier := multiplier;
      cached := None;
    }

    /** Awake: the target set on the hitbox, when it is damageable, wins over the first
        damageable found among the parents; with neither there is no target. */
    method Awake(explicitTarget: Option<Target>, parentTarget: Option<Target>)
      modifies this`cached
      ensures explicitTarget.Some? ==> cached == explicitTarget
      ensures explicitTarget.None? ==> cached == parentTarget
    {
      cached := explicitTarget;
      if cached.None? {
        cached := parentTarget;
      }
    }

    /** ApplyDamage: exactly one call to the target when there is one, none otherwise. */
    method ApplyDamage(baseDamage: int) returns (call: Option<DamageCall>)
      ensures cached.None? <==> call.None?
      ensures call.Some? ==> call.value == DamageCall(cached.value, FinalDamage(baseDamage, multiplier))
    {
      if cached.None? {
        return None;
      }
      call := Some(DamageCall(cached.value, FinalDamage(baseDamage, multiplier)));
    }
  }

  /** The hit points left after the hits `amounts`, negative amounts counting as 0. */
  function HpAfter(hp: int, amounts: seq<int>): (left: int)
    ensures left <= hp
  {
    if amounts == [] then hp else HpAfter(hp, amounts[..|amounts| - 1]) - MaxInt(0, amounts[|amounts| - 1])
  }

  /** The damage actually taken from the hits `amounts`. */
  function DamageTaken(amounts: seq<int>): (total: int)
    ensures total >= 0
  {
    if amounts == [] then 0 else DamageTaken(amounts[..|amounts| - 1]) + MaxInt(0, amounts[|amounts| - 1])
  }

  /** Hits only ever lower the hit points, by exactly the damage taken. */
  lemma {:induction false} HitsNeverHeal(hp: int, amounts: seq<int>)
    ensures HpAfter(hp, amounts) == hp - DamageTaken(amounts)
    ensures HpAfter(hp, amounts) <= hp
  {
    if amounts != [] {
      HitsNeverHeal(hp, amounts[..|amounts| - 1]);
    }
  }

  /** A dummy that is down stays down whatever hits follow. */
  lemma StaysDown(hp: int, amounts: seq<int>, more: seq<int>)
    requires HpAfter(hp, amounts) <= 0
    ensures HpAfter(hp, amounts + more) <= 0
  {
    HitsNeverHeal(hp, amounts + more);
    HitsNeverHeal(hp, amounts);
    DamageTakenAppend(amounts, more);
  }

  lemma {:induction false} DamageTakenAppend(a: seq<int>, b: seq<int>)
    ensures DamageTaken(a + b) >= DamageTaken(a)
  {
    if b != [] {
      assert (a + b)[..|a + b| - 1] == a + b[..|b| - 1];
      DamageTakenAppend(a, b[..|b| - 1]);
    } else {
      assert a + b == a;
    }
  }

  class DummyEnemy {
    var hp: int
    const destroyOnDeath: bool

    constructor (hp: int, destroyOnDeath: bool)
      ensures this.hp == hp && this.destroyOnDeath == destroyOnDeath
    {
      this.hp := hp;
      this.destroyOnDeath := destroyOnDeath;
    }

    /** TakeDamage: hit points drop by the damage (a negative amount counting as 0); the object
        asks to be destroyed on every hit that leaves it at 0 or below, when it is set to. */
    method TakeDamage(amount: int) returns (destroyRequested: bool)
      modifies this`hp
      ensures hp == HpAfter(old(hp), [amount])
      ensures hp <= old(hp)
      ensures destroyRequested <==> destroyOnDeath && hp <= 0
    {
      hp := hp - MaxInt(0, amount);
      destroyRequested := hp <= 0 && destroyOnDeath;
    }
  }
}
