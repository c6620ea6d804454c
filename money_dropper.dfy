/** MoneyDropper: when an NPC dies it drops a cash pile once. The amount is drawn from
    [totalMin, totalMax], biased toward the low end and cut down to a multiple of 10, and the pile
    prefab is the tier whose range holds the amount, or else the tier whose centre is nearest. */
module Cash {
  import opened UnityMath

  /** The largest 32-bit int, the starting "best distance" of the nearest-centre search. */
  const IntMaxValue: int := 0x7fff_ffff

  /** A pile prefab and the amount components it carries. */
  datatype PilePrefab = PilePrefab(id: nat, hasAmountReceiver: bool, hasCashPileAmount: bool)

  /** A tier: an inclusive amount range and its pile prefab (None when unassigned). */
  datatype CashTier = CashTier(minAmount: int, maxAmount: int, prefab: Option<PilePrefab>)

  /** `default(CashTier)`: an empty range at 0 and no prefab. */
  const DefaultTier := CashTier(0, 0, None)

  /** Which component of the spawned pile receives the amount. */
  datatype AmountTarget = ToReceiver(amount: int) | ToCashPile(amount: int) | Ignored

  /** What Drop spawned: the prefab and where the amount went. */
  datatype Spawn = Spawn(prefab: PilePrefab, amount: int, target: AmountTarget)

  /** SampleBiasedAmount, with `skew` = Pow(u, power) for the uniform draw u. */
  function SampleBiasedAmount(min: int, max: int, skew: real): (amount: int)
    ensures min <= max ==> min <= amount <= max
    ensures var val := Lerp(min as real, max as real + 0.999, skew);
            amount == min || amount == max
            || (amount % 10 == 0 && amount as real <= val < amount as real + 10.0)
  {
    var val := Lerp(min as real, max as real + 0.999, skew);
    var tens := FloorToInt(val / 10.0);
    assert tens as real * 10.0 <= val < tens as real * 10.0 + 10.0;
    ClampInt(tens * 10, min, max)
  }

  predicate InTier(t: CashTier, amount: int)
  {
    amount >= t.minAmount && amount <= t.maxAmount
  }

  /** The centre of a tier's range, with C#'s integer division. */
  function Centre(t: CashTier): (c: int)
    ensures t.minAmount <= t.maxAmount ==> t.minAmount <= c <= t.maxAmount
  {
    CsHalf(t.minAmount + t.maxAmount)
  }

  function CentreDist(t: CashTier, amount: int): nat
  {
    AbsInt(amount - Centre(t))
  }

  /** The index of the first tier whose range holds the amount. */
  function FirstContaining(tiers: seq<CashTier>, amount: int): (k: Option<nat>)
    ensures k.Some? ==> k.value < |tiers| && InTier(tiers[k.value], amount)
                        && forall j :: 0 <= j < k.value ==> !InTier(tiers[j], amount)
    ensures k.None? ==> forall j :: 0 <= j < |tiers| ==> !InTier(tiers[j], amount)
  {
    if tiers == [] then None
    else if InTier(tiers[0], amount) then Some(0)
    else match FirstContaining(tiers[1..], amount) {
      case None => None
      case Some(k) => Some(k + 1)
    }
  }

  /** `k` is the tier with the nearest centre: nearer than every earlier tier, no farther than
      every later one, and nearer than `IntMaxValue`. */
  ghost predicate IsNearestCentre(tiers: seq<CashTier>, amount: int, k: int)
  {
    && 0 <= k < |tiers| && CentreDist(tiers[k], amount) < IntMaxValue
    && (forall j :: 0 <= j < k ==> CentreDist(tiers[k], amount) < CentreDist(tiers[j], amount))
    && (forall j :: k < j < |tiers| ==> CentreDist(tiers[k], amount) <= CentreDist(tiers[j], amount))
  }

  /** The fallback search over the tiers in order, keeping a strictly nearer centre. */
  function NearestCentre(tiers: seq<CashTier>, amount: int): (k: Option<nat>)
    ensures k.Some? ==> IsNearestCentre(tiers, amount, k.value)
    ensures k.None? ==> forall j :: 0 <= j < |tiers| ==> CentreDist(tiers[j], amount) >= IntMaxValue
  {
    if tiers == [] then None
    else
      var n := |tiers| - 1;
      var front := tiers[..n];
      var b := NearestCentre(front, amount);
      var bestDist := if b.None? then IntMaxValue else CentreDist(tiers[b.value], amount);
      assert forall j :: 0 <= j < n ==> front[j] == tiers[j];
      assert b.Some? ==> IsNearestCentre(front, amount, b.value);
      if CentreDist(tiers[n], amount) < bestDist then Some(n) else b
  }

  /** PickTier: the first tier holding the amount, else the nearest centre, else the default. */
  function ChooseTier(tiers: seq<CashTier>, amount: int): (t: CashTier)
    ensures (exists k :: 0 <= k < |tiers| && InTier(tiers[k], amount)) ==> InTier(t, amount)
    ensures t in tiers || t == DefaultTier
    ensures tiers == [] ==> t == DefaultTier
  {
    match FirstContaining(tiers, amount) {
      case Some(k) => tiers[k]
      case None =>
        match NearestCentre(tiers, amount) {
          case Some(k) => tiers[k]
          case None => DefaultTier
        }
    }
  }

  /** A tier holding the amount always wins over nearer centres, and the earliest such tier wins. */
  lemma ChooseTierPrefersContaining(tiers: seq<CashTier>, amount: int, k: int)
    requires 0 <= k < |tiers| && InTier(tiers[k], amount)
    requires forall j :: 0 <= j < k ==> !InTier(tiers[j], amount)
    ensures ChooseTier(tiers, amount) == tiers[k]
  {
    FirstContainingIsLowest(tiers, amount, k);
  }

  /** With no tiers there is no prefab, so nothing is spawned. */
  lemma NoTiersNoPrefab(amount: int)
    ensures ChooseTier([], amount).prefab.None?
  {
  }

  /** SetAmountIfSupported: an amount receiver first, else a CashPileAmount, else nothing. */
  function AmountTargetFor(p: PilePrefab, amount: int): (t: AmountTarget)
    ensures p.hasAmountReceiver ==> t == ToReceiver(amount)
    ensures !p.hasAmountReceiver && p.hasCashPileAmount ==> t == ToCashPile(amount)
    ensures !p.hasAmountReceiver && !p.hasCashPileAmount ==> t == Ignored
  {
    if p.hasAmountReceiver then ToReceiver(amount)
    else if p.hasCashPileAmount then ToCashPile(amount)
    else Ignored
  }

  /** PickTier: the first tier holding the amount, else the nearest centre, else the default. */
  method PickTier(tiers: seq<CashTier>, amount: int) returns (tier: CashTier)
    ensures tier == ChooseTier(tiers, amount)
  {
    var first := FindContaining(tiers, amount);
    if first.Some? {
      return tiers[first.value];
    }
    var best := FindNearestCentre(tiers, amount);
    tier := if best >= 0 then tiers[best] else DefaultTier;
  }

  /** The first loop of PickTier: the tiers in order, stopping at one holding the amount. */
  method FindContaining(tiers: seq<CashTier>, amount: int) returns (k: Option<nat>)
    ensures k == FirstContaining(tiers, amount)
  {
    var i := 0;
    while i < |tiers|
      invariant 0 <= i <= |tiers|
      invariant forall j :: 0 <= j < i ==> !InTier(tiers[j], amount)
    {
      var t := tiers[i];
      if amount >= t.minAmount && amount <= t.maxAmount {
        FirstContainingIsLowest(tiers, amount, i);
        return Some(i);
      }
      i := i + 1;
    }
    return None;
  }

  lemma FirstContainingIsLowest(tiers: seq<CashTier>, amount: int, k: nat)
    requires k < |tiers| && InTier(tiers[k], amount)
    requires forall j :: 0 <= j < k ==> !InTier(tiers[j], amount)
    ensures FirstContaining(tiers, amount) == Some(k)
  {
    var f := FirstContaining(tiers, amount);
    assert f.Some?;
  }

  /** The second loop of PickTier: keep the tier whose centre is strictly nearer, starting from
      the largest int; -1 when no tier is nearer than that. */
  method FindNearestCentre(tiers: seq<CashTier>, amount: int) returns (best: int)
    ensures var b := NearestCentre(tiers, amount);
            && (b.None? ==> best == -1)
            && (b.Some? ==> best == b.value)
  {
    best := -1;
    var bestDist := IntMaxValue;
    var i := 0;
    while i < |tiers|
      invariant 0 <= i <= |tiers|
      invariant var b := NearestCentre(tiers[..i], amount);
                && (b.None? ==> best == -1 && bestDist == IntMaxValue)
                && (b.Some? ==> best == b.value && bestDist == CentreDist(tiers[best], amount))
    {
      assert tiers[..i + 1][..i] == tiers[..i];
      var center := CsHalf(tiers[i].minAmount + tiers[i].maxAmount);
      var dist := AbsInt(amount - center);
      if dist < bestDist {
        bestDist := dist;
        best := i;
      }
      i := i + 1;
    }
    assert tiers[..i] == tiers;
  }

  class MoneyDropper {
    var totalMin: int
    var totalMax: int
    const tiers: seq<CashTier>
    var dropped: bool

    constructor (totalMin: int, totalMax: int, tiers: seq<CashTier>)
      ensures this.totalMin == totalMin && this.totalMax == totalMax && this.tiers == tiers && !dropped
    {
      this.totalMin := totalMin;
      this.totalMax := totalMax;
      this.tiers := tiers;
      dropped := false;
    }

    /** Drop: only the first call acts. The bounds are put in order, an amount is sampled with
        the draw `skew`, and the chosen tier's prefab is spawned with the amount handed to it;
        a tier without a prefab spawns nothing. */
    method Drop(skew: real) returns (spawn: Option<Spawn>)
      modifies this`dropped, this`totalMin, this`totalMax
      ensures old(dropped) ==> spawn.None? && dropped && totalMin == old(totalMin) && totalMax == old(totalMax)
      ensures !old(dropped) ==>
                && dropped
                && totalMin == MinInt(old(totalMin), old(totalMax)) && totalMax == MaxInt(old(totalMin), old(totalMax))
                && var amount := SampleBiasedAmount(totalMin, totalMax, skew);
                   var tier := ChooseTier(tiers, amount);
                   spawn == (if tier.prefab.None? then None
                             else Some(Spawn(tier.prefab.value, amount, AmountTargetFor(tier.prefab.value, amount))))
      ensures spawn.Some? ==> totalMin <= spawn.value.amount <= totalMax
    {
      if dropped {
        return None;
      }
      dropped := true;
      if totalMax < totalMin {
        var t := totalMax;
        totalMax := totalMin;
        totalMin := t;
      }
      var amount := SampleBiasedAmount(totalMin, totalMax, skew);
      var tier := PickTier(tiers, amount);
      if tier.prefab.None? {
        return None;
      }
      spawn := Some(Spawn(tier.prefab.value, amount, AmountTargetFor(tier.prefab.value, amount)));
    }
  }
}
