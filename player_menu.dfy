/** PlayerMenuController: the player's money, gems and kill counters, which never go below zero,
    the star level shown as a row of star slots, and the menu panel's visibility. */
module PlayerMenu {
  import opened UnityMath

  /** A counter after adding `amount`: the sum, but never below zero. */
  function AddClamped(current: int, amount: int): (r: int)
    ensures r >= 0
    ensures current + amount >= 0 ==> r == current + amount
    ensures current + amount < 0 ==> r == 0
  {
    MaxInt(0, current + amount)
  }

  /** The star level SyncStarsFromNormalized asks for: the meter's fraction of `totalStars`,
      rounded half to even, and at least 1. */
  function LevelFromNormalized(normalized: real, totalStars: int): (level: int)
    ensures level >= 1
    ensures 0.0 <= normalized <= 1.0 && totalStars >= 1 ==> level <= totalStars
  {
    var scaled := normalized * totalStars as real;
    assert 0.0 <= normalized <= 1.0 && totalStars >= 1 ==> scaled <= totalStars as real by {
      if 0.0 <= normalized <= 1.0 && totalStars >= 1 {
        assert totalStars as real - scaled == (1.0 - normalized) * totalStars as real;
      }
    }
    MaxInt(1, RoundToInt(scaled))
  }

  class PlayerMenuController {
    var money: int
    var gems: int
    var kills: int
    var starLevel: int
    const totalStars: int
    const startingLevel: int
    const startClosed: bool
    const pauseOnOpen: bool
    /** Whether a menu panel is assigned; without one the menu does nothing visible. */
    const hasMenuPanel: bool
    /** Whether the star root and both star prefabs are assigned, so star slots get built. */
    const hasStarPrefabs: bool
    /** `menuPanel.activeSelf`. */
    var menuVisible: bool
    var timeScale: real
    /** One entry per star slot: whether its full (coloured) star is shown; its empty star is
        shown exactly when this is false. */
    var starFull: array<bool>

    /** The counters are never negative. */
    ghost predicate Valid()
      reads this
    {
      money >= 0 && gems >= 0 && kills >= 0
    }

    /** Every star slot shows the full star exactly for the slots below the star level. */
    ghost predicate StarsShowLevel()
      reads this, starFull
    {
      forall i :: 0 <= i < starFull.Length ==> starFull[i] == (i < starLevel)
    }

    constructor (money: int, totalStars: int, startingLevel: int, startClosed: bool, pauseOnOpen: bool,
                 hasMenuPanel: bool, hasStarPrefabs: bool, menuVisible: bool)
      ensures this.money == money && gems == 0 && kills == 0 && starLevel == 0
      ensures this.totalStars == totalStars && this.startingLevel == startingLevel
      ensures this.startClosed == startClosed && this.pauseOnOpen == pauseOnOpen
      ensures this.hasMenuPanel == hasMenuPanel && this.hasStarPrefabs == hasStarPrefabs
      ensures this.menuVisible == menuVisible && timeScale == 1.0
      ensures starFull.Length == 0 && fresh(starFull)
    {
      this.money := money;
      gems := 0;
      kills := 0;
      starLevel := 0;
      this.totalStars := totalStars;
      this.startingLevel := startingLevel;
      this.startClosed := startClosed;
      this.pauseOnOpen := pauseOnOpen;
      this.hasMenuPanel := hasMenuPanel;
      this.hasStarPrefabs := hasStarPrefabs;
      this.menuVisible := menuVisible;
      timeScale := 1.0;
      starFull := new bool[0];
    }

    /** Awake: clamp the inspector money, and with a menu panel build the star slots, show the
        starting level (at least 1), follow the testosterone meter when one is bound
        (`boundNormalized`), and show or hide the menu as configured. */
    method Awake(boundNormalized: Option<real>)
      modifies this, starFull
      ensures money == MaxInt(0, old(money)) && gems == old(gems) && kills == old(kills)
      ensures old(gems) >= 0 && old(kills) >= 0 ==> Valid()
      ensures !hasMenuPanel ==> starLevel == old(starLevel) && starFull == old(starFull)
                                && menuVisible == old(menuVisible) && timeScale == old(timeScale)
      ensures hasMenuPanel ==>
                && starLevel == (if boundNormalized.Some?
                                 then ClampInt(LevelFromNormalized(boundNormalized.value, totalStars), 0, totalStars)
                                 else ClampInt(ClampInt(startingLevel, 1, totalStars), 0, totalStars))
                && starFull.Length == (if hasStarPrefabs then MaxInt(0, totalStars) else old(starFull.Length))
                && (hasStarPrefabs ==> StarsShowLevel())
                && menuVisible == !startClosed
                && timeScale == (if pauseOnOpen then (if startClosed then 1.0 else 0.0) else old(timeScale))
      ensures hasMenuPanel && totalStars >= 1 ==> 1 <= starLevel <= totalStars
    {
      money := MaxInt(0, money);
      if !hasMenuPanel {
        return;
      }
      BuildStarSlots();
      SetStarLevel(ClampInt(startingLevel, 1, totalStars));
      if boundNormalized.Some? {
        SyncStarsFromNormalized(boundNormalized.value);
      }
      SetMenuVisible(!startClosed);
    }

    /** BuildStarSlots: with the star prefabs assigned, a fresh row of `totalStars` slots, each
        showing its empty star. */
    method BuildStarSlots()
      modifies this`starFull
      ensures hasStarPrefabs ==>
                fresh(starFull) && starFull.Length == MaxInt(0, totalStars)
                && forall i :: 0 <= i < starFull.Length ==> !starFull[i]
      ensures !hasStarPrefabs ==> starFull == old(starFull)
    {
      if !hasStarPrefabs {
        return;
      }
      starFull := new bool[MaxInt(0, totalStars)](_ => false);
    }

    /** OpenMenu and CloseMenu: SetMenuVisible with a fixed value. */
    method OpenMenu()
      modifies this`menuVisible, this`timeScale
      ensures hasMenuPanel ==> menuVisible
      ensures hasMenuPanel && pauseOnOpen ==> timeScale == 0.0
      ensures hasMenuPanel && !pauseOnOpen ==> timeScale == old(timeScale)
      ensures !hasMenuPanel ==> menuVisible == old(menuVisible) && timeScale == old(timeScale)
    {
      SetMenuVisible(true);
    }

    method CloseMenu()
      modifies this`menuVisible, this`timeScale
      ensures hasMenuPanel ==> !menuVisible
      ensures hasMenuPanel && pauseOnOpen ==> timeScale == 1.0
      ensures hasMenuPanel && !pauseOnOpen ==> timeScale == old(timeScale)
      ensures !hasMenuPanel ==> menuVisible == old(menuVisible) && timeScale == old(timeScale)
    {
      SetMenuVisible(false);
    }

    /** ToggleMenu: show the menu if it is hidden and hide it if it is shown. */
    method ToggleMenu()
      modifies this`menuVisible, this`timeScale
      ensures hasMenuPanel ==> menuVisible == !old(menuVisible)
      ensures hasMenuPanel && pauseOnOpen ==> timeScale == (if menuVisible then 0.0 else 1.0)
      ensures hasMenuPanel && !pauseOnOpen ==> timeScale == old(timeScale)
      ensures !hasMenuPanel ==> menuVisible == old(menuVisible) && timeScale == old(timeScale)
    {
      if !hasMenuPanel {
        return;
      }
      SetMenuVisible(!menuVisible);
    }

    /** SetMenuVisible: with a panel, set its active flag and, when pausing on open, stop time
        while it is shown. */
    method SetMenuVisible(visible: bool)
      modifies this`menuVisible, this`timeScale
      ensures hasMenuPanel ==> menuVisible == visible
      ensures hasMenuPanel && pauseOnOpen ==> timeScale == (if visible then 0.0 else 1.0)
      ensures !hasMenuPanel || !pauseOnOpen ==> timeScale == old(timeScale)
      ensures !hasMenuPanel ==> menuVisible == old(menuVisible)
    {
      if !hasMenuPanel {
        return;
      }
      menuVisible := visible;
      if pauseOnOpen {
        timeScale := if visible then 0.0 else 1.0;
      }
    }

    method AddMoney(amount: int)
      modifies this`money
      ensures money == AddClamped(old(money), amount)
      ensures old(Valid()) ==> Valid()
    {
      money := AddClamped(money, amount);
    }

    method AddGems(amount: int)
      modifies this`gems
      ensures gems == AddClamped(old(gems), amount)
      ensures old(Valid()) ==> Valid()
    {
      gems := AddClamped(gems, amount);
    }

    /** AddKillScore; the source's default amount is 1. */
    method AddKillScore(amount: int)
      modifies this`kills
      ensures kills == AddClamped(old(kills), amount)
      ensures old(Valid()) ==> Valid()
    {
      kills := AddClamped(kills, amount);
    }

    /** AddStar: light the next star; at the top level nothing changes. */
    method AddStar()
      modifies this`starLevel, starFull
      ensures starLevel == ClampInt(MinInt(old(starLevel) + 1, totalStars), 0, totalStars)
      ensures 0 <= old(starLevel) < totalStars ==> starLevel == old(starLevel) + 1
      ensures 0 <= totalStars == old(starLevel) ==> starLevel == old(starLevel)
      ensures StarsShowLevel()
    {
      SetStarLevel(MinInt(starLevel + 1, totalStars));
    }

    /** SetStarLevel: clamp the level to [0, totalStars] and redraw every star slot. */
    method SetStarLevel(level: int)
      modifies this`starLevel, starFull
      ensures starLevel == ClampInt(level, 0, totalStars)
      ensures totalStars >= 0 ==> 0 <= starLevel <= totalStars
      ensures StarsShowLevel()
    {
      starLevel := ClampInt(level, 0, totalStars);
      var i := 0;
      while i < starFull.Length
        invariant 0 <= i <= starFull.Length
        invariant starLevel == ClampInt(level, 0, totalStars)
        invariant forall j :: 0 <= j < i ==> starFull[j] == (j < starLevel)
      {
        starFull[i] := i < starLevel;
        i := i + 1;
      }
    }

    /** SyncStarsFromNormalized: show the meter's fraction as a star level of at least 1. */
    method SyncStarsFromNormalized(normalized: real)
      modifies this`starLevel, starFull
      ensures starLevel == ClampInt(LevelFromNormalized(normalized, totalStars), 0, totalStars)
      ensures totalStars >= 1 ==> 1 <= starLevel <= totalStars
      ensures StarsShowLevel()
    {
      SetStarLevel(LevelFromNormalized(normalized, totalStars));
    }
  }

  /** Starting from a level in range, `totalStars - level` calls of AddStar reach the top and any
      further call leaves it there: the level after n calls is min(level + n, totalStars). */
  lemma {:induction false} AddStarRepeated(level: int, totalStars: int, n: nat)
    requires 0 <= level <= totalStars
    ensures StarLevelAfterAdds(level, totalStars, n) == MinInt(level + n, totalStars)
  {
    if n > 0 {
      AddStarRepeated(level, totalStars, n - 1);
    }
  }

  /** The star level after `n` calls of AddStar. */
  function StarLevelAfterAdds(level: int, totalStars: int, n: nat): int
  {
    if n == 0 then level
    else
      var before := StarLevelAfterAdds(level, totalStars, n - 1);
      ClampInt(MinInt(before + 1, totalStars), 0, totalStars)
  }

  /** Between the two states only the money of `m` may have changed: what `AddMoney` touches. */
  twostate predicate OnlyMoneyChanged(m: PlayerMenuController)
    reads m
  {
    && m.gems == old(m.gems) && m.kills == old(m.kills) && m.starLevel == old(m.starLevel)
    && m.menuVisible == old(m.menuVisible) && m.timeScale == old(m.timeScale) && m.starFull == old(m.starFull)
  }
}
